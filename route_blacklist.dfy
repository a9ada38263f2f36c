/** The route filter of rust-http-wasm/src/route_blacklist.rs. */
module RouteBlacklist {
  import opened Wrappers
  import R = Regex

  datatype RouteBlacklist = RouteBlacklist(patterns: seq<R.Regex>)

  /** The message of the panic raised by `new` on an invalid pattern. */
  const INVALID_PATTERN_PANIC: string := "Invalid regex pattern in blacklist"

  /**
   * `RouteBlacklist::new`: compiles every pattern, in order; `None` stands for
   * the panic that `expect` raises on the first invalid one.
   */
  function New(engine: R.Engine, blacklist: seq<string>): (r: Option<RouteBlacklist>)
    ensures r.None? <==> exists i :: 0 <= i < |blacklist| && !engine.compiles(blacklist[i])
    ensures r.Some? ==> |r.value.patterns| == |blacklist|
    ensures r.Some? ==> forall i :: 0 <= i < |blacklist| ==> r.value.patterns[i] == R.Regex(blacklist[i], engine)
  {
    if blacklist == [] then Some(RouteBlacklist([]))
    else
      var first := R.New(engine, blacklist[0]);
      var rest := New(engine, blacklist[1..]);
      assert (exists i :: 1 <= i < |blacklist| && !engine.compiles(blacklist[i])) ==> rest.None? by {
        if exists i :: 1 <= i < |blacklist| && !engine.compiles(blacklist[i]) {
          var i :| 1 <= i < |blacklist| && !engine.compiles(blacklist[i]);
          assert blacklist[1..][i - 1] == blacklist[i];
        }
      }
      if first.Err? then None
      else if rest.None? then None
      else Some(RouteBlacklist([first.value] + rest.value.patterns))
  }

  /** `patterns.iter().any(|p| p.is_match(url))`, scanning from the front. */
  function AnyMatch(patterns: seq<R.Regex>, url: string): (r: bool)
    ensures r <==> exists i :: 0 <= i < |patterns| && patterns[i].IsMatch(url)
  {
    if patterns == [] then false
    else if patterns[0].IsMatch(url) then true
    else
      var rest := AnyMatch(patterns[1..], url);
      assert rest <==> exists i :: 1 <= i < |patterns| && patterns[i].IsMatch(url) by {
        if rest {
          var j :| 0 <= j < |patterns[1..]| && patterns[1..][j].IsMatch(url);
          assert patterns[j + 1] == patterns[1..][j];
        }
        if exists i :: 1 <= i < |patterns| && patterns[i].IsMatch(url) {
          var i :| 1 <= i < |patterns| && patterns[i].IsMatch(url);
          assert patterns[1..][i - 1] == patterns[i];
        }
      }
      rest
  }

  /** `is_blacklisted`: some configured pattern matches the URL. */
  predicate IsBlacklisted(b: RouteBlacklist, url: string) {
    AnyMatch(b.patterns, url)
  }

  /** An empty blacklist blacklists nothing. */
  lemma EmptyBlacklistsNothing(engine: R.Engine, url: string)
    ensures New(engine, []) == Some(RouteBlacklist([]))
    ensures !IsBlacklisted(New(engine, []).value, url)
  {
  }

  /** The verdict depends only on which patterns are present, not on their order or repetition. */
  lemma {:induction false} OrderIrrelevant(a: RouteBlacklist, b: RouteBlacklist, url: string)
    requires forall p :: p in a.patterns <==> p in b.patterns
    ensures IsBlacklisted(a, url) <==> IsBlacklisted(b, url)
  {
    if IsBlacklisted(a, url) {
      var i :| 0 <= i < |a.patterns| && a.patterns[i].IsMatch(url);
      assert a.patterns[i] in b.patterns;
      var j :| 0 <= j < |b.patterns| && b.patterns[j] == a.patterns[i];
    }
    if IsBlacklisted(b, url) {
      var j :| 0 <= j < |b.patterns| && b.patterns[j].IsMatch(url);
      assert b.patterns[j] in a.patterns;
      var i :| 0 <= i < |a.patterns| && a.patterns[i] == b.patterns[j];
    }
  }

  /** Adding patterns never lets a blacklisted URL through. */
  lemma {:induction false} MoreRoutesStillBlacklisted(b: RouteBlacklist, extra: seq<R.Regex>, url: string)
    requires IsBlacklisted(b, url)
    ensures IsBlacklisted(RouteBlacklist(b.patterns + extra), url)
    ensures IsBlacklisted(RouteBlacklist(extra + b.patterns), url)
  {
    var i :| 0 <= i < |b.patterns| && b.patterns[i].IsMatch(url);
    assert (b.patterns + extra)[i] == b.patterns[i];
    assert (extra + b.patterns)[|extra| + i] == b.patterns[i];
  }

  /** A blacklist that names an invalid pattern anywhere cannot be built. */
  lemma InvalidPatternPanics(engine: R.Engine, blacklist: seq<string>, i: nat)
    requires i < |blacklist| && !engine.compiles(blacklist[i])
    ensures New(engine, blacklist).None?
  {
  }

  const INTERNAL_ROUTES: string := "^/api/internal/.*$"
  const HEALTH_ROUTE: string := "^/health$"

  lemma BuildTwo(engine: R.Engine, p: string, q: string)
    requires engine.compiles(p) && engine.compiles(q)
    ensures New(engine, [p, q]) == Some(RouteBlacklist([R.Regex(p, engine), R.Regex(q, engine)]))
  {
    var ps := [p, q];
    assert forall i :: 0 <= i < |ps| ==> engine.compiles(ps[i]);
    var r := New(engine, ps);
    assert r.value.patterns[0] == R.Regex(p, engine) && r.value.patterns[1] == R.Regex(q, engine);
    assert r.value.patterns == [R.Regex(p, engine), R.Regex(q, engine)];
  }

  /**
   * The anchored patterns of the crate's own example, for an engine that
   * reads `^/health$` as exact equality and `^/api/internal/.*$` as a prefix test.
   */
  lemma {:induction false} AnchoredExamples(engine: R.Engine)
    requires engine.compiles(INTERNAL_ROUTES) && engine.compiles(HEALTH_ROUTE)
    requires forall t :: engine.isMatch(HEALTH_ROUTE, t) <==> t == "/health"
    requires forall t :: engine.isMatch(INTERNAL_ROUTES, t) <==> "/api/internal/" <= t
    ensures New(engine, [INTERNAL_ROUTES, HEALTH_ROUTE]).Some?
    ensures var b := New(engine, [INTERNAL_ROUTES, HEALTH_ROUTE]).value;
      IsBlacklisted(b, "/api/internal/users") && IsBlacklisted(b, "/health")
      && !IsBlacklisted(b, "/api/public/users") && !IsBlacklisted(b, "/healthcheck")
  {
    BuildTwo(engine, INTERNAL_ROUTES, HEALTH_ROUTE);
    var internal := R.Regex(INTERNAL_ROUTES, engine);
    var health := R.Regex(HEALTH_ROUTE, engine);
    assert internal.IsMatch("/api/internal/users") by {
      assert "/api/internal/users" == "/api/internal/" + "users";
    }
    assert health.IsMatch("/health");
    assert !internal.IsMatch("/api/public/users") by {
      assert "/api/public/users"[5] != "/api/internal/"[5];
    }
    assert !health.IsMatch("/api/public/users") by {
      assert |"/api/public/users"| != |"/health"|;
    }
    assert !internal.IsMatch("/healthcheck") by {
      assert "/healthcheck"[1] != "/api/internal/"[1];
    }
    assert !health.IsMatch("/healthcheck") by {
      assert |"/healthcheck"| != |"/health"|;
    }
    var b := RouteBlacklist([internal, health]);
    assert IsBlacklisted(b, "/api/internal/users") by { assert b.patterns[0] == internal; }
    assert IsBlacklisted(b, "/health") by { assert b.patterns[1] == health; }
    assert !IsBlacklisted(b, "/api/public/users");
    assert !IsBlacklisted(b, "/healthcheck");
  }
}
