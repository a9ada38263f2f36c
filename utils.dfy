/**
 * Parsing and masking helpers of rust-http-wasm/src/utils.rs: the recursive
 * sensitive-data masker over JSON values, header masking, client-IP
 * extraction, the JSON content-type test and the request/response records.
 */
module Utils {
  import opened Wrappers
  import opened Text
  import opened Json
  import R = Regex
  import HttpWasmError
  import opened Schema

  /** The text that replaces every masked value. */
  const SENTINEL: string := "*****"

  // ---------------------------------------------------------------- masking, reference semantics

  /**
   * The masked copy of `v` under the compiled pattern `re`: under an object
   * key the pattern matches, the whole value becomes the sentinel string; every
   * other object value and every array element is masked in turn; scalars are
   * kept.
   */
  function Masked(v: Json, re: R.Regex): (r: Json)
    ensures v.Object? <==> r.Object?
    ensures v.Array? <==> r.Array?
    ensures v.Object? ==> r.fields.Keys == v.fields.Keys
    ensures v.Array? ==> |r.items| == |v.items|
    ensures v.IsScalar() ==> r == v
    decreases v
  {
    match v
    case Object(m) =>
      Object(map k | k in m :: if re.IsMatch(k) then String(SENTINEL) else Masked(m[k], re))
    case Array(xs) =>
      Array(seq(|xs|, i requires 0 <= i < |xs| => Masked(xs[i], re)))
    case _ => v
  }

  /** One step into a JSON value: an object member or an array element. */
  datatype Step = Key(name: string) | Index(i: nat)

  /** The value reached from `v` by following `path`, if every step exists. */
  function At(v: Json, path: seq<Step>): Option<Json>
    decreases |path|
  {
    if path == [] then Some(v)
    else match path[0]
      case Key(k) => if v.Object? && k in v.fields then At(v.fields[k], path[1..]) else None
      case Index(i) => if v.Array? && i < |v.items| then At(v.items[i], path[1..]) else None
  }

  /** No object key along `path` matches the pattern. */
  predicate Unmatched(path: seq<Step>, re: R.Regex) {
    forall j :: 0 <= j < |path| && path[j].Key? ==> !re.IsMatch(path[j].name)
  }

  lemma {:induction false} AtAppend(v: Json, path: seq<Step>, s: Step)
    ensures At(v, path + [s]) == if At(v, path).Some? then At(At(v, path).value, [s]) else None
    decreases |path|
  {
    if path != [] {
      assert (path + [s])[1..] == path[1..] + [s];
      match path[0]
      case Key(k) =>
        if v.Object? && k in v.fields { AtAppend(v.fields[k], path[1..], s); }
      case Index(i) =>
        if v.Array? && i < |v.items| { AtAppend(v.items[i], path[1..], s); }
    }
  }

  /**
   * Shape: along a path whose keys the pattern does not match, the masked value
   * has a node exactly where the original has one, and that node is the masked
   * copy of the original node.
   */
  lemma {:induction false} MaskedAt(v: Json, re: R.Regex, path: seq<Step>)
    requires Unmatched(path, re)
    ensures At(v, path).None? ==> At(Masked(v, re), path).None?
    ensures At(v, path).Some? ==> At(Masked(v, re), path) == Some(Masked(At(v, path).value, re))
    decreases |path|
  {
    if path != [] {
      assert Unmatched(path[1..], re) by {
        forall j | 0 <= j < |path[1..]| && path[1..][j].Key? ensures !re.IsMatch(path[1..][j].name) {
          assert path[1..][j] == path[j + 1];
        }
      }
      match path[0]
      case Key(k) =>
        if v.Object? && k in v.fields {
          assert !re.IsMatch(k);
          MaskedAt(v.fields[k], re, path[1..]);
        }
      case Index(i) =>
        if v.Array? && i < |v.items| {
          MaskedAt(v.items[i], re, path[1..]);
        }
    }
  }

  /** Scalars reached without crossing a matching key come through unchanged. */
  lemma ScalarsKept(v: Json, re: R.Regex, path: seq<Step>)
    requires Unmatched(path, re)
    requires At(v, path).Some? && At(v, path).value.IsScalar()
    ensures At(Masked(v, re), path) == At(v, path)
  {
    MaskedAt(v, re, path);
  }

  /**
   * Sentinel placement: the value under a matching key, whatever its type,
   * becomes the sentinel string, and nothing below it survives.
   */
  lemma {:induction false} SentinelAtMatchingKey(v: Json, re: R.Regex, path: seq<Step>, k: string, rest: seq<Step>)
    requires Unmatched(path, re)
    requires At(v, path).Some? && At(v, path).value.Object? && k in At(v, path).value.fields
    requires re.IsMatch(k)
    ensures At(Masked(v, re), path + [Key(k)]) == Some(String(SENTINEL))
    ensures rest != [] ==> At(Masked(v, re), path + [Key(k)] + rest).None?
  {
    MaskedAt(v, re, path);
    AtAppend(Masked(v, re), path, Key(k));
    if rest != [] {
      AtConcat(Masked(v, re), path + [Key(k)], rest);
    }
  }

  lemma {:induction false} AtConcat(v: Json, p: seq<Step>, q: seq<Step>)
    ensures At(v, p + q) == if At(v, p).Some? then At(At(v, p).value, q) else None
    decreases |p|
  {
    if p == [] {
      assert p + q == q;
    } else {
      assert (p + q)[1..] == p[1..] + q;
      match p[0]
      case Key(k) =>
        if v.Object? && k in v.fields { AtConcat(v.fields[k], p[1..], q); }
      case Index(i) =>
        if v.Array? && i < |v.items| { AtConcat(v.items[i], p[1..], q); }
    }
  }

  /** Masking twice is masking once: matching looks only at key names, which masking keeps. */
  lemma {:induction false} MaskedIdempotent(v: Json, re: R.Regex)
    ensures Masked(Masked(v, re), re) == Masked(v, re)
    decreases v
  {
    match v
    case Object(m) =>
      var once := Masked(v, re);
      var twice := Masked(once, re);
      forall k | k in m ensures twice.fields[k] == once.fields[k] {
        if !re.IsMatch(k) {
          MaskedIdempotent(m[k], re);
        }
      }
      assert twice.fields == once.fields;
    case Array(xs) =>
      var once := Masked(v, re);
      var twice := Masked(once, re);
      forall i | 0 <= i < |xs| ensures twice.items[i] == once.items[i] {
        MaskedIdempotent(xs[i], re);
      }
      assert twice.items == once.items;
    case _ =>
  }

  // ---------------------------------------------------------------- masking, as written

  /**
   * `mask_sensitive_data`: compiles the pattern first, so an invalid pattern
   * fails for every input, scalars included; with a valid pattern the result is
   * the masked copy. Every recursive call compiles the same pattern again and
   * therefore succeeds, so the `?` on the recursive results never fires.
   */
  function MaskSensitiveData(data: Json, pattern: string, engine: R.Engine): (r: Result<Json, HttpWasmError.TreblleError>)
    ensures r.Err? <==> !engine.compiles(pattern)
    ensures r.Err? ==> r.error == HttpWasmError.Regex(R.New(engine, pattern).error)
    ensures r.Ok? ==> r.value == Masked(data, R.Regex(pattern, engine))
    decreases data
  {
    match R.New(engine, pattern)
    case Err(e) => Err(HttpWasmError.Regex(e))
    case Ok(re) =>
      match data
      case Object(m) =>
        Ok(Object(map k | k in m ::
          if re.IsMatch(k) then String(SENTINEL) else MaskSensitiveData(m[k], pattern, engine).value))
      case Array(xs) =>
        Ok(Array(seq(|xs|, i requires 0 <= i < |xs| => MaskSensitiveData(xs[i], pattern, engine).value)))
      case _ => Ok(data)
  }

  /** `mask_sensitive_headers`: every name kept; exactly the values of matching names replaced. */
  function MaskSensitiveHeaders(headers: map<string, string>, pattern: string, engine: R.Engine)
    : (r: Result<map<string, string>, HttpWasmError.TreblleError>)
    ensures r.Err? <==> !engine.compiles(pattern)
    ensures r.Ok? ==> r.value.Keys == headers.Keys
    ensures r.Ok? ==> forall k :: k in headers && engine.isMatch(pattern, k) ==> r.value[k] == SENTINEL
    ensures r.Ok? ==> forall k :: k in headers && !engine.isMatch(pattern, k) ==> r.value[k] == headers[k]
  {
    match R.New(engine, pattern)
    case Err(e) => Err(HttpWasmError.Regex(e))
    case Ok(re) => Ok(map k | k in headers :: if re.IsMatch(k) then SENTINEL else headers[k])
  }

  // ---------------------------------------------------------------- client IP and content type

  const X_FORWARDED_FOR: string := "X-Forwarded-For"
  const X_REAL_IP: string := "X-Real-IP"

  /**
   * `extract_ip_from_headers`: `X-Forwarded-For` is preferred over `X-Real-IP`;
   * the first comma-separated entry of the chosen header, trimmed.
   */
  function ExtractIpFromHeaders(headers: map<string, string>): (r: Option<string>)
    ensures r.None? <==> X_FORWARDED_FOR !in headers && X_REAL_IP !in headers
    ensures r.Some? ==> ',' !in r.value
    ensures X_FORWARDED_FOR in headers ==> r == Some(Trim(BeforeFirst(headers[X_FORWARDED_FOR], ',')))
    ensures X_FORWARDED_FOR !in headers && X_REAL_IP in headers ==> r == Some(Trim(BeforeFirst(headers[X_REAL_IP], ',')))
  {
    var chosen := if X_FORWARDED_FOR in headers then Some(headers[X_FORWARDED_FOR])
                  else if X_REAL_IP in headers then Some(headers[X_REAL_IP])
                  else None;
    match chosen
    case None => None
    case Some(ip) =>
      var t := Trim(BeforeFirst(ip, ','));
      assert forall i :: 0 <= i < |t| ==> t[i] in BeforeFirst(ip, ',');
      Some(t)
  }

  /** A proxy chain `client, proxy1, ...` yields the client address without surrounding blanks. */
  lemma {:induction false} ForwardedForYieldsClient(headers: map<string, string>, client: string, rest: string)
    requires X_FORWARDED_FOR in headers && headers[X_FORWARDED_FOR] == client + "," + rest
    requires ',' !in client
    ensures ExtractIpFromHeaders(headers) == Some(Trim(client))
  {
    BeforeFirstSplit(client, rest);
  }

  lemma {:induction false} BeforeFirstSplit(a: string, b: string)
    requires ',' !in a
    ensures BeforeFirst(a + "," + b, ',') == a
    decreases |a|
  {
    if a != [] {
      assert (a + "," + b)[1..] == a[1..] + "," + b;
      BeforeFirstSplit(a[1..], b);
    }
  }

  /** `is_json`: the lowered content type contains `application/json`. */
  predicate IsJson(contentType: string) {
    Contains(ToLower(contentType), "application/json")
  }

  /** The content-type test accepts exactly the values with `application/json` somewhere, in any letter case. */
  lemma IsJsonIff(contentType: string)
    ensures IsJson(contentType) <==> exists i :: OccursAt(ToLower(contentType), "application/json", i)
  {
    ContainsIff(ToLower(contentType), "application/json");
  }

  // ---------------------------------------------------------------- request and response records

  /** `parse_json_body`: the parsed body, or `null` when the bytes are not JSON. */
  function ParseJsonBody(body: seq<byte>, parse: BytesParser): (r: Json)
    ensures parse(body).None? ==> r == Null
    ensures parse(body).Some? ==> r == parse(body).value
  {
    parse(body).UnwrapOr(Null)
  }

  /** The `User-Agent` header, or the empty string. */
  function UserAgentOf(headers: map<string, string>): string {
    if "User-Agent" in headers then headers["User-Agent"] else ""
  }

  /**
   * `parse_request`: the request section of the record, with masked body and
   * headers; fails only on an invalid pattern. `timestamp` stands for the
   * clock reading `Utc::now()`.
   */
  function ParseRequest(verb: string, uri: string, headers: map<string, string>, body: seq<byte>,
                        pattern: string, engine: R.Engine, parse: BytesParser, timestamp: string)
    : (r: Result<RequestInfo, HttpWasmError.TreblleError>)
    ensures r.Err? <==> !engine.compiles(pattern)
    ensures r.Ok? ==> r.value.verb == verb && r.value.url == uri && r.value.timestamp == timestamp
    ensures r.Ok? ==> r.value.ip == ExtractIpFromHeaders(headers).UnwrapOr("Unknown")
    ensures r.Ok? ==> r.value.userAgent == UserAgentOf(headers)
    ensures r.Ok? ==> r.value.body == Some(Masked(ParseJsonBody(body, parse), R.Regex(pattern, engine)))
    ensures r.Ok? ==> r.value.headers == MaskSensitiveHeaders(headers, pattern, engine).value
  {
    var ip := ExtractIpFromHeaders(headers).UnwrapOr("Unknown");
    var userAgent := UserAgentOf(headers);
    var parsedBody := ParseJsonBody(body, parse);
    match MaskSensitiveData(parsedBody, pattern, engine)
    case Err(e) => Err(e)
    case Ok(maskedBody) =>
      match MaskSensitiveHeaders(headers, pattern, engine)
      case Err(e) => Err(e)
      case Ok(maskedHeaders) =>
        Ok(RequestInfo(timestamp, ip, uri, userAgent, verb, maskedHeaders, Some(maskedBody)))
  }

  /**
   * `parse_response`: the response section; `code` is the status and `size`
   * the raw body length. `loadTime` stands for `start_time.elapsed()`.
   */
  function ParseResponse(status: u32, headers: map<string, string>, body: seq<byte>, loadTime: string,
                         pattern: string, engine: R.Engine, parse: BytesParser)
    : (r: Result<ResponseInfo, HttpWasmError.TreblleError>)
    ensures r.Err? <==> !engine.compiles(pattern)
    ensures r.Ok? ==> r.value.code == status && r.value.size == |body| && r.value.loadTime == loadTime
    ensures r.Ok? ==> r.value.body == Some(Masked(ParseJsonBody(body, parse), R.Regex(pattern, engine)))
    ensures r.Ok? ==> r.value.headers == MaskSensitiveHeaders(headers, pattern, engine).value
  {
    var parsedBody := ParseJsonBody(body, parse);
    match MaskSensitiveData(parsedBody, pattern, engine)
    case Err(e) => Err(e)
    case Ok(maskedBody) =>
      match MaskSensitiveHeaders(headers, pattern, engine)
      case Err(e) => Err(e)
      case Ok(maskedHeaders) =>
        Ok(ResponseInfo(status, |body|, loadTime, maskedHeaders, Some(maskedBody)))
  }
}
