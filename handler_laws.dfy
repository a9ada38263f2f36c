/**
 * What the request and response phases of the handlers promise, for every
 * layout, every host state and every outcome of the host calls: when they
 * skip, what they write back, that they dispatch at most once and last, that
 * a failed read or refused write stops them before the dispatch, and what the
 * dispatched record holds.
 */
module HandlerLaws {
  import opened Wrappers
  import opened Text
  import opened Schema
  import opened Host
  import opened HandlerFlow
  import RB = RouteBlacklist
  import PP = PluginPayload
  import Utils
  import Json
  import R = Regex
  import PluginConstants

  // ---------------------------------------------------------------- trace predicates

  /** No record is dispatched. */
  predicate NoDispatch(events: seq<Event>) {
    forall i :: 0 <= i < |events| ==> !events[i].Dispatch?
  }

  /** No body is written. */
  predicate NoWrite(events: seq<Event>) {
    forall i :: 0 <= i < |events| ==> !events[i].WriteBody?
  }

  /** At most one record is dispatched, and no host call follows it. */
  predicate DispatchLast(events: seq<Event>) {
    forall i :: 0 <= i < |events| && events[i].Dispatch? ==> i == |events| - 1
  }

  /** Every body written is `bytes`, written to `kind`. */
  predicate WritesOnly(events: seq<Event>, kind: nat, bytes: seq<byte>) {
    forall i :: 0 <= i < |events| && events[i].WriteBody? ==> events[i] == WriteBody(kind, bytes)
  }

  lemma AfterDispatchLast(events: seq<Event>, rest: Run)
    requires NoDispatch(events) && DispatchLast(rest.events)
    ensures DispatchLast(After(events, rest).events)
  {
    var all := After(events, rest).events;
    forall i | 0 <= i < |all| && all[i].Dispatch? ensures i == |all| - 1 {
      if i >= |events| {
        assert all[i] == rest.events[i - |events|];
      }
    }
  }

  lemma AfterWritesOnly(events: seq<Event>, rest: Run, kind: nat, bytes: seq<byte>)
    requires WritesOnly(events, kind, bytes) && WritesOnly(rest.events, kind, bytes)
    ensures WritesOnly(After(events, rest).events, kind, bytes)
  {
    var all := After(events, rest).events;
    forall i | 0 <= i < |all| && all[i].WriteBody? ensures all[i] == WriteBody(kind, bytes) {
      if i < |events| {
        assert all[i] == events[i];
      } else {
        assert all[i] == rest.events[i - |events|];
      }
    }
  }

  lemma HeaderEventsQuiet(h: Headers)
    requires forall i :: 0 < i < |h.events| ==> h.events[i].GetHeaderValues?
    requires h.events != [] && h.events[0].GetHeaderNames?
    ensures NoDispatch(h.events) && NoWrite(h.events)
  {
  }

  // ---------------------------------------------------------------- request phase: skipping

  /** A blacklisted URI ends the phase after the URI is read: nothing else is asked, read or sent. */
  lemma RequestBlacklistedSkips(layout: Layout, settings: Settings, blacklist: Option<RB.RouteBlacklist>,
                                env: PP.Env, sections: Sections, s: State)
    requires s.uri.Some? && blacklist.Some? && RB.IsBlacklisted(blacklist.value, s.uri.value)
    ensures RequestRun(layout, settings, blacklist, env, sections, s) == Run([GetUri], Returned(Ok(Unit)), s.bodies)
  {
  }

  /**
   * A content type that is not JSON ends the phase after it is read: the body
   * is neither read nor written and nothing is sent.
   */
  lemma RequestNotJsonSkips(layout: Layout, settings: Settings, blacklist: Option<RB.RouteBlacklist>,
                            env: PP.Env, sections: Sections, s: State)
    requires s.uri.Some? && blacklist.Some? && !RB.IsBlacklisted(blacklist.value, s.uri.value)
    requires (layout.requestHeaders, PluginConstants.HEADER_CONTENT_TYPE) in s.headerValues
    requires !Utils.IsJson(s.headerValues[(layout.requestHeaders, PluginConstants.HEADER_CONTENT_TYPE)])
    ensures RequestRun(layout, settings, blacklist, env, sections, s)
            == Run([GetUri, GetHeaderValues(layout.requestHeaders, PluginConstants.HEADER_CONTENT_TYPE)],
                   Returned(Ok(Unit)), s.bodies)
  {
    var rest := RequestFrom(Screening(s.uri.value), layout, settings, blacklist, env, sections, s);
    assert RequestRun(layout, settings, blacklist, env, sections, s) == After([GetUri], rest);
  }

  // ---------------------------------------------------------------- request phase: effects

  /** The request phase dispatches at most one record, as its last host call. */
  lemma {:induction false} RequestDispatchLast(stage: RequestStage, layout: Layout, settings: Settings,
                                               blacklist: Option<RB.RouteBlacklist>, env: PP.Env,
                                               sections: Sections, s: State)
    ensures DispatchLast(RequestFrom(stage, layout, settings, blacklist, env, sections, s).events)
    decreases stage.Remaining()
  {
    match stage
    case Begin =>
      if s.uri.Some? && blacklist.Some? && !RB.IsBlacklisted(blacklist.value, s.uri.value) {
        var next := Screening(s.uri.value);
        RequestDispatchLast(next, layout, settings, blacklist, env, sections, s);
        AfterDispatchLast([GetUri], RequestFrom(next, layout, settings, blacklist, env, sections, s));
      }
    case Screening(uri) =>
      var ct := (layout.requestHeaders, PluginConstants.HEADER_CONTENT_TYPE);
      if ct in s.headerValues && Utils.IsJson(s.headerValues[ct]) && s.verb.Some? {
        var next := Observing(uri, s.verb.value);
        RequestDispatchLast(next, layout, settings, blacklist, env, sections, s);
        AfterDispatchLast([GetHeaderValues(ct.0, ct.1), GetMethod],
                          RequestFrom(next, layout, settings, blacklist, env, sections, s));
      }
    case Observing(uri, verb) =>
      var h := HeadersRun(layout.requestHeaders, s.headerNames, s.headerValues);
      HeaderEventsQuiet(h);
      if h.result.Ok? {
        var next := Capturing(uri, verb, h.result.value);
        RequestDispatchLast(next, layout, settings, blacklist, env, sections, s);
        AfterDispatchLast(h.events, RequestFrom(next, layout, settings, blacklist, env, sections, s));
      }
    case Capturing(uri, verb, headers) =>
      var k := layout.requestBody;
      if k in s.bodies {
        var w := WriteBack(layout.writesBack, k, s.bodies[k], s.writeError, s.bodies[k := []]);
        if w.error.None? {
          var next := Recording(uri, verb, headers, s.bodies[k]);
          var s' := s.(bodies := w.bodies);
          RequestDispatchLast(next, layout, settings, blacklist, env, sections, s');
          AfterDispatchLast([ReadBody(k)] + w.events, RequestFrom(next, layout, settings, blacklist, env, sections, s'));
        }
      }
    case Recording(_, _, _, _) =>
  }

  /**
   * The only body the request phase writes is the request body, with exactly
   * the bytes the host held for it, and only in a layout that writes back.
   */
  lemma {:induction false} RequestWritesBackWhatItRead(stage: RequestStage, layout: Layout, settings: Settings,
                                                       blacklist: Option<RB.RouteBlacklist>, env: PP.Env,
                                                       sections: Sections, s: State)
    requires layout.requestBody in s.bodies
    ensures var events := RequestFrom(stage, layout, settings, blacklist, env, sections, s).events;
            WritesOnly(events, layout.requestBody, s.bodies[layout.requestBody])
            && (!layout.writesBack ==> NoWrite(events))
    decreases stage.Remaining()
  {
    var k := layout.requestBody;
    var bytes := s.bodies[k];
    match stage
    case Begin =>
      if s.uri.Some? && blacklist.Some? && !RB.IsBlacklisted(blacklist.value, s.uri.value) {
        var next := Screening(s.uri.value);
        RequestWritesBackWhatItRead(next, layout, settings, blacklist, env, sections, s);
        AfterWritesOnly([GetUri], RequestFrom(next, layout, settings, blacklist, env, sections, s), k, bytes);
      }
    case Screening(uri) =>
      var ct := (layout.requestHeaders, PluginConstants.HEADER_CONTENT_TYPE);
      if ct in s.headerValues && Utils.IsJson(s.headerValues[ct]) && s.verb.Some? {
        var next := Observing(uri, s.verb.value);
        RequestWritesBackWhatItRead(next, layout, settings, blacklist, env, sections, s);
        AfterWritesOnly([GetHeaderValues(ct.0, ct.1), GetMethod],
                        RequestFrom(next, layout, settings, blacklist, env, sections, s), k, bytes);
      }
    case Observing(uri, verb) =>
      var h := HeadersRun(layout.requestHeaders, s.headerNames, s.headerValues);
      HeaderEventsQuiet(h);
      if h.result.Ok? {
        var next := Capturing(uri, verb, h.result.value);
        RequestWritesBackWhatItRead(next, layout, settings, blacklist, env, sections, s);
        AfterWritesOnly(h.events, RequestFrom(next, layout, settings, blacklist, env, sections, s), k, bytes);
      }
    case Capturing(_, _, _) =>
      CapturedWritesOnly(stage, layout, settings, blacklist, env, sections, s);
    case Recording(_, _, _, _) =>
  }

  /** `RequestWritesBackWhatItRead` once the body is captured: the one write there is. */
  lemma CapturedWritesOnly(stage: RequestStage, layout: Layout, settings: Settings,
                           blacklist: Option<RB.RouteBlacklist>, env: PP.Env, sections: Sections, s: State)
    requires stage.Capturing? && layout.requestBody in s.bodies
    ensures var events := RequestFrom(stage, layout, settings, blacklist, env, sections, s).events;
            WritesOnly(events, layout.requestBody, s.bodies[layout.requestBody])
            && (!layout.writesBack ==> NoWrite(events))
  {
    var k := layout.requestBody;
    var bytes := s.bodies[k];
    var w := WriteBack(layout.writesBack, k, bytes, s.writeError, s.bodies[k := []]);
    if w.error.None? {
      var next := Recording(stage.uri, stage.verb, stage.headers, bytes);
      var rest := RequestFrom(next, layout, settings, blacklist, env, sections, s.(bodies := w.bodies));
      assert NoWrite(rest.events);
      AfterWritesOnly([ReadBody(k)] + w.events, rest, k, bytes);
    }
  }

  /**
   * Before the body is captured, a body the host cannot hand over stops the
   * phase: nothing is written, nothing is sent and the bodies stay as they were.
   */
  lemma {:induction false} RequestFailedReadStops(stage: RequestStage, layout: Layout, settings: Settings,
                                                  blacklist: Option<RB.RouteBlacklist>, env: PP.Env,
                                                  sections: Sections, s: State)
    requires !stage.Recording? && layout.requestBody !in s.bodies
    ensures var run := RequestFrom(stage, layout, settings, blacklist, env, sections, s);
            NoDispatch(run.events) && NoWrite(run.events) && run.bodies == s.bodies
            && (run.outcome.Returned? && run.outcome.value.Err? ==> run.outcome.value.error.HostCall?)
    decreases stage.Remaining()
  {
    match stage
    case Begin =>
      if s.uri.Some? && blacklist.Some? && !RB.IsBlacklisted(blacklist.value, s.uri.value) {
        RequestFailedReadStops(Screening(s.uri.value), layout, settings, blacklist, env, sections, s);
      }
    case Screening(uri) =>
      var ct := (layout.requestHeaders, PluginConstants.HEADER_CONTENT_TYPE);
      if ct in s.headerValues && Utils.IsJson(s.headerValues[ct]) && s.verb.Some? {
        RequestFailedReadStops(Observing(uri, s.verb.value), layout, settings, blacklist, env, sections, s);
      }
    case Observing(uri, verb) =>
      var h := HeadersRun(layout.requestHeaders, s.headerNames, s.headerValues);
      HeaderEventsQuiet(h);
      if h.result.Ok? {
        RequestFailedReadStops(Capturing(uri, verb, h.result.value), layout, settings, blacklist, env, sections, s);
      }
    case Capturing(_, _, _) =>
  }

  /**
   * In a layout that writes back, a write the host refuses stops the phase
   * before anything is sent.
   */
  lemma {:induction false} RequestRefusedWriteStops(stage: RequestStage, layout: Layout, settings: Settings,
                                                    blacklist: Option<RB.RouteBlacklist>, env: PP.Env,
                                                    sections: Sections, s: State)
    requires !stage.Recording? && layout.writesBack && s.writeError.Some?
    ensures NoDispatch(RequestFrom(stage, layout, settings, blacklist, env, sections, s).events)
    decreases stage.Remaining()
  {
    match stage
    case Begin =>
      if s.uri.Some? && blacklist.Some? && !RB.IsBlacklisted(blacklist.value, s.uri.value) {
        RequestRefusedWriteStops(Screening(s.uri.value), layout, settings, blacklist, env, sections, s);
      }
    case Screening(uri) =>
      var ct := (layout.requestHeaders, PluginConstants.HEADER_CONTENT_TYPE);
      if ct in s.headerValues && Utils.IsJson(s.headerValues[ct]) && s.verb.Some? {
        RequestRefusedWriteStops(Observing(uri, s.verb.value), layout, settings, blacklist, env, sections, s);
      }
    case Observing(uri, verb) =>
      var h := HeadersRun(layout.requestHeaders, s.headerNames, s.headerValues);
      HeaderEventsQuiet(h);
      if h.result.Ok? {
        RequestRefusedWriteStops(Capturing(uri, verb, h.result.value), layout, settings, blacklist, env, sections, s);
      }
    case Capturing(_, _, _) =>
  }

  /** A dispatch in `After(events, rest)`, when `events` holds none, is one of `rest`. */
  lemma DispatchIn(events: seq<Event>, rest: Run, i: nat)
    requires NoDispatch(events)
    requires i < |After(events, rest).events| && After(events, rest).events[i].Dispatch?
    ensures |events| <= i && rest.events[i - |events|] == After(events, rest).events[i]
    ensures After(events, rest).events[..i] == events + rest.events[..i - |events|]
  {
  }

  /** Prefixing quiet events neither adds nor hides a dispatch or a write. */
  lemma AfterQuiet(events: seq<Event>, rest: Run)
    requires NoDispatch(events) && NoWrite(events)
    ensures NoDispatch(After(events, rest).events) <==> NoDispatch(rest.events)
    ensures NoWrite(After(events, rest).events) <==> NoWrite(rest.events)
  {
    var all := After(events, rest).events;
    assert forall j :: 0 <= j < |rest.events| ==> all[|events| + j] == rest.events[j];
    assert forall j :: 0 <= j < |events| ==> all[j] == events[j];
  }

  /**
   * The request phase leaves the host's bodies as they were, or with the
   * request body consumed; a layout that writes back and a host that
   * accepts the write always leave them as they were.
   */
  lemma {:induction false} RequestBodiesAfter(stage: RequestStage, layout: Layout, settings: Settings,
                                              blacklist: Option<RB.RouteBlacklist>, env: PP.Env,
                                              sections: Sections, s: State)
    requires !stage.Recording?
    ensures var run := RequestFrom(stage, layout, settings, blacklist, env, sections, s);
            var k := layout.requestBody;
            && (run.bodies == s.bodies || (k in s.bodies && run.bodies == s.bodies[k := []]))
            && (layout.writesBack && s.writeError.None? ==> run.bodies == s.bodies)
    decreases stage.Remaining()
  {
    var k := layout.requestBody;
    match stage
    case Begin =>
      if s.uri.Some? && blacklist.Some? && !RB.IsBlacklisted(blacklist.value, s.uri.value) {
        RequestBodiesAfter(Screening(s.uri.value), layout, settings, blacklist, env, sections, s);
      }
    case Screening(uri) =>
      var ct := (layout.requestHeaders, PluginConstants.HEADER_CONTENT_TYPE);
      if ct in s.headerValues && Utils.IsJson(s.headerValues[ct]) && s.verb.Some? {
        RequestBodiesAfter(Observing(uri, s.verb.value), layout, settings, blacklist, env, sections, s);
      }
    case Observing(uri, verb) =>
      var h := HeadersRun(layout.requestHeaders, s.headerNames, s.headerValues);
      if h.result.Ok? {
        RequestBodiesAfter(Capturing(uri, verb, h.result.value), layout, settings, blacklist, env, sections, s);
      }
    case Capturing(uri, verb, headers) =>
      if k in s.bodies && layout.writesBack && s.writeError.None? {
        assert s.bodies[k := []][k := s.bodies[k]] == s.bodies;
      }
  }

  /**
   * In a layout that writes back, a record is dispatched only after the
   * request body was written back with exactly the bytes the host held.
   */
  lemma {:induction false} RequestWrittenBeforeDispatch(stage: RequestStage, layout: Layout, settings: Settings,
                                                        blacklist: Option<RB.RouteBlacklist>, env: PP.Env,
                                                        sections: Sections, s: State, i: nat)
    requires !stage.Recording? && layout.writesBack
    requires var run := RequestFrom(stage, layout, settings, blacklist, env, sections, s);
             i < |run.events| && run.events[i].Dispatch?
    ensures var run := RequestFrom(stage, layout, settings, blacklist, env, sections, s);
            layout.requestBody in s.bodies && WriteBody(layout.requestBody, s.bodies[layout.requestBody]) in run.events[..i]
    decreases stage.Remaining(), 1
  {
    match stage
    case Begin =>
      BegunWrittenBeforeDispatch(layout, settings, blacklist, env, sections, s, i);
    case Screening(uri) =>
      ScreenedWrittenBeforeDispatch(uri, layout, settings, blacklist, env, sections, s, i);
    case Observing(uri, verb) =>
      ObservedWrittenBeforeDispatch(uri, verb, layout, settings, blacklist, env, sections, s, i);
    case Capturing(_, _, _) =>
      CapturedWrittenBeforeDispatch(stage, layout, settings, blacklist, env, sections, s, i);
  }

  /** `RequestWrittenBeforeDispatch` from the start: reading the URI writes nothing. */
  lemma {:induction false} BegunWrittenBeforeDispatch(layout: Layout, settings: Settings,
      blacklist: Option<RB.RouteBlacklist>, env: PP.Env, sections: Sections, s: State, i: nat)
    requires layout.writesBack
    requires var run := RequestFrom(Begin, layout, settings, blacklist, env, sections, s);
             i < |run.events| && run.events[i].Dispatch?
    ensures var run := RequestFrom(Begin, layout, settings, blacklist, env, sections, s);
            layout.requestBody in s.bodies && WriteBody(layout.requestBody, s.bodies[layout.requestBody]) in run.events[..i]
    decreases Begin.Remaining(), 0
  {
    var next := Screening(s.uri.value);
    DispatchIn([GetUri], RequestFrom(next, layout, settings, blacklist, env, sections, s), i);
    RequestWrittenBeforeDispatch(next, layout, settings, blacklist, env, sections, s, i - 1);
  }

  /** `RequestWrittenBeforeDispatch` once the URI is in: the content type and the method write nothing. */
  lemma {:induction false} ScreenedWrittenBeforeDispatch(uri: string, layout: Layout, settings: Settings,
      blacklist: Option<RB.RouteBlacklist>, env: PP.Env, sections: Sections, s: State, i: nat)
    requires layout.writesBack
    requires var run := RequestFrom(Screening(uri), layout, settings, blacklist, env, sections, s);
             i < |run.events| && run.events[i].Dispatch?
    ensures var run := RequestFrom(Screening(uri), layout, settings, blacklist, env, sections, s);
            layout.requestBody in s.bodies && WriteBody(layout.requestBody, s.bodies[layout.requestBody]) in run.events[..i]
    decreases Screening(uri).Remaining(), 0
  {
    var next := Observing(uri, s.verb.value);
    DispatchIn([GetHeaderValues(layout.requestHeaders, PluginConstants.HEADER_CONTENT_TYPE), GetMethod],
               RequestFrom(next, layout, settings, blacklist, env, sections, s), i);
    RequestWrittenBeforeDispatch(next, layout, settings, blacklist, env, sections, s, i - 2);
  }

  /** `RequestWrittenBeforeDispatch` once the method is in: reading the headers writes nothing. */
  lemma {:induction false} ObservedWrittenBeforeDispatch(uri: string, verb: string, layout: Layout, settings: Settings,
      blacklist: Option<RB.RouteBlacklist>, env: PP.Env, sections: Sections, s: State, i: nat)
    requires layout.writesBack
    requires var run := RequestFrom(Observing(uri, verb), layout, settings, blacklist, env, sections, s);
             i < |run.events| && run.events[i].Dispatch?
    ensures var run := RequestFrom(Observing(uri, verb), layout, settings, blacklist, env, sections, s);
            layout.requestBody in s.bodies && WriteBody(layout.requestBody, s.bodies[layout.requestBody]) in run.events[..i]
    decreases Observing(uri, verb).Remaining(), 0
  {
    var h := HeadersRun(layout.requestHeaders, s.headerNames, s.headerValues);
    HeaderEventsQuiet(h);
    var next := Capturing(uri, verb, h.result.value);
    var rest := RequestFrom(next, layout, settings, blacklist, env, sections, s);
    assert RequestFrom(Observing(uri, verb), layout, settings, blacklist, env, sections, s) == After(h.events, rest);
    DispatchIn(h.events, rest, i);
    RequestWrittenBeforeDispatch(next, layout, settings, blacklist, env, sections, s, i - |h.events|);
    var written := WriteBody(layout.requestBody, s.bodies[layout.requestBody]);
    assert written in rest.events[..i - |h.events|];
    assert written in h.events + rest.events[..i - |h.events|];
  }

  /** `RequestWrittenBeforeDispatch` once the body is captured: the write comes right after the read. */
  lemma CapturedWrittenBeforeDispatch(stage: RequestStage, layout: Layout, settings: Settings,
                                      blacklist: Option<RB.RouteBlacklist>, env: PP.Env, sections: Sections,
                                      s: State, i: nat)
    requires stage.Capturing? && layout.writesBack
    requires var run := RequestFrom(stage, layout, settings, blacklist, env, sections, s);
             i < |run.events| && run.events[i].Dispatch?
    ensures var run := RequestFrom(stage, layout, settings, blacklist, env, sections, s);
            layout.requestBody in s.bodies && WriteBody(layout.requestBody, s.bodies[layout.requestBody]) in run.events[..i]
  {
    var k := layout.requestBody;
    var e := [ReadBody(k), WriteBody(k, s.bodies[k])];
    var w := WriteBack(layout.writesBack, k, s.bodies[k], s.writeError, s.bodies[k := []]);
    var rest := RequestFrom(Recording(stage.uri, stage.verb, stage.headers, s.bodies[k]), layout, settings, blacklist,
                            env, sections, s.(bodies := w.bodies));
    assert [ReadBody(k)] + w.events == e;
    DispatchIn(e, rest, i);
  }

  /**
   * In a layout that does not write back, a request phase that dispatches
   * leaves the request body consumed: the host no longer holds its bytes.
   */
  lemma {:induction false} RequestDispatchConsumesBody(stage: RequestStage, layout: Layout, settings: Settings,
                                                       blacklist: Option<RB.RouteBlacklist>, env: PP.Env,
                                                       sections: Sections, s: State, i: nat)
    requires !stage.Recording? && !layout.writesBack
    requires var run := RequestFrom(stage, layout, settings, blacklist, env, sections, s);
             i < |run.events| && run.events[i].Dispatch?
    ensures var run := RequestFrom(stage, layout, settings, blacklist, env, sections, s);
            layout.requestBody in s.bodies && run.bodies == s.bodies[layout.requestBody := []]
    decreases stage.Remaining(), 1
  {
    match stage
    case Begin =>
      BegunConsumesBody(layout, settings, blacklist, env, sections, s, i);
    case Screening(uri) =>
      ScreenedConsumesBody(uri, layout, settings, blacklist, env, sections, s, i);
    case Observing(uri, verb) =>
      ObservedConsumesBody(uri, verb, layout, settings, blacklist, env, sections, s, i);
    case Capturing(uri, verb, headers) =>
      CapturedConsumesBody(uri, verb, headers, layout, settings, blacklist, env, sections, s);
  }

  /** `RequestDispatchConsumesBody` from the start: reading the URI leaves the bodies alone. */
  lemma {:induction false} BegunConsumesBody(layout: Layout, settings: Settings, blacklist: Option<RB.RouteBlacklist>,
                                             env: PP.Env, sections: Sections, s: State, i: nat)
    requires !layout.writesBack
    requires var run := RequestFrom(Begin, layout, settings, blacklist, env, sections, s);
             i < |run.events| && run.events[i].Dispatch?
    ensures var run := RequestFrom(Begin, layout, settings, blacklist, env, sections, s);
            layout.requestBody in s.bodies && run.bodies == s.bodies[layout.requestBody := []]
    decreases Begin.Remaining(), 0
  {
    var next := Screening(s.uri.value);
    DispatchIn([GetUri], RequestFrom(next, layout, settings, blacklist, env, sections, s), i);
    RequestDispatchConsumesBody(next, layout, settings, blacklist, env, sections, s, i - 1);
  }

  /** `RequestDispatchConsumesBody` once the URI is in: the content type and the method leave the bodies alone. */
  lemma {:induction false} ScreenedConsumesBody(uri: string, layout: Layout, settings: Settings,
                                                blacklist: Option<RB.RouteBlacklist>, env: PP.Env,
                                                sections: Sections, s: State, i: nat)
    requires !layout.writesBack
    requires var run := RequestFrom(Screening(uri), layout, settings, blacklist, env, sections, s);
             i < |run.events| && run.events[i].Dispatch?
    ensures var run := RequestFrom(Screening(uri), layout, settings, blacklist, env, sections, s);
            layout.requestBody in s.bodies && run.bodies == s.bodies[layout.requestBody := []]
    decreases Screening(uri).Remaining(), 0
  {
    var next := Observing(uri, s.verb.value);
    DispatchIn([GetHeaderValues(layout.requestHeaders, PluginConstants.HEADER_CONTENT_TYPE), GetMethod],
               RequestFrom(next, layout, settings, blacklist, env, sections, s), i);
    RequestDispatchConsumesBody(next, layout, settings, blacklist, env, sections, s, i - 2);
  }

  /** `RequestDispatchConsumesBody` once the method is in: reading the headers leaves the bodies alone. */
  lemma {:induction false} ObservedConsumesBody(uri: string, verb: string, layout: Layout, settings: Settings,
                                                blacklist: Option<RB.RouteBlacklist>, env: PP.Env,
                                                sections: Sections, s: State, i: nat)
    requires !layout.writesBack
    requires var run := RequestFrom(Observing(uri, verb), layout, settings, blacklist, env, sections, s);
             i < |run.events| && run.events[i].Dispatch?
    ensures var run := RequestFrom(Observing(uri, verb), layout, settings, blacklist, env, sections, s);
            layout.requestBody in s.bodies && run.bodies == s.bodies[layout.requestBody := []]
    decreases Observing(uri, verb).Remaining(), 0
  {
    var h := HeadersRun(layout.requestHeaders, s.headerNames, s.headerValues);
    HeaderEventsQuiet(h);
    var next := Capturing(uri, verb, h.result.value);
    DispatchIn(h.events, RequestFrom(next, layout, settings, blacklist, env, sections, s), i);
    RequestDispatchConsumesBody(next, layout, settings, blacklist, env, sections, s, i - |h.events|);
  }

  /** `RequestDispatchConsumesBody` once the headers are in: the read empties the body, and nothing refills it. */
  lemma CapturedConsumesBody(uri: string, verb: string, headers: map<string, string>, layout: Layout,
                             settings: Settings, blacklist: Option<RB.RouteBlacklist>, env: PP.Env,
                             sections: Sections, s: State)
    requires !layout.writesBack
    requires !NoDispatch(RequestFrom(Capturing(uri, verb, headers), layout, settings, blacklist, env, sections, s).events)
    ensures var run := RequestFrom(Capturing(uri, verb, headers), layout, settings, blacklist, env, sections, s);
            layout.requestBody in s.bodies && run.bodies == s.bodies[layout.requestBody := []]
  {
    var k := layout.requestBody;
    if k in s.bodies {
      var s' := s.(bodies := s.bodies[k := []]);
      var rest := RequestFrom(Recording(uri, verb, headers, s.bodies[k]), layout, settings, blacklist, env, sections, s');
      assert rest.bodies == s'.bodies;
    }
  }

  // ---------------------------------------------------------------- request phase: the record

  /** The host hands over the headers of `kind`: its names and each listed name's values. */
  predicate HeadersRead(kind: nat, s: State) {
    HeadersRun(kind, s.headerNames, s.headerValues).result.Ok?
  }

  /** The headers of `kind` as `get_headers` collects them. */
  function ReadHeaders(kind: nat, s: State): map<string, string>
    requires HeadersRead(kind, s)
  {
    HeadersRun(kind, s.headerNames, s.headerValues).result.value
  }

  /**
   * A section's body and headers as `parse_request` and `parse_response` put
   * them: the JSON of the bytes read with every sensitive key masked, and the
   * headers read with every sensitive header masked, under the configured
   * pattern.
   */
  predicate MaskedAs(body: Option<Json.Json>, headers: map<string, string>, settings: Settings, env: PP.Env,
                     readHeaders: map<string, string>, readBody: seq<byte>) {
    var masked := Utils.MaskSensitiveHeaders(readHeaders, settings.sensitiveKeysRegex, env.engine);
    && masked.Ok? && headers == masked.value
    && body == Some(Utils.Masked(Utils.ParseJsonBody(readBody, env.parse), R.Regex(settings.sensitiveKeysRegex, env.engine)))
  }

  /**
   * A request record as the crates build it: the configured credentials,
   * the SDK name, the URI, method and protocol given, the body and headers
   * given with their sensitive parts masked, the language section and no
   * error entry.
   */
  predicate CarriesRequest(rec: TrebllePayload, settings: Settings, env: PP.Env, protocol: string, uri: string,
                           verb: string, headers: map<string, string>, body: seq<byte>) {
    && rec.apiKey == settings.apiKey && rec.projectId == settings.projectId && rec.sdk == PP.SDK
    && rec.data.server.protocol == protocol && rec.data.request.url == uri && rec.data.request.verb == verb
    && MaskedAs(rec.data.request.body, rec.data.request.headers, settings, env, headers, body)
    && rec.data.language.name == "rust" && rec.data.errors == []
  }

  /**
   * With the crates' own builder, the record a request phase dispatches
   * carries the configured credentials, the URI, method, headers and body as
   * read (or as gathered by `stage`), the last two masked, the protocol as
   * read, the language section and no error entry.
   */
  lemma {:induction false} RequestRecordAt(stage: RequestStage, layout: Layout, settings: Settings,
                                           blacklist: Option<RB.RouteBlacklist>, env: PP.Env, language: bool,
                                           s: State, i: nat)
    requires var run := RequestFrom(stage, layout, settings, blacklist, env, Standard(settings, env, language), s);
             i < |run.events| && run.events[i].Dispatch?
    ensures var rec := RequestFrom(stage, layout, settings, blacklist, env, Standard(settings, env, language), s)
                       .events[i].record;
            var k := layout.requestBody;
            && s.protocol.Some?
            && (stage.Begin? || stage.Screening? || stage.Observing? ==> HeadersRead(layout.requestHeaders, s) && k in s.bodies)
            && (stage.Capturing? ==> k in s.bodies)
            && (stage.Begin? ==> s.uri.Some? && s.verb.Some?
                                 && CarriesRequest(rec, settings, env, s.protocol.value, s.uri.value, s.verb.value,
                                                   ReadHeaders(layout.requestHeaders, s), s.bodies[k]))
            && (stage.Screening? ==> s.verb.Some?
                                     && CarriesRequest(rec, settings, env, s.protocol.value, stage.uri, s.verb.value,
                                                       ReadHeaders(layout.requestHeaders, s), s.bodies[k]))
            && (stage.Observing? ==> CarriesRequest(rec, settings, env, s.protocol.value, stage.uri, stage.verb,
                                                    ReadHeaders(layout.requestHeaders, s), s.bodies[k]))
            && (stage.Capturing? ==> CarriesRequest(rec, settings, env, s.protocol.value, stage.uri, stage.verb,
                                                    stage.headers, s.bodies[k]))
            && (stage.Recording? ==> CarriesRequest(rec, settings, env, s.protocol.value, stage.uri, stage.verb,
                                                    stage.headers, stage.body))
    decreases stage.Remaining(), 1
  {
    match stage
    case Begin =>
      BegunRecordAt(layout, settings, blacklist, env, language, s, i);
    case Screening(uri) =>
      ScreenedRecordAt(uri, layout, settings, blacklist, env, language, s, i);
    case Observing(uri, verb) =>
      ObservedRecordAt(uri, verb, layout, settings, blacklist, env, language, s, i);
    case Capturing(uri, verb, headers) =>
      CapturedRequest(uri, verb, headers, layout, settings, blacklist, env, language, s, i);
    case Recording(uri, verb, headers, body) =>
      RecordedRequest(uri, verb, headers, body, layout, settings, blacklist, env, language, s, i);
  }

  /** `RequestRecordAt` from the start: the URI read is the one recorded. */
  lemma {:induction false} BegunRecordAt(layout: Layout, settings: Settings,
      blacklist: Option<RB.RouteBlacklist>, env: PP.Env, language: bool, s: State, i: nat)
    requires var run := RequestFrom(Begin, layout, settings, blacklist, env, Standard(settings, env, language), s);
             i < |run.events| && run.events[i].Dispatch?
    ensures var rec := RequestFrom(Begin, layout, settings, blacklist, env, Standard(settings, env, language), s).events[i].record;
            && s.protocol.Some? && s.uri.Some? && s.verb.Some?
            && HeadersRead(layout.requestHeaders, s) && layout.requestBody in s.bodies
            && CarriesRequest(rec, settings, env, s.protocol.value, s.uri.value, s.verb.value,
                              ReadHeaders(layout.requestHeaders, s), s.bodies[layout.requestBody])
    decreases Begin.Remaining(), 0
  {
    var sections := Standard(settings, env, language);
    var next := Screening(s.uri.value);
    DispatchIn([GetUri], RequestFrom(next, layout, settings, blacklist, env, sections, s), i);
    RequestRecordAt(next, layout, settings, blacklist, env, language, s, i - 1);
  }

  /** `RequestRecordAt` once the URI is in: the method read is the one recorded. */
  lemma {:induction false} ScreenedRecordAt(uri: string, layout: Layout, settings: Settings,
      blacklist: Option<RB.RouteBlacklist>, env: PP.Env, language: bool, s: State, i: nat)
    requires var run := RequestFrom(Screening(uri), layout, settings, blacklist, env, Standard(settings, env, language), s);
             i < |run.events| && run.events[i].Dispatch?
    ensures var rec := RequestFrom(Screening(uri), layout, settings, blacklist, env, Standard(settings, env, language), s).events[i].record;
            && s.protocol.Some? && s.verb.Some?
            && HeadersRead(layout.requestHeaders, s) && layout.requestBody in s.bodies
            && CarriesRequest(rec, settings, env, s.protocol.value, uri, s.verb.value,
                              ReadHeaders(layout.requestHeaders, s), s.bodies[layout.requestBody])
    decreases Screening(uri).Remaining(), 0
  {
    var sections := Standard(settings, env, language);
    var next := Observing(uri, s.verb.value);
    DispatchIn([GetHeaderValues(layout.requestHeaders, PluginConstants.HEADER_CONTENT_TYPE), GetMethod],
               RequestFrom(next, layout, settings, blacklist, env, sections, s), i);
    RequestRecordAt(next, layout, settings, blacklist, env, language, s, i - 2);
  }

  /** `RequestRecordAt` once the method is in: the headers read are the ones recorded, masked. */
  lemma {:induction false} ObservedRecordAt(uri: string, verb: string, layout: Layout, settings: Settings,
      blacklist: Option<RB.RouteBlacklist>, env: PP.Env, language: bool, s: State, i: nat)
    requires var run := RequestFrom(Observing(uri, verb), layout, settings, blacklist, env, Standard(settings, env, language), s);
             i < |run.events| && run.events[i].Dispatch?
    ensures var rec := RequestFrom(Observing(uri, verb), layout, settings, blacklist, env, Standard(settings, env, language), s).events[i].record;
            && s.protocol.Some? && HeadersRead(layout.requestHeaders, s) && layout.requestBody in s.bodies
            && CarriesRequest(rec, settings, env, s.protocol.value, uri, verb,
                              ReadHeaders(layout.requestHeaders, s), s.bodies[layout.requestBody])
    decreases Observing(uri, verb).Remaining(), 0
  {
    var sections := Standard(settings, env, language);
    var h := HeadersRun(layout.requestHeaders, s.headerNames, s.headerValues);
    HeaderEventsQuiet(h);
    var next := Capturing(uri, verb, h.result.value);
    DispatchIn(h.events, RequestFrom(next, layout, settings, blacklist, env, sections, s), i);
    RequestRecordAt(next, layout, settings, blacklist, env, language, s, i - |h.events|);
  }

  /** `RequestRecordAt` once the headers are in: the body read is the one recorded, masked, whatever is written back. */
  lemma CapturedRequest(uri: string, verb: string, headers: map<string, string>, layout: Layout,
                        settings: Settings, blacklist: Option<RB.RouteBlacklist>, env: PP.Env, language: bool,
                        s: State, i: nat)
    requires var run := RequestFrom(Capturing(uri, verb, headers), layout, settings, blacklist, env,
                                    Standard(settings, env, language), s);
             i < |run.events| && run.events[i].Dispatch?
    ensures var rec := RequestFrom(Capturing(uri, verb, headers), layout, settings, blacklist, env,
                                   Standard(settings, env, language), s).events[i].record;
            && s.protocol.Some? && layout.requestBody in s.bodies
            && CarriesRequest(rec, settings, env, s.protocol.value, uri, verb, headers, s.bodies[layout.requestBody])
  {
    var sections := Standard(settings, env, language);
    var k := layout.requestBody;
    var w := WriteBack(layout.writesBack, k, s.bodies[k], s.writeError, s.bodies[k := []]);
    var next := Recording(uri, verb, headers, s.bodies[k]);
    var s' := s.(bodies := w.bodies);
    var e := [ReadBody(k)] + w.events;
    assert NoDispatch(e);
    var rest := RequestFrom(next, layout, settings, blacklist, env, sections, s');
    assert RequestFrom(Capturing(uri, verb, headers), layout, settings, blacklist, env, sections, s) == After(e, rest);
    DispatchIn(e, rest, i);
    RecordedRequest(uri, verb, headers, s.bodies[k], layout, settings, blacklist, env, language, s', i - |e|);
  }

  /** `RequestRecordAt` at the last stage: the record `parse_request` and the updates build. */
  lemma RecordedRequest(uri: string, verb: string, headers: map<string, string>, body: seq<byte>, layout: Layout,
                        settings: Settings, blacklist: Option<RB.RouteBlacklist>, env: PP.Env, language: bool,
                        s: State, i: nat)
    requires var run := RequestFrom(Recording(uri, verb, headers, body), layout, settings, blacklist, env,
                                    Standard(settings, env, language), s);
             i < |run.events| && run.events[i].Dispatch?
    ensures var rec := RequestFrom(Recording(uri, verb, headers, body), layout, settings, blacklist, env,
                                   Standard(settings, env, language), s).events[i].record;
            s.protocol.Some? && CarriesRequest(rec, settings, env, s.protocol.value, uri, verb, headers, body)
  {
    var sections := Standard(settings, env, language);
    var request := Utils.ParseRequest(verb, uri, headers, body, settings.sensitiveKeysRegex,
                                      env.engine, env.parse, env.timestamp);
    assert sections.request(verb, uri, headers, body) == request;
    var rec := RequestRecord(settings, env, request.value, s.protocol.value);
    assert sections.requestRecord(request.value, s.protocol.value) == rec;
    assert RequestFrom(Recording(uri, verb, headers, body), layout, settings, blacklist, env, sections, s).events
           == [GetProtocol, Dispatch(rec)];
  }

  // ---------------------------------------------------------------- response phase

  /** Unless responses are buffered, the response phase asks the host nothing and succeeds. */
  lemma ResponseUnbufferedDoesNothing(layout: Layout, settings: Settings, env: PP.Env, sections: Sections,
                                      isError: int, s: State)
    requires !settings.bufferResponse
    ensures ResponseRun(layout, settings, env, sections, isError, s) == Run([], Returned(Ok(Unit)), s.bodies)
  {
  }

  /**
   * The response phase never asks for the URI or the method, and what it does
   * does not depend on them: neither the blacklist nor the request's
   * decision is consulted.
   */
  lemma {:induction false} ResponseIgnoresRequestLine(stage: ResponseStage, layout: Layout, settings: Settings,
                                                      env: PP.Env, sections: Sections, isError: int, s: State,
                                                      uri: Option<string>, verb: Option<string>)
    ensures ResponseFrom(stage, layout, settings, env, sections, isError, s)
            == ResponseFrom(stage, layout, settings, env, sections, isError, s.(uri := uri, verb := verb))
    ensures var events := ResponseFrom(stage, layout, settings, env, sections, isError, s).events;
            forall i :: 0 <= i < |events| ==> !events[i].GetUri? && !events[i].GetMethod?
    decreases stage.Remaining()
  {
    var t := s.(uri := uri, verb := verb);
    match stage
    case Start =>
      var h := HeadersRun(layout.responseHeaders, s.headerNames, s.headerValues);
      if settings.bufferResponse && h.result.Ok? {
        var next := Reading(h.result.value);
        ResponseIgnoresRequestLine(next, layout, settings, env, sections, isError, s, uri, verb);
        var rest := ResponseFrom(next, layout, settings, env, sections, isError, s);
        var all := After(h.events, rest).events;
        forall i | 0 <= i < |all| ensures !all[i].GetUri? && !all[i].GetMethod? {
          if i >= |h.events| {
            assert all[i] == rest.events[i - |h.events|];
          }
        }
      }
    case Reading(headers) =>
      var k := layout.responseBody;
      if k in s.bodies {
        var w := WriteBack(layout.writesBack, k, s.bodies[k], s.writeError, s.bodies[k := []]);
        if w.error.None? {
          var next := Reporting(headers, s.bodies[k]);
          var s' := s.(bodies := w.bodies);
          ResponseIgnoresRequestLine(next, layout, settings, env, sections, isError, s', uri, verb);
          assert t.(bodies := w.bodies) == s'.(uri := uri, verb := verb);
        }
      }
    case Reporting(_, _) =>
  }

  /** The response phase dispatches at most one record, as its last host call. */
  lemma {:induction false} ResponseDispatchLast(stage: ResponseStage, layout: Layout, settings: Settings,
                                                env: PP.Env, sections: Sections, isError: int, s: State)
    ensures DispatchLast(ResponseFrom(stage, layout, settings, env, sections, isError, s).events)
    decreases stage.Remaining()
  {
    match stage
    case Start =>
      var h := HeadersRun(layout.responseHeaders, s.headerNames, s.headerValues);
      HeaderEventsQuiet(h);
      if settings.bufferResponse && h.result.Ok? {
        var next := Reading(h.result.value);
        ResponseDispatchLast(next, layout, settings, env, sections, isError, s);
        AfterDispatchLast(h.events, ResponseFrom(next, layout, settings, env, sections, isError, s));
      }
    case Reading(headers) =>
      var k := layout.responseBody;
      if k in s.bodies {
        var w := WriteBack(layout.writesBack, k, s.bodies[k], s.writeError, s.bodies[k := []]);
        if w.error.None? {
          var next := Reporting(headers, s.bodies[k]);
          var s' := s.(bodies := w.bodies);
          ResponseDispatchLast(next, layout, settings, env, sections, isError, s');
          AfterDispatchLast([ReadBody(k), GetStatus] + w.events,
                            ResponseFrom(next, layout, settings, env, sections, isError, s'));
        }
      }
    case Reporting(_, _) =>
  }

  /**
   * The only body the response phase writes is the response body, with
   * exactly the bytes the host held for it, and only in a layout that writes
   * back; a body the host cannot hand over stops the phase before anything
   * is written or sent.
   */
  lemma {:induction false} ResponseWritesBackWhatItRead(stage: ResponseStage, layout: Layout, settings: Settings,
                                                        env: PP.Env, sections: Sections, isError: int, s: State)
    requires !stage.Reporting?
    ensures var events := ResponseFrom(stage, layout, settings, env, sections, isError, s).events;
            var k := layout.responseBody;
            && (k in s.bodies ==> WritesOnly(events, k, s.bodies[k]))
            && (!layout.writesBack ==> NoWrite(events))
            && (k !in s.bodies ==> NoWrite(events) && NoDispatch(events))
    decreases stage.Remaining()
  {
    var k := layout.responseBody;
    match stage
    case Start =>
      var h := HeadersRun(layout.responseHeaders, s.headerNames, s.headerValues);
      HeaderEventsQuiet(h);
      if settings.bufferResponse && h.result.Ok? {
        var next := Reading(h.result.value);
        ResponseWritesBackWhatItRead(next, layout, settings, env, sections, isError, s);
        var rest := ResponseFrom(next, layout, settings, env, sections, isError, s);
        if k in s.bodies {
          AfterWritesOnly(h.events, rest, k, s.bodies[k]);
        }
      }
    case Reading(headers) =>
      if k in s.bodies {
        var w := WriteBack(layout.writesBack, k, s.bodies[k], s.writeError, s.bodies[k := []]);
        if w.error.None? {
          var next := Reporting(headers, s.bodies[k]);
          var rest := ResponseFrom(next, layout, settings, env, sections, isError, s.(bodies := w.bodies));
          assert NoWrite(rest.events);
          AfterWritesOnly([ReadBody(k), GetStatus] + w.events, rest, k, s.bodies[k]);
        }
      }
  }

  /**
   * A response record as the crates build it: the configured credentials,
   * the SDK name, the status and protocol given, the body and headers given
   * with their sensitive parts masked, no request section, a language
   * section only where the layout adds one, and one error entry, for that
   * status, exactly when the host flagged an error or the status is 400 or
   * more.
   */
  predicate CarriesResponse(rec: TrebllePayload, settings: Settings, env: PP.Env, language: bool, isError: int,
                            status: u32, protocol: string, headers: map<string, string>, body: seq<byte>) {
    && rec.apiKey == settings.apiKey && rec.projectId == settings.projectId && rec.sdk == PP.SDK
    && rec.data.server.protocol == protocol && rec.data.response.code == status
    && rec.data.response.size == |body|
    && MaskedAs(rec.data.response.body, rec.data.response.headers, settings, env, headers, body)
    && rec.data.request == DefaultRequestInfo
    && (rec.data.errors == [] <==> isError == 0 && status < 400)
    && (rec.data.errors != [] ==> rec.data.errors == [CreateErrorInfo(status)])
    && (language ==> rec.data.language.name == "rust")
    && (!language ==> rec.data.language == DefaultLanguageInfo)
  }

  /**
   * With the crates' own builder, the record a response phase dispatches
   * carries the configured credentials, the status, protocol, headers and
   * body read (or as gathered by `stage`), the last two masked, and no
   * request section, and it holds one error entry, for that status, exactly
   * when the host flagged an error or the status is 400 or more.
   */
  lemma {:induction false} ResponseRecordAt(stage: ResponseStage, layout: Layout, settings: Settings, env: PP.Env,
                                            isError: int, s: State, i: nat)
    requires var run := ResponseFrom(stage, layout, settings, env, Standard(settings, env, layout.languageOnResponse),
                                     isError, s);
             i < |run.events| && run.events[i].Dispatch?
    ensures var rec := ResponseFrom(stage, layout, settings, env, Standard(settings, env, layout.languageOnResponse),
                                    isError, s).events[i].record;
            var k := layout.responseBody;
            var language := layout.languageOnResponse;
            && s.protocol.Some?
            && (stage.Start? ==> HeadersRead(layout.responseHeaders, s) && k in s.bodies
                                 && CarriesResponse(rec, settings, env, language, isError, s.status, s.protocol.value,
                                                    ReadHeaders(layout.responseHeaders, s), s.bodies[k]))
            && (stage.Reading? ==> k in s.bodies
                                   && CarriesResponse(rec, settings, env, language, isError, s.status, s.protocol.value,
                                                      stage.headers, s.bodies[k]))
            && (stage.Reporting? ==> CarriesResponse(rec, settings, env, language, isError, s.status, s.protocol.value,
                                                     stage.headers, stage.body))
    decreases stage.Remaining()
  {
    var sections := Standard(settings, env, layout.languageOnResponse);
    match stage
    case Start =>
      var h := HeadersRun(layout.responseHeaders, s.headerNames, s.headerValues);
      HeaderEventsQuiet(h);
      var next := Reading(h.result.value);
      DispatchIn(h.events, ResponseFrom(next, layout, settings, env, sections, isError, s), i);
      ResponseRecordAt(next, layout, settings, env, isError, s, i - |h.events|);
    case Reading(headers) =>
      var k := layout.responseBody;
      var w := WriteBack(layout.writesBack, k, s.bodies[k], s.writeError, s.bodies[k := []]);
      var next := Reporting(headers, s.bodies[k]);
      var s' := s.(bodies := w.bodies);
      var e := [ReadBody(k), GetStatus] + w.events;
      assert NoDispatch(e);
      DispatchIn(e, ResponseFrom(next, layout, settings, env, sections, isError, s'), i);
      ResponseRecordAt(next, layout, settings, env, isError, s', i - |e|);
    case Reporting(_, _) =>
      ReportedResponse(stage, layout, settings, env, isError, s, i);
  }

  /** `ResponseRecordAt` at the last stage: the record `parse_response` and the updates build. */
  lemma ReportedResponse(stage: ResponseStage, layout: Layout, settings: Settings, env: PP.Env,
                         isError: int, s: State, i: nat)
    requires stage.Reporting?
    requires var run := ResponseFrom(stage, layout, settings, env, Standard(settings, env, layout.languageOnResponse),
                                     isError, s);
             i < |run.events| && run.events[i].Dispatch?
    ensures var rec := ResponseFrom(stage, layout, settings, env, Standard(settings, env, layout.languageOnResponse),
                                    isError, s).events[i].record;
            s.protocol.Some? && CarriesResponse(rec, settings, env, layout.languageOnResponse, isError, s.status,
                                                s.protocol.value, stage.headers, stage.body)
  {
    var response := Utils.ParseResponse(s.status, stage.headers, stage.body, env.loadTime, settings.sensitiveKeysRegex,
                                        env.engine, env.parse);
    assert Standard(settings, env, layout.languageOnResponse).response(s.status, stage.headers, stage.body) == response;
  }

  /**
   * The response phase leaves the host's bodies as they were, or with the
   * response body consumed; a layout that writes back and a host that
   * accepts the write always leave them as they were.
   */
  lemma {:induction false} ResponseBodiesAfter(stage: ResponseStage, layout: Layout, settings: Settings, env: PP.Env,
                                               sections: Sections, isError: int, s: State)
    requires !stage.Reporting?
    ensures var run := ResponseFrom(stage, layout, settings, env, sections, isError, s);
            var k := layout.responseBody;
            && (run.bodies == s.bodies || (k in s.bodies && run.bodies == s.bodies[k := []]))
            && (layout.writesBack && s.writeError.None? ==> run.bodies == s.bodies)
    decreases stage.Remaining()
  {
    var k := layout.responseBody;
    match stage
    case Start =>
      var h := HeadersRun(layout.responseHeaders, s.headerNames, s.headerValues);
      if settings.bufferResponse && h.result.Ok? {
        ResponseBodiesAfter(Reading(h.result.value), layout, settings, env, sections, isError, s);
      }
    case Reading(_) =>
      if k in s.bodies && layout.writesBack && s.writeError.None? {
        assert s.bodies[k := []][k := s.bodies[k]] == s.bodies;
      }
  }

  // ---------------------------------------------------------------- no collector URL

  /**
   * With no collector URL configured, the request phase never posts: where it
   * would, `get_next_url` panics, so no failure is ever a failed post.
   */
  lemma {:induction false} RequestWithoutUrlsNeverPosts(stage: RequestStage, layout: Layout, settings: Settings,
                                                        blacklist: Option<RB.RouteBlacklist>, env: PP.Env,
                                                        sections: Sections, s: State)
    requires settings.apiUrls == []
    ensures var run := RequestFrom(stage, layout, settings, blacklist, env, sections, s);
            NoDispatch(run.events) && (run.outcome.Returned? && run.outcome.value.Err? ==> run.outcome.value.error.HostCall?)
    decreases stage.Remaining()
  {
    match stage
    case Begin =>
      if s.uri.Some? && blacklist.Some? && !RB.IsBlacklisted(blacklist.value, s.uri.value) {
        RequestWithoutUrlsNeverPosts(Screening(s.uri.value), layout, settings, blacklist, env, sections, s);
      }
    case Screening(uri) =>
      var ct := (layout.requestHeaders, PluginConstants.HEADER_CONTENT_TYPE);
      if ct in s.headerValues && Utils.IsJson(s.headerValues[ct]) && s.verb.Some? {
        RequestWithoutUrlsNeverPosts(Observing(uri, s.verb.value), layout, settings, blacklist, env, sections, s);
      }
    case Observing(uri, verb) =>
      var h := HeadersRun(layout.requestHeaders, s.headerNames, s.headerValues);
      HeaderEventsQuiet(h);
      if h.result.Ok? {
        RequestWithoutUrlsNeverPosts(Capturing(uri, verb, h.result.value), layout, settings, blacklist, env, sections, s);
      }
    case Capturing(uri, verb, headers) =>
      var k := layout.requestBody;
      if k in s.bodies {
        var w := WriteBack(layout.writesBack, k, s.bodies[k], s.writeError, s.bodies[k := []]);
        assert NoDispatch([ReadBody(k)] + w.events);
        if w.error.None? {
          RequestWithoutUrlsNeverPosts(Recording(uri, verb, headers, s.bodies[k]), layout, settings, blacklist, env,
                                       sections, s.(bodies := w.bodies));
        }
      }
    case Recording(_, _, _, _) =>
  }

  /**
   * With no collector URL configured, the response phase never posts either,
   * and none of its failures is a failed post.
   */
  lemma {:induction false} ResponseWithoutUrlsNeverPosts(stage: ResponseStage, layout: Layout, settings: Settings,
                                                         env: PP.Env, sections: Sections, isError: int, s: State)
    requires settings.apiUrls == []
    ensures var run := ResponseFrom(stage, layout, settings, env, sections, isError, s);
            NoDispatch(run.events) && (run.outcome.Returned? && run.outcome.value.Err? ==> run.outcome.value.error.HostCall?)
    decreases stage.Remaining()
  {
    match stage
    case Start =>
      var h := HeadersRun(layout.responseHeaders, s.headerNames, s.headerValues);
      HeaderEventsQuiet(h);
      if settings.bufferResponse && h.result.Ok? {
        ResponseWithoutUrlsNeverPosts(Reading(h.result.value), layout, settings, env, sections, isError, s);
      }
    case Reading(headers) =>
      var k := layout.responseBody;
      if k in s.bodies {
        var w := WriteBack(layout.writesBack, k, s.bodies[k], s.writeError, s.bodies[k := []]);
        assert NoDispatch([ReadBody(k), GetStatus] + w.events);
        if w.error.None? {
          ResponseWithoutUrlsNeverPosts(Reporting(headers, s.bodies[k]), layout, settings, env, sections, isError,
                                        s.(bodies := w.bodies));
        }
      }
    case Reporting(_, _) =>
  }

  // ---------------------------------------------------------------- header and body kinds

  /** A host call about headers names the kind `headers`; one about a body names the kind `body`. */
  predicate KindIs(e: Event, headers: nat, body: nat) {
    && ((e.GetHeaderNames? || e.GetHeaderValues?) ==> e.kind == headers)
    && ((e.ReadBody? || e.WriteBody?) ==> e.kind == body)
  }

  predicate KindsAre(events: seq<Event>, headers: nat, body: nat) {
    forall i :: 0 <= i < |events| ==> KindIs(events[i], headers, body)
  }

  lemma AfterKinds(events: seq<Event>, rest: Run, headers: nat, body: nat)
    requires KindsAre(events, headers, body) && KindsAre(rest.events, headers, body)
    ensures KindsAre(After(events, rest).events, headers, body)
  {
    var all := After(events, rest).events;
    forall i | 0 <= i < |all| ensures KindIs(all[i], headers, body) {
      if i < |events| {
        assert all[i] == events[i];
      } else {
        assert all[i] == rest.events[i - |events|];
      }
    }
  }

  /**
   * Every header call of the request phase names the layout's request header
   * kind, and every body call its request body kind.
   */
  lemma {:induction false} RequestKinds(stage: RequestStage, layout: Layout, settings: Settings,
                                        blacklist: Option<RB.RouteBlacklist>, env: PP.Env, sections: Sections, s: State)
    ensures KindsAre(RequestFrom(stage, layout, settings, blacklist, env, sections, s).events,
                     layout.requestHeaders, layout.requestBody)
    decreases stage.Remaining(), 1
  {
    match stage
    case Begin =>
      BegunKinds(layout, settings, blacklist, env, sections, s);
    case Screening(uri) =>
      ScreenedKinds(uri, layout, settings, blacklist, env, sections, s);
    case Observing(uri, verb) =>
      ObservedKinds(uri, verb, layout, settings, blacklist, env, sections, s);
    case Capturing(uri, verb, headers) =>
      CapturedKinds(uri, verb, headers, layout, settings, blacklist, env, sections, s);
    case Recording(_, _, _, _) =>
  }

  /** `RequestKinds` from the start. */
  lemma {:induction false} BegunKinds(layout: Layout, settings: Settings,
      blacklist: Option<RB.RouteBlacklist>, env: PP.Env, sections: Sections, s: State)
    ensures KindsAre(RequestFrom(Begin, layout, settings, blacklist, env, sections, s).events, layout.requestHeaders, layout.requestBody)
    decreases Begin.Remaining(), 0
  {
    var kh, kb := layout.requestHeaders, layout.requestBody;
    if s.uri.Some? && blacklist.Some? && !RB.IsBlacklisted(blacklist.value, s.uri.value) {
      var next := Screening(s.uri.value);
      RequestKinds(next, layout, settings, blacklist, env, sections, s);
      AfterKinds([GetUri], RequestFrom(next, layout, settings, blacklist, env, sections, s), kh, kb);
    }
  }

  /** `RequestKinds` once the URI is in: the content type is asked of the request headers. */
  lemma {:induction false} ScreenedKinds(uri: string, layout: Layout, settings: Settings,
      blacklist: Option<RB.RouteBlacklist>, env: PP.Env, sections: Sections, s: State)
    ensures KindsAre(RequestFrom(Screening(uri), layout, settings, blacklist, env, sections, s).events, layout.requestHeaders, layout.requestBody)
    decreases Screening(uri).Remaining(), 0
  {
    var kh, kb := layout.requestHeaders, layout.requestBody;
    var ct := (kh, PluginConstants.HEADER_CONTENT_TYPE);
    if ct in s.headerValues && Utils.IsJson(s.headerValues[ct]) && s.verb.Some? {
      var next := Observing(uri, s.verb.value);
      RequestKinds(next, layout, settings, blacklist, env, sections, s);
      AfterKinds([GetHeaderValues(ct.0, ct.1), GetMethod], RequestFrom(next, layout, settings, blacklist, env, sections, s), kh, kb);
    }
  }

  /** `RequestKinds` once the method is in: the headers are read from the request kind. */
  lemma {:induction false} ObservedKinds(uri: string, verb: string, layout: Layout, settings: Settings,
      blacklist: Option<RB.RouteBlacklist>, env: PP.Env, sections: Sections, s: State)
    ensures KindsAre(RequestFrom(Observing(uri, verb), layout, settings, blacklist, env, sections, s).events, layout.requestHeaders, layout.requestBody)
    decreases Observing(uri, verb).Remaining(), 0
  {
    var kh, kb := layout.requestHeaders, layout.requestBody;
    var h := HeadersRun(kh, s.headerNames, s.headerValues);
    if h.result.Ok? {
      var next := Capturing(uri, verb, h.result.value);
      RequestKinds(next, layout, settings, blacklist, env, sections, s);
      AfterKinds(h.events, RequestFrom(next, layout, settings, blacklist, env, sections, s), kh, kb);
    }
  }

  /** `RequestKinds` once the headers are in: the body is read, and written back, at the body kind. */
  lemma {:induction false} CapturedKinds(uri: string, verb: string, headers: map<string, string>, layout: Layout, settings: Settings,
      blacklist: Option<RB.RouteBlacklist>, env: PP.Env, sections: Sections, s: State)
    ensures KindsAre(RequestFrom(Capturing(uri, verb, headers), layout, settings, blacklist, env, sections, s).events, layout.requestHeaders, layout.requestBody)
    decreases Capturing(uri, verb, headers).Remaining(), 0
  {
    var kh, kb := layout.requestHeaders, layout.requestBody;
    if kb in s.bodies {
      var w := WriteBack(layout.writesBack, kb, s.bodies[kb], s.writeError, s.bodies[kb := []]);
      if w.error.None? {
        var rest := RequestFrom(Recording(uri, verb, headers, s.bodies[kb]), layout, settings, blacklist, env,
                                sections, s.(bodies := w.bodies));
        assert KindsAre(rest.events, kh, kb);
        AfterKinds([ReadBody(kb)] + w.events, rest, kh, kb);
      }
    }
  }

  /**
   * Every header call of the response phase names the layout's response
   * header kind, and every body call its response body kind.
   */
  lemma {:induction false} ResponseKinds(stage: ResponseStage, layout: Layout, settings: Settings, env: PP.Env,
                                         sections: Sections, isError: int, s: State)
    ensures KindsAre(ResponseFrom(stage, layout, settings, env, sections, isError, s).events,
                     layout.responseHeaders, layout.responseBody)
    decreases stage.Remaining()
  {
    var kh, kb := layout.responseHeaders, layout.responseBody;
    match stage
    case Start =>
      var h := HeadersRun(kh, s.headerNames, s.headerValues);
      if settings.bufferResponse && h.result.Ok? {
        var next := Reading(h.result.value);
        ResponseKinds(next, layout, settings, env, sections, isError, s);
        AfterKinds(h.events, ResponseFrom(next, layout, settings, env, sections, isError, s), kh, kb);
      }
    case Reading(headers) =>
      if kb in s.bodies {
        var w := WriteBack(layout.writesBack, kb, s.bodies[kb], s.writeError, s.bodies[kb := []]);
        if w.error.None? {
          var rest := ResponseFrom(Reporting(headers, s.bodies[kb]), layout, settings, env, sections, isError,
                                   s.(bodies := w.bodies));
          assert KindsAre(rest.events, kh, kb);
          AfterKinds([ReadBody(kb), GetStatus] + w.events, rest, kh, kb);
        }
      }
    case Reporting(_, _) =>
  }
}
