/**
 * The request and response phases the crates' `HttpHandler`s run against the
 * host (treblle-wasm-plugin/src/http_handler.rs, rust-http-wasm/src/http_handler.rs
 * and the inline handler of rust-http-wasm/src/lib.rs). The three share one
 * control flow and differ in which header and body kinds they ask for, in
 * whether they write bodies back, and in whether the response record gets a
 * language section; a `Layout` names those choices.
 *
 * Each phase is specified by a function of the host's state (`RequestRun`,
 * `ResponseRun`) giving the host calls made, the outcome and the host's state
 * afterwards; the methods are proved to do exactly that.
 */
module HandlerFlow {
  import opened Wrappers
  import opened Text
  import opened Schema
  import opened Host
  import RB = RouteBlacklist
  import PP = PluginPayload
  import Utils
  import PluginConstants
  import HttpWasmError
  import UrlRotation

  datatype Layout = Layout(
    requestHeaders: nat,
    requestBody: nat,
    responseHeaders: nat,
    responseBody: nat,
    writesBack: bool,
    languageOnResponse: bool)

  /** The parts of `CONFIG` the handlers read. */
  datatype Settings = Settings(apiKey: string, projectId: string, sensitiveKeysRegex: string, bufferResponse: bool,
                               apiUrls: seq<string>)

  /**
   * How a phase turns what it gathered from the host into the record it
   * dispatches: the request or response section (`parse_request`,
   * `parse_response`; an error there is the panic of `expect`), then the whole
   * record once the protocol is known. `Standard` is what both crates build;
   * the flow below takes the builder as a parameter so that its proofs do
   * not depend on the record's contents, which lemmas state separately.
   */
  datatype Sections = Sections(
    request: (string, string, map<string, string>, seq<byte>) -> Result<RequestInfo, HttpWasmError.TreblleError>,
    response: (u32, map<string, string>, seq<byte>) -> Result<ResponseInfo, HttpWasmError.TreblleError>,
    requestRecord: (RequestInfo, string) -> TrebllePayload,
    responseRecord: (ResponseInfo, u32, int, string) -> TrebllePayload)

  /**
   * The builder of both crates: `utils::parse_request` / `utils::parse_response`
   * with the configured pattern, and the records of `RequestRecord` /
   * `ResponseRecord`; `language` says whether the response record gets a
   * language section.
   */
  function Standard(settings: Settings, env: PP.Env, language: bool): Sections {
    Sections(
      (verb, uri, headers, body) =>
        Utils.ParseRequest(verb, uri, headers, body, settings.sensitiveKeysRegex, env.engine, env.parse, env.timestamp),
      (status: u32, headers, body) =>
        Utils.ParseResponse(status, headers, body, env.loadTime, settings.sensitiveKeysRegex, env.engine, env.parse),
      (request, protocol) => RequestRecord(settings, env, request, protocol),
      (response, status: u32, isError, protocol) =>
        ResponseRecord(settings, env, language, isError, status, response, protocol))
  }

  /** `sections` builds what the request phase's `Payload` calls build. */
  ghost predicate BuildsRequest(sections: Sections, settings: Settings, env: PP.Env) {
    && (forall verb, uri, headers, body
          {:trigger Utils.ParseRequest(verb, uri, headers, body, settings.sensitiveKeysRegex, env.engine, env.parse, env.timestamp)}
          :: sections.request(verb, uri, headers, body)
             == Utils.ParseRequest(verb, uri, headers, body, settings.sensitiveKeysRegex, env.engine, env.parse, env.timestamp))
    && (forall request, protocol {:trigger RequestRecord(settings, env, request, protocol)}
          :: sections.requestRecord(request, protocol) == RequestRecord(settings, env, request, protocol))
  }

  /** `sections` builds what the response phase's `Payload` calls build. */
  ghost predicate BuildsResponse(sections: Sections, settings: Settings, env: PP.Env, language: bool) {
    && (forall status, headers, body
          {:trigger Utils.ParseResponse(status, headers, body, env.loadTime, settings.sensitiveKeysRegex, env.engine, env.parse)}
          :: sections.response(status, headers, body)
             == Utils.ParseResponse(status, headers, body, env.loadTime, settings.sensitiveKeysRegex, env.engine, env.parse))
    && (forall response, status, isError, protocol
          {:trigger ResponseRecord(settings, env, language, isError, status, response, protocol)}
          :: sections.responseRecord(response, status, isError, protocol)
             == ResponseRecord(settings, env, language, isError, status, response, protocol))
  }

  lemma StandardBuilds(settings: Settings, env: PP.Env, language: bool)
    ensures BuildsRequest(Standard(settings, env, language), settings, env)
    ensures BuildsResponse(Standard(settings, env, language), settings, env, language)
  {
  }

  /** The host calls a phase can fail at. */
  datatype Step = Uri | ContentType | Method | HeaderNames | Body | Write | Protocol

  /** Why a phase gave up: a host call failed at a step, or the collector post failed. */
  datatype Failure = HostCall(step: Step, message: string) | SendFailed(message: string)

  /**
   * A phase run: the host calls made, how it ended, and the host's bodies
   * afterwards (nothing else of the host changes).
   */
  datatype Run = Run(events: seq<Event>, outcome: Outcome<Result<Unit, Failure>>, bodies: map<nat, seq<byte>>)

  function Stop(events: seq<Event>, f: Failure, bodies: map<nat, seq<byte>>): Run {
    Run(events, Returned(Err(f)), bodies)
  }

  function Skip(events: seq<Event>, bodies: map<nat, seq<byte>>): Run {
    Run(events, Returned(Ok(Unit)), bodies)
  }

  /** A run that begins with `events` and then does what `rest` does. */
  function After(events: seq<Event>, rest: Run): Run {
    Run(events + rest.events, rest.outcome, rest.bodies)
  }

  /** A trace `t` followed by `After(events, rest)` is `t`, then `events`, then `rest`. */
  lemma Extend(t: seq<Event>, events: seq<Event>, rest: Run)
    ensures t + After(events, rest).events == t + events + rest.events
  {
  }

  // ---------------------------------------------------------------- headers

  /** The header names the host lists, split at commas, empty pieces dropped. */
  function HeaderNameList(names: string): seq<string> {
    NonEmpty(Split(names, ','))
  }

  /**
   * The map `get_headers` builds from the names in order: every name whose
   * values the host hands over, with those values.
   */
  function CollectHeaders(kind: nat, names: seq<string>, values: map<(nat, string), string>): (r: map<string, string>)
    ensures forall n :: n in r <==> n in names && (kind, n) in values
    ensures forall n :: n in r ==> r[n] == values[(kind, n)]
    decreases |names|
  {
    if names == [] then map[]
    else
      var last := names[|names| - 1];
      var acc := CollectHeaders(kind, names[..|names| - 1], values);
      assert forall n :: n in names <==> n in names[..|names| - 1] || n == last;
      if (kind, last) in values then acc[last := values[(kind, last)]] else acc
  }

  /** The values calls `get_headers` makes, one per listed name, in order. */
  function ValueEvents(kind: nat, names: seq<string>): (r: seq<Event>)
    ensures |r| == |names|
    ensures forall i :: 0 <= i < |r| ==> r[i] == GetHeaderValues(kind, names[i])
    decreases |names|
  {
    if names == [] then []
    else ValueEvents(kind, names[..|names| - 1]) + [GetHeaderValues(kind, names[|names| - 1])]
  }

  datatype Headers = Headers(events: seq<Event>, result: Result<map<string, string>, Failure>)

  /** `get_headers(kind)`: one names call, then one values call per listed name. */
  function HeadersRun(kind: nat, headerNames: map<nat, string>, headerValues: map<(nat, string), string>): (h: Headers)
    ensures h.events != [] && h.events[0] == GetHeaderNames(kind)
    ensures forall i :: 0 < i < |h.events| ==> h.events[i].GetHeaderValues? && h.events[i].kind == kind
  {
    if kind !in headerNames then Headers([GetHeaderNames(kind)], Err(HostCall(HeaderNames, READ_FAILED)))
    else
      var names := HeaderNameList(headerNames[kind]);
      Headers([GetHeaderNames(kind)] + ValueEvents(kind, names), Ok(CollectHeaders(kind, names, headerValues)))
  }

  method GetHeaders(host: Host, kind: nat) returns (r: Result<map<string, string>, Failure>)
    modifies host`trace
    ensures var h := HeadersRun(kind, host.headerNames, host.headerValues);
            host.trace == old(host.trace) + h.events && r == h.result
  {
    var listed := host.GetHeaderNamesCall(kind);
    if listed.Err? {
      return Err(HostCall(HeaderNames, listed.error));
    }
    var headers := CollectValues(host, kind, HeaderNameList(listed.value));
    r := Ok(headers);
  }

  /** The loop of `get_headers`: asks for each name's values and keeps those the host has. */
  method CollectValues(host: Host, kind: nat, names: seq<string>) returns (headers: map<string, string>)
    modifies host`trace
    ensures headers == CollectHeaders(kind, names, host.headerValues)
    ensures host.trace == old(host.trace) + ValueEvents(kind, names)
  {
    headers := map[];
    var i := 0;
    while i < |names|
      invariant 0 <= i <= |names|
      invariant headers == CollectHeaders(kind, names[..i], host.headerValues)
      invariant host.trace == old(host.trace) + ValueEvents(kind, names[..i])
    {
      var values := host.GetHeaderValuesCall(kind, names[i]);
      if values.Ok? {
        headers := headers[names[i] := values.value];
      }
      assert names[..i + 1][..i] == names[..i];
      assert ValueEvents(kind, names[..i + 1]) == ValueEvents(kind, names[..i]) + [GetHeaderValues(kind, names[i])];
      assert headers == CollectHeaders(kind, names[..i + 1], host.headerValues);
      i := i + 1;
    }
    assert names[..|names|] == names;
  }

  // ---------------------------------------------------------------- shared steps

  datatype Written = Written(events: seq<Event>, error: Option<string>, bodies: map<nat, seq<byte>>)

  /** Writing the body back, if the layout does: the host keeps the bytes unless it refuses them. */
  function WriteBack(on: bool, kind: nat, body: seq<byte>, writeError: Option<string>, bodies: map<nat, seq<byte>>)
    : (w: Written)
    ensures !on ==> w == Written([], None, bodies)
    ensures on ==> w.events == [WriteBody(kind, body)] && w.error == writeError
    ensures on && writeError.None? ==> w.bodies == bodies[kind := body]
    ensures on && writeError.Some? ==> w.bodies == bodies
  {
    if !on then Written([], None, bodies)
    else if writeError.Some? then Written([WriteBody(kind, body)], writeError, bodies)
    else Written([WriteBody(kind, body)], None, bodies[kind := body])
  }

  /** `write_body`, when the layout writes bodies back; the refusal, if the host refuses. */
  method WriteBackCall(host: Host, on: bool, kind: nat, body: seq<byte>) returns (refused: Option<string>)
    modifies host`trace, host`bodies
    ensures var w := WriteBack(on, kind, body, host.writeError, old(host.bodies));
            host.trace == old(host.trace) + w.events && host.bodies == w.bodies && refused == w.error
  {
    refused := None;
    if on {
      var written := host.WriteBody(kind, body);
      if written.Err? {
        refused := Some(written.error);
      }
    }
  }

  /**
   * `send_to_treblle`: one post of the record to the next configured URL; a
   * failed post becomes `SendFailed`. With no URL configured, the client's
   * `get_next_url` panics on its `% 0` before anything is posted.
   */
  function Send(urls: seq<string>, collector: Result<Unit, string>, record: TrebllePayload,
                bodies: map<nat, seq<byte>>): (r: Run)
    ensures r.bodies == bodies
    ensures urls == [] ==> r.events == [] && r.outcome == Panicked(UrlRotation.REMAINDER_BY_ZERO)
    ensures urls != [] ==> r.events == [Dispatch(record)]
    ensures urls != [] ==> r.outcome == if collector.Ok? then Returned(Ok(Unit)) else Returned(Err(SendFailed(collector.error)))
  {
    if urls == [] then Run([], Panicked(UrlRotation.REMAINDER_BY_ZERO), bodies)
    else Run([Dispatch(record)], if collector.Ok? then Returned(Ok(Unit)) else Returned(Err(SendFailed(collector.error))), bodies)
  }

  /** The message of the error entry for a failed response. */
  function StatusMessage(status: u32): string {
    "HTTP status code: " + NatToString(status)
  }

  /** `create_error_info(status)`: the error entry for a failed response. */
  function CreateErrorInfo(status: u32): (e: ErrorInfo)
    ensures e.source == "response" && e.errorType == "HTTP Error"
    ensures e.file == "" && e.line == 0
  {
    ErrorInfo("response", "HTTP Error", StatusMessage(status), "", 0)
  }

  /**
   * The entry's message is the fixed text followed by the status in decimal,
   * from which the status can be read back.
   */
  lemma {:induction false} ErrorMessageNamesStatus(status: u32)
    ensures var m := CreateErrorInfo(status).message;
            |m| > 18 && m[..18] == "HTTP status code: " && AllDigits(m[18..]) && ParseDigits(m[18..]) == status
  {
    var m := CreateErrorInfo(status).message;
    assert m[18..] == NatToString(status);
    ParseNatToString(status);
  }

  /** The example of the source's test: status 404. */
  lemma ErrorInfo404()
    ensures CreateErrorInfo(404) == ErrorInfo("response", "HTTP Error", "HTTP status code: 404", "", 0)
  {
    assert NatToString(404) == "404" by {
      assert NatToString(40) == "40" by { assert NatToString(4) == "4"; }
    }
  }

  // ---------------------------------------------------------------- records

  /** The record a request run dispatches. */
  function RequestRecord(settings: Settings, env: PP.Env, request: RequestInfo, protocol: string): TrebllePayload {
    var p := PP.Initial(settings.apiKey, settings.projectId);
    p.(data := p.data.(request := request, language := PP.LanguageSection(env),
                       server := PP.ServerSection(protocol, env)))
  }

  /** The response record carries an error entry exactly for a failed response. */
  predicate IsFailedResponse(isError: int, status: u32) {
    isError != 0 || status >= 400
  }

  /** The record a response run dispatches. */
  function ResponseRecord(settings: Settings, env: PP.Env, language: bool, isError: int, status: u32,
                          response: ResponseInfo, protocol: string): TrebllePayload {
    var p := PP.Initial(settings.apiKey, settings.projectId);
    var d := p.data.(response := response, server := PP.ServerSection(protocol, env));
    var d := if language then d.(language := PP.LanguageSection(env)) else d;
    p.(data := d.(errors := if IsFailedResponse(isError, status) then [CreateErrorInfo(status)] else []))
  }

  // ---------------------------------------------------------------- request phase

  /** Where the request phase stands: what it has gathered so far. */
  datatype RequestStage =
    | Begin
    | Screening(uri: string)
    | Observing(uri: string, verb: string)
    | Capturing(uri: string, verb: string, headers: map<string, string>)
    | Recording(uri: string, verb: string, headers: map<string, string>, body: seq<byte>)
  {
    function Remaining(): nat {
      match this
      case Begin => 4
      case Screening(_) => 3
      case Observing(_, _) => 2
      case Capturing(_, _, _) => 1
      case Recording(_, _, _, _) => 0
    }
  }

  /**
   * `process_request` from `stage` on, against a host in state `s`.
   * `blacklist` is `BLACKLIST`, or `None` when building it panics.
   */
  function RequestFrom(stage: RequestStage, layout: Layout, settings: Settings, blacklist: Option<RB.RouteBlacklist>,
                       env: PP.Env, sections: Sections, s: State): Run
    decreases stage.Remaining()
  {
    match stage
    case Begin =>
      if s.uri.None? then Stop([GetUri], HostCall(Uri, READ_FAILED), s.bodies)
      else if blacklist.None? then Run([GetUri], Panicked(RB.INVALID_PATTERN_PANIC), s.bodies)
      else if RB.IsBlacklisted(blacklist.value, s.uri.value) then Skip([GetUri], s.bodies)
      else After([GetUri], RequestFrom(Screening(s.uri.value), layout, settings, blacklist, env, sections, s))
    case Screening(uri) =>
      var ct := (layout.requestHeaders, PluginConstants.HEADER_CONTENT_TYPE);
      var e := [GetHeaderValues(ct.0, ct.1)];
      if ct !in s.headerValues then Stop(e, HostCall(ContentType, READ_FAILED), s.bodies)
      else if !Utils.IsJson(s.headerValues[ct]) then Skip(e, s.bodies)
      else if s.verb.None? then Stop([GetHeaderValues(ct.0, ct.1), GetMethod], HostCall(Method, READ_FAILED), s.bodies)
      else After([GetHeaderValues(ct.0, ct.1), GetMethod], RequestFrom(Observing(uri, s.verb.value), layout, settings, blacklist,
                                              env, sections, s))
    case Observing(uri, verb) =>
      var h := HeadersRun(layout.requestHeaders, s.headerNames, s.headerValues);
      if h.result.Err? then Stop(h.events, h.result.error, s.bodies)
      else After(h.events, RequestFrom(Capturing(uri, verb, h.result.value), layout, settings, blacklist,
                                       env, sections, s))
    case Capturing(uri, verb, headers) =>
      var k := layout.requestBody;
      if k !in s.bodies then Stop([ReadBody(k)], HostCall(Body, READ_FAILED), s.bodies)
      else
        var w := WriteBack(layout.writesBack, k, s.bodies[k], s.writeError, s.bodies[k := []]);
        if w.error.Some? then Stop([ReadBody(k)] + w.events, HostCall(Write, w.error.value), w.bodies)
        else After([ReadBody(k)] + w.events, RequestFrom(Recording(uri, verb, headers, s.bodies[k]), layout, settings,
                                                         blacklist, env, sections, s.(bodies := w.bodies)))
    case Recording(uri, verb, headers, body) =>
      var request := sections.request(verb, uri, headers, body);
      if request.Err? then Run([], Panicked(PP.REQUEST_PANIC), s.bodies)
      else if s.protocol.None? then Stop([GetProtocol], HostCall(Protocol, READ_FAILED), s.bodies)
      else After([GetProtocol], Send(settings.apiUrls, s.collector, sections.requestRecord(request.value, s.protocol.value), s.bodies))
  }

  /** The whole request phase. */
  function RequestRun(layout: Layout, settings: Settings, blacklist: Option<RB.RouteBlacklist>, env: PP.Env,
                      sections: Sections, s: State): Run {
    RequestFrom(Begin, layout, settings, blacklist, env, sections, s)
  }

  method ProcessRequest(layout: Layout, settings: Settings, blacklist: Option<RB.RouteBlacklist>, env: PP.Env,
                        sections: Sections, host: Host) returns (r: Outcome<Result<Unit, Failure>>)
    requires BuildsRequest(sections, settings, env)
    modifies host`trace, host`bodies
    ensures var run := RequestRun(layout, settings, blacklist, env, sections, old(host.Snapshot()));
            host.trace == old(host.trace) + run.events && host.bodies == run.bodies && r == run.outcome
  {
    ghost var s, t := host.Snapshot(), host.trace;
    var uri := host.GetUriCall();
    if uri.Err? {
      return Returned(Err(HostCall(Uri, uri.error)));
    }
    if blacklist.None? {
      return Panicked(RB.INVALID_PATTERN_PANIC);
    }
    if RB.IsBlacklisted(blacklist.value, uri.value) {
      return Returned(Ok(Unit));
    }
    assert host.Snapshot() == s;
    r := Screen(layout, settings, blacklist, env, sections, host, uri.value);
    Extend(t, [GetUri], RequestFrom(Screening(uri.value), layout, settings, blacklist, env, sections, s));
  }

  method Screen(layout: Layout, settings: Settings, blacklist: Option<RB.RouteBlacklist>, env: PP.Env,
                sections: Sections, host: Host, uri: string) returns (r: Outcome<Result<Unit, Failure>>)
    requires BuildsRequest(sections, settings, env)
    modifies host`trace, host`bodies
    ensures var run := RequestFrom(Screening(uri), layout, settings, blacklist, env, sections, old(host.Snapshot()));
            host.trace == old(host.trace) + run.events && host.bodies == run.bodies && r == run.outcome
  {
    ghost var s, t := host.Snapshot(), host.trace;
    var contentType := host.GetHeaderValuesCall(layout.requestHeaders, PluginConstants.HEADER_CONTENT_TYPE);
    if contentType.Err? {
      return Returned(Err(HostCall(ContentType, contentType.error)));
    }
    if !Utils.IsJson(contentType.value) {
      return Returned(Ok(Unit));
    }
    var verb := host.GetMethodCall();
    if verb.Err? {
      return Returned(Err(HostCall(Method, verb.error)));
    }
    assert host.Snapshot() == s;
    ghost var e := [GetHeaderValues(layout.requestHeaders, PluginConstants.HEADER_CONTENT_TYPE), GetMethod];
    assert host.trace == t + e;
    r := Observe(layout, settings, blacklist, env, sections, host, uri, verb.value);
    Extend(t, e, RequestFrom(Observing(uri, verb.value), layout, settings, blacklist, env, sections, s));
  }

  method Observe(layout: Layout, settings: Settings, blacklist: Option<RB.RouteBlacklist>, env: PP.Env,
                 sections: Sections, host: Host, uri: string, verb: string) returns (r: Outcome<Result<Unit, Failure>>)
    requires BuildsRequest(sections, settings, env)
    modifies host`trace, host`bodies
    ensures var run := RequestFrom(Observing(uri, verb), layout, settings, blacklist, env, sections, old(host.Snapshot()));
            host.trace == old(host.trace) + run.events && host.bodies == run.bodies && r == run.outcome
  {
    ghost var s, t := host.Snapshot(), host.trace;
    var headers := GetHeaders(host, layout.requestHeaders);
    assert host.Snapshot() == s;
    if headers.Err? {
      return Returned(Err(headers.error));
    }
    r := Capture(layout, settings, blacklist, env, sections, host, uri, verb, headers.value);
    Extend(t, HeadersRun(layout.requestHeaders, s.headerNames, s.headerValues).events,
           RequestFrom(Capturing(uri, verb, headers.value), layout, settings, blacklist, env, sections, s));
  }

  method Capture(layout: Layout, settings: Settings, blacklist: Option<RB.RouteBlacklist>, env: PP.Env,
                 sections: Sections, host: Host, uri: string, verb: string, headers: map<string, string>)
    returns (r: Outcome<Result<Unit, Failure>>)
    requires BuildsRequest(sections, settings, env)
    modifies host`trace, host`bodies
    ensures var run := RequestFrom(Capturing(uri, verb, headers), layout, settings, blacklist, env, sections,
                                   old(host.Snapshot()));
            host.trace == old(host.trace) + run.events && host.bodies == run.bodies && r == run.outcome
  {
    ghost var s, t := host.Snapshot(), host.trace;
    var body := host.ReadBodyCall(layout.requestBody);
    if body.Err? {
      return Returned(Err(HostCall(Body, body.error)));
    }
    ghost var w := WriteBack(layout.writesBack, layout.requestBody, body.value, s.writeError, host.bodies);
    var refused := WriteBackCall(host, layout.writesBack, layout.requestBody, body.value);
    ghost var e := [ReadBody(layout.requestBody)] + w.events;
    assert host.trace == t + e;
    if refused.Some? {
      return Returned(Err(HostCall(Write, refused.value)));
    }
    assert host.Snapshot() == s.(bodies := w.bodies);
    r := Finish(layout, settings, blacklist, env, sections, host, uri, verb, headers, body.value);
    Extend(t, e, RequestFrom(Recording(uri, verb, headers, body.value), layout, settings, blacklist, env, sections,
                             s.(bodies := w.bodies)));
  }

  method Finish(layout: Layout, settings: Settings, blacklist: Option<RB.RouteBlacklist>, env: PP.Env,
                sections: Sections, host: Host, uri: string, verb: string, headers: map<string, string>,
                body: seq<byte>) returns (r: Outcome<Result<Unit, Failure>>)
    requires BuildsRequest(sections, settings, env)
    modifies host`trace
    ensures var run := RequestFrom(Recording(uri, verb, headers, body), layout, settings, blacklist, env, sections,
                                   old(host.Snapshot()));
            host.trace == old(host.trace) + run.events && r == run.outcome
  {
    ghost var t := host.trace;
    var payload := new PP.Payload(settings.apiKey, settings.projectId);
    var updated := payload.UpdateRequestInfo(verb, uri, headers, body, settings.sensitiveKeysRegex, env);
    if updated.Panicked? {
      assert Utils.ParseRequest(verb, uri, headers, body, settings.sensitiveKeysRegex, env.engine, env.parse,
                                env.timestamp).Err?;
      return Panicked(updated.message);
    }
    payload.UpdateLanguageInfo(env);
    var protocol := host.GetProtocolCall();
    if protocol.Err? {
      return Returned(Err(HostCall(Protocol, protocol.error)));
    }
    payload.UpdateServerInfo(protocol.value, env);
    assert payload.data == RequestRecord(settings, env, sections.request(verb, uri, headers, body).value, protocol.value);
    Extend(t, [GetProtocol], Send(settings.apiUrls, host.collector, payload.data, host.bodies));
    if settings.apiUrls == [] {
      return Panicked(UrlRotation.REMAINDER_BY_ZERO);
    }
    var sent := host.DispatchCall(payload.data);
    r := if sent.Ok? then Returned(Ok(Unit)) else Returned(Err(SendFailed(sent.error)));
  }

  // ---------------------------------------------------------------- response phase

  /** Where the response phase stands: what it has gathered so far. */
  datatype ResponseStage =
    | Start
    | Reading(headers: map<string, string>)
    | Reporting(headers: map<string, string>, body: seq<byte>)
  {
    function Remaining(): nat {
      match this
      case Start => 2
      case Reading(_) => 1
      case Reporting(_, _) => 0
    }
  }

  /**
   * `process_response` from `stage` on, against a host in state `s`; `isError`
   * is the host's flag. Nothing at all happens unless responses are buffered.
   */
  function ResponseFrom(stage: ResponseStage, layout: Layout, settings: Settings, env: PP.Env, sections: Sections,
                        isError: int, s: State): Run
    decreases stage.Remaining()
  {
    match stage
    case Start =>
      if !settings.bufferResponse then Skip([], s.bodies)
      else
        var h := HeadersRun(layout.responseHeaders, s.headerNames, s.headerValues);
        if h.result.Err? then Stop(h.events, h.result.error, s.bodies)
        else After(h.events, ResponseFrom(Reading(h.result.value), layout, settings, env, sections, isError, s))
    case Reading(headers) =>
      var k := layout.responseBody;
      if k !in s.bodies then Stop([ReadBody(k)], HostCall(Body, READ_FAILED), s.bodies)
      else
        var w := WriteBack(layout.writesBack, k, s.bodies[k], s.writeError, s.bodies[k := []]);
        if w.error.Some? then Stop([ReadBody(k), GetStatus] + w.events, HostCall(Write, w.error.value), w.bodies)
        else After([ReadBody(k), GetStatus] + w.events,
                   ResponseFrom(Reporting(headers, s.bodies[k]), layout, settings, env, sections, isError,
                                s.(bodies := w.bodies)))
    case Reporting(headers, body) =>
      var response := sections.response(s.status, headers, body);
      if response.Err? then Run([], Panicked(PP.RESPONSE_PANIC), s.bodies)
      else if s.protocol.None? then Stop([GetProtocol], HostCall(Protocol, READ_FAILED), s.bodies)
      else
        var record := sections.responseRecord(response.value, s.status, isError, s.protocol.value);
        After([GetProtocol], Send(settings.apiUrls, s.collector, record, s.bodies))
  }

  /** The whole response phase. */
  function ResponseRun(layout: Layout, settings: Settings, env: PP.Env, sections: Sections, isError: int,
                       s: State): Run {
    ResponseFrom(Start, layout, settings, env, sections, isError, s)
  }

  method ProcessResponse(layout: Layout, settings: Settings, env: PP.Env, sections: Sections, isError: int,
                         host: Host) returns (r: Outcome<Result<Unit, Failure>>)
    requires BuildsResponse(sections, settings, env, layout.languageOnResponse)
    modifies host`trace, host`bodies
    ensures var run := ResponseRun(layout, settings, env, sections, isError, old(host.Snapshot()));
            host.trace == old(host.trace) + run.events && host.bodies == run.bodies && r == run.outcome
  {
    if !settings.bufferResponse {
      return Returned(Ok(Unit));
    }
    ghost var s, t := host.Snapshot(), host.trace;
    var headers := GetHeaders(host, layout.responseHeaders);
    assert host.Snapshot() == s;
    if headers.Err? {
      return Returned(Err(headers.error));
    }
    r := ReadReply(layout, settings, env, sections, isError, host, headers.value);
    Extend(t, HeadersRun(layout.responseHeaders, s.headerNames, s.headerValues).events,
           ResponseFrom(Reading(headers.value), layout, settings, env, sections, isError, s));
  }

  method ReadReply(layout: Layout, settings: Settings, env: PP.Env, sections: Sections, isError: int,
                   host: Host, headers: map<string, string>) returns (r: Outcome<Result<Unit, Failure>>)
    requires BuildsResponse(sections, settings, env, layout.languageOnResponse)
    modifies host`trace, host`bodies
    ensures var run := ResponseFrom(Reading(headers), layout, settings, env, sections, isError, old(host.Snapshot()));
            host.trace == old(host.trace) + run.events && host.bodies == run.bodies && r == run.outcome
  {
    ghost var s, t := host.Snapshot(), host.trace;
    var body := host.ReadBodyCall(layout.responseBody);
    if body.Err? {
      return Returned(Err(HostCall(Body, body.error)));
    }
    var status := host.GetStatusCall();
    ghost var w := WriteBack(layout.writesBack, layout.responseBody, body.value, s.writeError, host.bodies);
    var refused := WriteBackCall(host, layout.writesBack, layout.responseBody, body.value);
    ghost var e := [ReadBody(layout.responseBody), GetStatus] + w.events;
    assert host.trace == t + e;
    if refused.Some? {
      return Returned(Err(HostCall(Write, refused.value)));
    }
    assert host.Snapshot() == s.(bodies := w.bodies);
    r := Report(layout, settings, env, sections, isError, host, status, headers, body.value);
    Extend(t, e, ResponseFrom(Reporting(headers, body.value), layout, settings, env, sections, isError,
                              s.(bodies := w.bodies)));
  }

  method Report(layout: Layout, settings: Settings, env: PP.Env, sections: Sections, isError: int,
                host: Host, status: u32, headers: map<string, string>, body: seq<byte>)
    returns (r: Outcome<Result<Unit, Failure>>)
    requires BuildsResponse(sections, settings, env, layout.languageOnResponse)
    requires status == host.status
    modifies host`trace
    ensures var run := ResponseFrom(Reporting(headers, body), layout, settings, env, sections, isError,
                                    old(host.Snapshot()));
            host.trace == old(host.trace) + run.events && r == run.outcome
  {
    ghost var t := host.trace;
    var payload := new PP.Payload(settings.apiKey, settings.projectId);
    var updated := payload.UpdateResponseInfo(status, headers, body, settings.sensitiveKeysRegex, env);
    if updated.Panicked? {
      assert Utils.ParseResponse(status, headers, body, env.loadTime, settings.sensitiveKeysRegex, env.engine,
                                 env.parse).Err?;
      return Panicked(updated.message);
    }
    var protocol := host.GetProtocolCall();
    if protocol.Err? {
      return Returned(Err(HostCall(Protocol, protocol.error)));
    }
    payload.UpdateServerInfo(protocol.value, env);
    if layout.languageOnResponse {
      payload.UpdateLanguageInfo(env);
    }
    if IsFailedResponse(isError, status) {
      payload.AddError(CreateErrorInfo(status));
    }
    assert payload.data == ResponseRecord(settings, env, layout.languageOnResponse, isError, status,
                                          sections.response(status, headers, body).value, protocol.value);
    Extend(t, [GetProtocol], Send(settings.apiUrls, host.collector, payload.data, host.bodies));
    if settings.apiUrls == [] {
      return Panicked(UrlRotation.REMAINDER_BY_ZERO);
    }
    var sent := host.DispatchCall(payload.data);
    r := if sent.Ok? then Returned(Ok(Unit)) else Returned(Err(SendFailed(sent.error)));
  }
}
