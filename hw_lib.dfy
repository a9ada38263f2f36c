/**
 * The entry points of the rust-http-wasm crate (rust-http-wasm/src/lib.rs):
 * the inline `HttpHandler::process_request` / `process_response` and the
 * exported `handle_request` / `handle_response`.
 *
 * The phases are the shared ones of `HandlerFlow` with this file's layout:
 * request headers of kind 0 but the request body of kind 1, response headers
 * of kind 1 but the response body of kind 0, no write-back, and a language
 * section on both records. `CONFIG` and `BLACKLIST` are given already built
 * (`None` for a `BLACKLIST` whose construction panics). Of the `host_log`
 * calls, only the entry points' Error lines are kept; the lines inside the
 * phases are not modelled.
 *
 * Host calls fail with `anyhow::Error`, and the crate defines no conversion
 * from it into its own error; the `?` on such a call is modelled as giving
 * `HostFunction` with the call's message. `get_headers` and `read_body`
 * already return the crate's error, which their callers wrap once more in
 * `HostFunction`, so those messages carry the prefix twice.
 */
module HttpWasmLib {
  import opened Wrappers
  import opened Text
  import opened Schema
  import opened Host
  import opened HandlerFlow
  import HandlerLaws
  import RB = RouteBlacklist
  import PP = PluginPayload
  import HttpWasmConfig
  import HttpWasmConstants
  import HttpWasmError

  /** Header and body kinds exactly as this file passes them. */
  const LAYOUT: Layout := Layout(0, 1, 1, 0, false, true)

  /** `FeatureBufferResponse`, the feature `handle_request` enables. */
  const BUFFER_RESPONSE_FEATURE: nat := 2

  /** The text `send_to_treblle` puts before the client's error. */
  const SEND_FAILED: string := "Failed to send data to Treblle API: "

  const REQUEST_ERROR_LOG: string := "Error processing request: "
  const RESPONSE_ERROR_LOG: string := "Error processing response: "

  /** A `host_log` call: its level and its text. */
  datatype Logged = Logged(level: int, message: string)

  function SettingsOf(config: HttpWasmConfig.Config): Settings {
    Settings(config.apiKey, config.projectId, config.sensitiveKeysRegex, config.bufferResponse,
             config.treblleApiUrls)
  }

  /**
   * The crate's error for a failed phase. A failure in `get_headers` or
   * `read_body` reaches the caller as `HostFunction` and is wrapped again, so
   * its text is the host's message behind the prefix twice; every other host
   * call gives the prefix once, and a failed post is an `Http` error.
   */
  function ErrorOf(f: Failure): (e: HttpWasmError.TreblleError)
    ensures f.HostCall? <==> e.HostFunction?
    ensures f.HostCall? && (f.step == HeaderNames || f.step == Body) ==>
              HttpWasmError.Display(e) == "Host function error: " + ("Host function error: " + f.message)
    ensures f.HostCall? && f.step != HeaderNames && f.step != Body ==>
              HttpWasmError.Display(e) == "Host function error: " + f.message
    ensures f.SendFailed? ==> HttpWasmError.Display(e) == "HTTP error: " + SEND_FAILED + f.message
  {
    match f
    case HostCall(step, m) =>
      if step == HeaderNames || step == Body then HttpWasmError.HostFunction(HttpWasmError.Display(HttpWasmError.HostFunction(m)))
      else HttpWasmError.HostFunction(m)
    case SendFailed(m) => HttpWasmError.Http(SEND_FAILED + m)
  }

  /** The line `handle_*` logs for a phase that returned, if it failed. */
  function ErrorLog(prefix: string, o: Outcome<Result<Unit, Failure>>): seq<Logged> {
    if o.Returned? && o.value.Err? then [Logged(HttpWasmConstants.LOG_LEVEL_ERROR, prefix + HttpWasmError.Display(ErrorOf(o.value.error)))]
    else []
  }

  /** The request phase of this file. */
  function RequestOf(config: HttpWasmConfig.Config, blacklist: Option<RB.RouteBlacklist>, env: PP.Env, s: State): Run {
    var settings := SettingsOf(config);
    RequestRun(LAYOUT, settings, blacklist, env, Standard(settings, env, LAYOUT.languageOnResponse), s)
  }

  /** The response phase of this file. */
  function ResponseOf(config: HttpWasmConfig.Config, env: PP.Env, isError: int, s: State): Run {
    var settings := SettingsOf(config);
    ResponseRun(LAYOUT, settings, env, Standard(settings, env, LAYOUT.languageOnResponse), isError, s)
  }

  /**
   * `handle_request`: enables response buffering when configured, runs the
   * request phase, logs its error, and tells the host to go on (1) whatever
   * the phase returned; only a panic in the phase keeps it from returning.
   */
  method HandleRequest(config: HttpWasmConfig.Config, blacklist: Option<RB.RouteBlacklist>, env: PP.Env, host: Host)
    returns (r: Outcome<int>, logged: seq<Logged>)
    modifies host`trace, host`bodies, host`features
    ensures var enable := if config.bufferResponse then [EnableFeatures(BUFFER_RESPONSE_FEATURE)] else [];
            var run := RequestOf(config, blacklist, env, old(host.Snapshot()).(features := host.features));
            && host.trace == old(host.trace) + enable + run.events
            && host.bodies == run.bodies
            && host.features == old(host.features) + (if config.bufferResponse then {BUFFER_RESPONSE_FEATURE} else {})
            && r == (if run.outcome.Panicked? then Panicked(run.outcome.message) else Returned(1))
            && logged == ErrorLog(REQUEST_ERROR_LOG, run.outcome)
  {
    var settings := SettingsOf(config);
    if config.bufferResponse {
      host.EnableFeaturesCall(BUFFER_RESPONSE_FEATURE);
    }
    StandardBuilds(settings, env, LAYOUT.languageOnResponse);
    var o := HandlerFlow.ProcessRequest(LAYOUT, settings, blacklist, env, Standard(settings, env, LAYOUT.languageOnResponse), host);
    logged := ErrorLog(REQUEST_ERROR_LOG, o);
    if o.Panicked? {
      return Panicked(o.message), logged;
    }
    r := Returned(1);
  }

  /**
   * `handle_response`: runs the response phase and logs its error; nothing
   * reaches the host but a panic.
   */
  method HandleResponse(config: HttpWasmConfig.Config, env: PP.Env, isError: int, host: Host)
    returns (r: Outcome<Unit>, logged: seq<Logged>)
    modifies host`trace, host`bodies
    ensures var run := ResponseOf(config, env, isError, old(host.Snapshot()));
            && host.trace == old(host.trace) + run.events
            && host.bodies == run.bodies
            && r == (if run.outcome.Panicked? then Panicked(run.outcome.message) else Returned(Unit))
            && logged == ErrorLog(RESPONSE_ERROR_LOG, run.outcome)
  {
    var settings := SettingsOf(config);
    StandardBuilds(settings, env, LAYOUT.languageOnResponse);
    var o := HandlerFlow.ProcessResponse(LAYOUT, settings, env, Standard(settings, env, LAYOUT.languageOnResponse), isError, host);
    logged := ErrorLog(RESPONSE_ERROR_LOG, o);
    if o.Panicked? {
      return Panicked(o.message), logged;
    }
    r := Returned(Unit);
  }

  /**
   * The request phase asks for headers of kind 0 but reads the body of kind 1,
   * the kind the host uses for the response body.
   */
  lemma RequestReadsResponseBody(config: HttpWasmConfig.Config, blacklist: Option<RB.RouteBlacklist>, env: PP.Env,
                                 s: State, i: nat)
    requires i < |RequestOf(config, blacklist, env, s).events|
    ensures var e := RequestOf(config, blacklist, env, s).events[i];
            && ((e.GetHeaderNames? || e.GetHeaderValues?) ==> e.kind == 0)
            && (e.ReadBody? ==> e.kind == 1)
            && !e.WriteBody?
  {
    var settings := SettingsOf(config);
    var sections := Standard(settings, env, LAYOUT.languageOnResponse);
    HandlerLaws.RequestKinds(Begin, LAYOUT, settings, blacklist, env, sections, s);
    if 1 in s.bodies {
      HandlerLaws.RequestWritesBackWhatItRead(Begin, LAYOUT, settings, blacklist, env, sections, s);
    } else {
      HandlerLaws.RequestFailedReadStops(Begin, LAYOUT, settings, blacklist, env, sections, s);
    }
  }

  /** The response phase asks for headers of kind 1 but reads the body of kind 0, and writes nothing back. */
  lemma ResponseReadsRequestBody(config: HttpWasmConfig.Config, env: PP.Env, isError: int, s: State, i: nat)
    requires i < |ResponseOf(config, env, isError, s).events|
    ensures var e := ResponseOf(config, env, isError, s).events[i];
            && ((e.GetHeaderNames? || e.GetHeaderValues?) ==> e.kind == 1)
            && (e.ReadBody? ==> e.kind == 0)
            && !e.WriteBody?
  {
    var settings := SettingsOf(config);
    var sections := Standard(settings, env, LAYOUT.languageOnResponse);
    HandlerLaws.ResponseKinds(Start, LAYOUT, settings, env, sections, isError, s);
    HandlerLaws.ResponseWritesBackWhatItRead(Start, LAYOUT, settings, env, sections, isError, s);
  }
}
