/**
 * The stand-alone `HttpHandler` of the rust-http-wasm crate
 * (rust-http-wasm/src/http_handler.rs): the shared request and response
 * phases with this crate's error type, request kinds 0 and response kinds 1,
 * no write-back and no language section on the response.
 *
 * The file is not declared as a module of its crate, and it names
 * `HEADER_CONTENT_TYPE`, `REQUEST_KIND` and `RESPONSE_KIND`, which the
 * crate's constants do not define; they are taken with the plugin crate's
 * values ("Content-Type", 0 and 1).
 */
module HttpWasmHandler {
  import opened Wrappers
  import opened Text
  import opened Schema
  import opened Host
  import opened HandlerFlow
  import HandlerLaws
  import RB = RouteBlacklist
  import PP = PluginPayload
  import PluginConstants
  import HttpWasmConfig
  import HttpWasmError

  /** Headers and body of kind 0 for the request, of kind 1 for the response; nothing is written back. */
  const LAYOUT: Layout := Layout(PluginConstants.REQUEST_KIND, PluginConstants.REQUEST_KIND,
                                 PluginConstants.RESPONSE_KIND, PluginConstants.RESPONSE_KIND, false, false)

  /** The text `send_to_treblle` puts before the client's error. */
  const SEND_FAILED: string := "Failed to send data to Treblle API: "

  /** What the phases read from `CONFIG`. */
  function SettingsOf(config: HttpWasmConfig.Config): Settings {
    Settings(config.apiKey, config.projectId, config.sensitiveKeysRegex, config.bufferResponse,
             config.treblleApiUrls)
  }

  /**
   * The crate's error for a failed phase: every host call's error becomes
   * `HostFunction` with the call's message, a failed post becomes `Http`.
   */
  function ErrorOf(f: Failure): (e: HttpWasmError.TreblleError)
    ensures f.HostCall? <==> e.HostFunction?
    ensures f.HostCall? ==> HttpWasmError.Display(e) == "Host function error: " + f.message
    ensures f.SendFailed? ==> HttpWasmError.Display(e) == "HTTP error: " + SEND_FAILED + f.message
  {
    match f
    case HostCall(_, m) => HttpWasmError.HostFunction(m)
    case SendFailed(m) => HttpWasmError.Http(SEND_FAILED + m)
  }

  function OutcomeOf(o: Outcome<Result<Unit, Failure>>): Outcome<Result<Unit, HttpWasmError.TreblleError>> {
    match o
    case Panicked(m) => Panicked(m)
    case Returned(Ok(_)) => Returned(Ok(Unit))
    case Returned(Err(f)) => Returned(Err(ErrorOf(f)))
  }

  /** `process_request` against `host`, with `CONFIG`, `BLACKLIST` and the environment given. */
  method ProcessRequest(config: HttpWasmConfig.Config, blacklist: Option<RB.RouteBlacklist>, env: PP.Env, host: Host)
    returns (r: Outcome<Result<Unit, HttpWasmError.TreblleError>>)
    modifies host`trace, host`bodies
    ensures var settings := SettingsOf(config);
            var run := RequestRun(LAYOUT, settings, blacklist, env, Standard(settings, env, false), old(host.Snapshot()));
            host.trace == old(host.trace) + run.events && host.bodies == run.bodies && r == OutcomeOf(run.outcome)
  {
    var settings := SettingsOf(config);
    StandardBuilds(settings, env, false);
    var o := HandlerFlow.ProcessRequest(LAYOUT, settings, blacklist, env, Standard(settings, env, false), host);
    r := OutcomeOf(o);
  }

  /** `process_response` against `host`; `isError` is the host's flag. */
  method ProcessResponse(config: HttpWasmConfig.Config, env: PP.Env, isError: int, host: Host)
    returns (r: Outcome<Result<Unit, HttpWasmError.TreblleError>>)
    modifies host`trace, host`bodies
    ensures var settings := SettingsOf(config);
            var run := ResponseRun(LAYOUT, settings, env, Standard(settings, env, false), isError, old(host.Snapshot()));
            host.trace == old(host.trace) + run.events && host.bodies == run.bodies && r == OutcomeOf(run.outcome)
  {
    var settings := SettingsOf(config);
    StandardBuilds(settings, env, false);
    var o := HandlerFlow.ProcessResponse(LAYOUT, settings, env, Standard(settings, env, false), isError, host);
    r := OutcomeOf(o);
  }

  /**
   * Neither phase writes a body back, so a request phase that dispatches
   * leaves the host without the request body it read.
   */
  lemma RequestConsumesBody(config: HttpWasmConfig.Config, blacklist: Option<RB.RouteBlacklist>, env: PP.Env,
                            s: State, i: nat)
    ensures var settings := SettingsOf(config);
            var run := RequestRun(LAYOUT, settings, blacklist, env, Standard(settings, env, false), s);
            && HandlerLaws.NoWrite(run.events)
            && (i < |run.events| && run.events[i].Dispatch? ==> 0 in s.bodies && run.bodies == s.bodies[0 := []])
  {
    var settings := SettingsOf(config);
    var sections := Standard(settings, env, false);
    var run := RequestRun(LAYOUT, settings, blacklist, env, sections, s);
    if 0 in s.bodies {
      HandlerLaws.RequestWritesBackWhatItRead(Begin, LAYOUT, settings, blacklist, env, sections, s);
    } else {
      HandlerLaws.RequestFailedReadStops(Begin, LAYOUT, settings, blacklist, env, sections, s);
    }
    if i < |run.events| && run.events[i].Dispatch? {
      HandlerLaws.RequestDispatchConsumesBody(Begin, LAYOUT, settings, blacklist, env, sections, s, i);
    }
  }

  /** The request phase asks for headers and reads the body of one kind, the request's. */
  lemma RequestReadsRequestBody(config: HttpWasmConfig.Config, blacklist: Option<RB.RouteBlacklist>, env: PP.Env,
                                s: State, i: nat)
    requires var settings := SettingsOf(config);
             i < |RequestRun(LAYOUT, settings, blacklist, env, Standard(settings, env, false), s).events|
    ensures var settings := SettingsOf(config);
            var e := RequestRun(LAYOUT, settings, blacklist, env, Standard(settings, env, false), s).events[i];
            && ((e.GetHeaderNames? || e.GetHeaderValues?) ==> e.kind == PluginConstants.REQUEST_KIND)
            && (e.ReadBody? ==> e.kind == PluginConstants.REQUEST_KIND)
  {
    var settings := SettingsOf(config);
    HandlerLaws.RequestKinds(Begin, LAYOUT, settings, blacklist, env, Standard(settings, env, false), s);
  }

  /** The response phase asks for headers and reads the body of the response's kind, and writes nothing back. */
  lemma ResponseReadsResponseBody(config: HttpWasmConfig.Config, env: PP.Env, isError: int, s: State, i: nat)
    requires var settings := SettingsOf(config);
             i < |ResponseRun(LAYOUT, settings, env, Standard(settings, env, false), isError, s).events|
    ensures var settings := SettingsOf(config);
            var e := ResponseRun(LAYOUT, settings, env, Standard(settings, env, false), isError, s).events[i];
            && ((e.GetHeaderNames? || e.GetHeaderValues?) ==> e.kind == PluginConstants.RESPONSE_KIND)
            && (e.ReadBody? ==> e.kind == PluginConstants.RESPONSE_KIND)
            && !e.WriteBody?
  {
    var settings := SettingsOf(config);
    var sections := Standard(settings, env, false);
    HandlerLaws.ResponseKinds(Start, LAYOUT, settings, env, sections, isError, s);
    HandlerLaws.ResponseWritesBackWhatItRead(Start, LAYOUT, settings, env, sections, isError, s);
  }
}
