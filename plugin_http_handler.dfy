/**
 * The `HttpHandler` of the treblle-wasm-plugin crate
 * (treblle-wasm-plugin/src/http_handler.rs): the shared request and response
 * phases with this crate's layout and its error type. Both bodies are written
 * back, and the response record gets no language section.
 *
 * The crate's own host_functions.rs, route_blacklist.rs, schema.rs and
 * utils.rs are not part of this model; the host interface, the blacklist,
 * the record types and the parsers are rust-http-wasm's (`Host`,
 * `RouteBlacklist`, `Schema`, `Utils`), taken to agree with them.
 */
module PluginHttpHandler {
  import opened Wrappers
  import opened Text
  import opened Schema
  import opened Host
  import opened HandlerFlow
  import HandlerLaws
  import RB = RouteBlacklist
  import PP = PluginPayload
  import PluginConstants
  import PluginConfig
  import PluginError

  /** Headers and body of kind 0 for the request, of kind 1 for the response; both bodies are written back. */
  const LAYOUT: Layout := Layout(PluginConstants.REQUEST_KIND, PluginConstants.REQUEST_KIND,
                                 PluginConstants.RESPONSE_KIND, PluginConstants.RESPONSE_KIND, true, false)

  /** The text `send_to_treblle` puts before the client's error. */
  const SEND_FAILED: string := "Failed to send data to Treblle API: "

  /** What the phases read from `CONFIG`. */
  function SettingsOf(config: PluginConfig.Config): Settings {
    Settings(config.apiKey, config.projectId, config.sensitiveKeysRegex, config.bufferResponse,
             config.treblleApiUrls)
  }

  /**
   * The crate's error for a failed phase: every host call's error becomes
   * `HostFunction` with the call's message, a failed post becomes `Http`.
   */
  function ErrorOf(f: Failure): (e: PluginError.TreblleError)
    ensures f.HostCall? <==> e.HostFunction?
    ensures f.HostCall? ==> PluginError.Display(e) == "Host function error: " + f.message
    ensures f.SendFailed? ==> PluginError.Display(e) == "HTTP error: " + SEND_FAILED + f.message
  {
    match f
    case HostCall(_, m) => PluginError.HostFunction(m)
    case SendFailed(m) => PluginError.Http(SEND_FAILED + m)
  }

  function OutcomeOf(o: Outcome<Result<Unit, Failure>>): Outcome<Result<Unit, PluginError.TreblleError>> {
    match o
    case Panicked(m) => Panicked(m)
    case Returned(Ok(_)) => Returned(Ok(Unit))
    case Returned(Err(f)) => Returned(Err(ErrorOf(f)))
  }

  /** `process_request` against `host`, with `CONFIG`, `BLACKLIST` and the environment given. */
  method ProcessRequest(config: PluginConfig.Config, blacklist: Option<RB.RouteBlacklist>, env: PP.Env, host: Host)
    returns (r: Outcome<Result<Unit, PluginError.TreblleError>>)
    modifies host`trace, host`bodies
    ensures var settings := SettingsOf(config);
            var run := RequestRun(LAYOUT, settings, blacklist, env, Standard(settings, env, false), old(host.Snapshot()));
            host.trace == old(host.trace) + run.events && host.bodies == run.bodies && r == OutcomeOf(run.outcome)
  {
    var settings := SettingsOf(config);
    StandardBuilds(settings, env, false);
    var o := HandlerFlow.ProcessRequest(LAYOUT, settings, blacklist, env, Standard(settings, env, false), host);
    r := OutcomeOf(o);
  }

  /** `process_response` against `host`; `isError` is the host's flag. */
  method ProcessResponse(config: PluginConfig.Config, env: PP.Env, isError: int, host: Host)
    returns (r: Outcome<Result<Unit, PluginError.TreblleError>>)
    modifies host`trace, host`bodies
    ensures var settings := SettingsOf(config);
            var run := ResponseRun(LAYOUT, settings, env, Standard(settings, env, false), isError, old(host.Snapshot()));
            host.trace == old(host.trace) + run.events && host.bodies == run.bodies && r == OutcomeOf(run.outcome)
  {
    var settings := SettingsOf(config);
    StandardBuilds(settings, env, false);
    var o := HandlerFlow.ProcessResponse(LAYOUT, settings, env, Standard(settings, env, false), isError, host);
    r := OutcomeOf(o);
  }

  /**
   * The request body is handed back to the host with exactly the bytes read,
   * before anything is sent; when the host accepts the write, its bodies end
   * as they began, and a refused write stops the phase before the dispatch.
   */
  lemma RequestBodyWrittenBack(config: PluginConfig.Config, blacklist: Option<RB.RouteBlacklist>, env: PP.Env,
                               s: State, i: nat)
    ensures var settings := SettingsOf(config);
            var run := RequestRun(LAYOUT, settings, blacklist, env, Standard(settings, env, false), s);
            && (s.writeError.None? ==> run.bodies == s.bodies)
            && (s.writeError.Some? ==> HandlerLaws.NoDispatch(run.events))
            && (i < |run.events| && run.events[i].Dispatch? ==>
                  0 in s.bodies && WriteBody(0, s.bodies[0]) in run.events[..i])
  {
    var settings := SettingsOf(config);
    var sections := Standard(settings, env, false);
    var run := RequestRun(LAYOUT, settings, blacklist, env, sections, s);
    HandlerLaws.RequestBodiesAfter(Begin, LAYOUT, settings, blacklist, env, sections, s);
    if s.writeError.Some? {
      HandlerLaws.RequestRefusedWriteStops(Begin, LAYOUT, settings, blacklist, env, sections, s);
    }
    if i < |run.events| && run.events[i].Dispatch? {
      HandlerLaws.RequestWrittenBeforeDispatch(Begin, LAYOUT, settings, blacklist, env, sections, s, i);
    }
  }

  /**
   * The response body is handed back to the host with exactly the bytes
   * read; when the host accepts the write, its bodies end as they began.
   */
  lemma ResponseBodyWrittenBack(config: PluginConfig.Config, env: PP.Env, isError: int, s: State)
    ensures var settings := SettingsOf(config);
            var run := ResponseRun(LAYOUT, settings, env, Standard(settings, env, false), isError, s);
            && (s.writeError.None? ==> run.bodies == s.bodies)
            && (1 in s.bodies ==> HandlerLaws.WritesOnly(run.events, 1, s.bodies[1]))
            && (1 !in s.bodies ==> HandlerLaws.NoDispatch(run.events) && HandlerLaws.NoWrite(run.events))
  {
    var settings := SettingsOf(config);
    var sections := Standard(settings, env, false);
    HandlerLaws.ResponseBodiesAfter(Start, LAYOUT, settings, env, sections, isError, s);
    HandlerLaws.ResponseWritesBackWhatItRead(Start, LAYOUT, settings, env, sections, isError, s);
  }
}
