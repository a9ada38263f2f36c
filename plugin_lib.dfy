/**
 * The entry points of the treblle-wasm-plugin crate
 * (treblle-wasm-plugin/src/lib.rs): `handle_request` and `handle_response`,
 * with the lazily built statics `CONFIG` and `BLACKLIST` and the logger's
 * `LOG_LEVEL`, which live in one `Runtime` object.
 *
 * What the host answers to `host_get_config`, the JSON parser and renderer
 * and the regex engine are fixed when the runtime is made. A panic while a
 * static is built is carried as the static's value (`BLACKLIST` holding
 * `None`), and every later use panics again. `BLACKLIST` is built with
 * rust-http-wasm's `RouteBlacklist`: the crate's own route_blacklist.rs is
 * not part of this model.
 */
module PluginLib {
  import opened Wrappers
  import opened Host
  import opened HandlerFlow
  import J = Json
  import R = Regex
  import RB = RouteBlacklist
  import PP = PluginPayload
  import L = Logger
  import PluginConfig
  import PluginError
  import PluginHttpHandler

  /** `FeatureBufferResponse`, the feature `handle_request` enables. */
  const BUFFER_RESPONSE_FEATURE: nat := 2

  /** The texts of the entry points' `log` calls. */
  const LEVEL_SET: string := "Log level set to: "
  const REQUEST_GREETING: string := "Initializing request handler!"
  const REQUEST_HANDLING: string := "Handling request in WASM module"
  const BUFFER_SETTING: string := "Buffer response is set to: "
  const REQUEST_FAILED: string := "Error processing request: "
  const REQUEST_DONE: string := "Letting Traefik continue processing the request with next middleware"
  const RESPONSE_GREETING: string := "Initializing response handler"
  const RESPONSE_HANDLING: string := "Handling response in WASM module"
  const RESPONSE_FAILED: string := "Error processing response: "
  const RESPONSE_DONE: string := "Finished processing response"

  function BoolText(b: bool): string {
    if b then "true" else "false"
  }

  /** The line `init` logs at Debug once the threshold is set. */
  function InitLine(c: PluginConfig.Config): L.LogLine {
    L.LogLine(L.Debug, LEVEL_SET + L.DebugName(c.logLevel))
  }

  /** The `log` calls `handle_request` makes before the request phase. */
  function RequestGreeting(c: PluginConfig.Config): seq<L.LogLine> {
    [L.LogLine(L.Debug, REQUEST_GREETING),
     L.LogLine(L.Info, REQUEST_HANDLING),
     L.LogLine(L.Info, BUFFER_SETTING + BoolText(c.bufferResponse))]
  }

  /**
   * The `log` calls an entry point makes after its phase: the phase's error
   * if it returned one, then the closing line unless it panicked.
   */
  function Closing(failed: string, done: string, o: Outcome<Result<Unit, PluginError.TreblleError>>): seq<L.LogLine> {
    (if o.Returned? && o.value.Err? then [L.LogLine(L.Error, failed + PluginError.Display(o.value.error))] else [])
    + (if o.Returned? then [L.LogLine(L.Info, done)] else [])
  }

  /** Every `log` call of `handle_request` after `CONFIG` is read, given how the phase ended. */
  function RequestLines(c: PluginConfig.Config, o: Outcome<Result<Unit, PluginError.TreblleError>>): seq<L.LogLine> {
    [InitLine(c)] + RequestGreeting(c) + Closing(REQUEST_FAILED, REQUEST_DONE, o)
  }

  /** The `log` calls `handle_response` makes before the response phase. */
  function ResponseGreeting(): seq<L.LogLine> {
    [L.LogLine(L.Debug, RESPONSE_GREETING), L.LogLine(L.Info, RESPONSE_HANDLING)]
  }

  /** Every `log` call of `handle_response` after `CONFIG` is read. */
  function ResponseLines(c: PluginConfig.Config, o: Outcome<Result<Unit, PluginError.TreblleError>>): seq<L.LogLine> {
    [InitLine(c)] + ResponseGreeting() + Closing(RESPONSE_FAILED, RESPONSE_DONE, o)
  }

  /** The request phase `handle_request` runs, against a host in state `s`. */
  function RequestOf(c: PluginConfig.Config, blacklist: Option<RB.RouteBlacklist>, env: PP.Env, s: State): Run {
    var settings := PluginHttpHandler.SettingsOf(c);
    RequestRun(PluginHttpHandler.LAYOUT, settings, blacklist, env, Standard(settings, env, false), s)
  }

  /** The response phase `handle_response` runs, against a host in state `s`. */
  function ResponseOf(c: PluginConfig.Config, env: PP.Env, isError: int, s: State): Run {
    var settings := PluginHttpHandler.SettingsOf(c);
    ResponseRun(PluginHttpHandler.LAYOUT, settings, env, Standard(settings, env, false), isError, s)
  }

  class Runtime {
    /** What the host answers to `host_get_config`. */
    const hostConfig: Result<string, PluginError.TreblleError>
    const parse: J.TextParser
    const render: J.Renderer
    const engine: R.Engine
    /** `LOG_LEVEL` and the host's log. */
    const logger: L.Logger
    /** `CONFIG`, once forced. */
    var config: Option<PluginConfig.Config>
    /**
     * Whether `BLACKLIST` has been forced. Its value is what `RouteBlacklist::new`
     * makes of `CONFIG`'s patterns (`Blacklist()`), `None` when that panicked.
     */
    var blacklistBuilt: bool

    /**
     * What forcing `CONFIG` computes. The computation depends on nothing but
     * the three constants above, so it is fixed with them; its log calls are
     * made when `CONFIG` is forced.
     */
    const loaded: PluginConfig.Loaded

    /** A forced static holds what its initialiser computes, and `BLACKLIST` is built after `CONFIG`. */
    predicate Valid()
      reads this
    {
      && (config.Some? ==> config.value == loaded.config)
      && (blacklistBuilt ==> config.Some?)
    }

    /** The value of `BLACKLIST`: the configured patterns, compiled. */
    function Blacklist(): Option<RB.RouteBlacklist>
      reads this
      requires config.Some?
    {
      RB.New(engine, config.value.routeBlacklist)
    }

    /** A fresh instance: no static forced yet, and the threshold at Info. */
    constructor(hostConfig: Result<string, PluginError.TreblleError>, parse: J.TextParser, render: J.Renderer, engine: R.Engine)
      ensures this.hostConfig == hostConfig && this.parse == parse && this.render == render && this.engine == engine
      ensures loaded == PluginConfig.GetOrFallback(hostConfig, parse, render)
      ensures config.None? && !blacklistBuilt && Valid()
      ensures fresh(logger) && logger.threshold == L.AsI32(L.Info) && logger.emitted == []
    {
      this.hostConfig, this.parse, this.render, this.engine := hostConfig, parse, render, engine;
      loaded := PluginConfig.GetOrFallback(hostConfig, parse, render);
      config, blacklistBuilt := None, false;
      logger := new L.Logger();
    }

    /**
     * Reads `CONFIG`: the first time, `get_or_fallback` runs and its log calls
     * pass through the current threshold; afterwards the stored value is
     * returned and nothing is logged.
     */
    method ForceConfig() returns (c: PluginConfig.Config)
      requires Valid()
      modifies this`config, logger
      ensures Valid() && config == Some(c) && c == loaded.config
      ensures logger.threshold == old(logger.threshold)
      ensures logger.emitted == old(logger.emitted)
                                + (if old(config).None? then L.Emitted(loaded.logs, old(logger.threshold)) else [])
    {
      if config.Some? {
        return config.value;
      }
      var i := 0;
      while i < |loaded.logs|
        invariant 0 <= i <= |loaded.logs|
        invariant logger.threshold == old(logger.threshold)
        invariant logger.emitted == old(logger.emitted) + L.Emitted(loaded.logs[..i], logger.threshold)
      {
        logger.Log(loaded.logs[i].level, loaded.logs[i].message);
        L.EmittedAppend(loaded.logs[..i], [loaded.logs[i]], logger.threshold);
        assert loaded.logs[..i + 1] == loaded.logs[..i] + [loaded.logs[i]];
        i := i + 1;
      }
      assert loaded.logs[..i] == loaded.logs;
      config := Some(loaded.config);
      c := loaded.config;
    }

    /** Forces `BLACKLIST`, whose value is then `Blacklist()`. */
    method ForceBlacklist()
      requires Valid() && config.Some?
      modifies this`blacklistBuilt
      ensures Valid() && blacklistBuilt
    {
      blacklistBuilt := true;
    }

    /** `logger::init`: reads `CONFIG`, then sets the threshold to its level and logs that at Debug. */
    method Init() returns (c: PluginConfig.Config)
      requires Valid()
      modifies this`config, logger
      ensures Valid() && config == Some(c) && c == loaded.config
      ensures logger.threshold == L.AsI32(c.logLevel)
      ensures logger.emitted == old(logger.emitted)
                                + (if old(config).None? then L.Emitted(loaded.logs, old(logger.threshold)) else [])
                                + L.Emitted([InitLine(c)], logger.threshold)
    {
      c := ForceConfig();
      logger.Init(c.logLevel);
    }

    /** Makes the `log` calls of `RequestGreeting(c)`, in order. */
    method GreetRequest(c: PluginConfig.Config)
      modifies logger
      ensures logger.threshold == old(logger.threshold)
      ensures logger.emitted == old(logger.emitted) + L.Emitted(RequestGreeting(c), logger.threshold)
    {
      var lines := RequestGreeting(c);
      logger.Log(lines[0].level, lines[0].message);
      logger.Log(lines[1].level, lines[1].message);
      logger.Log(lines[2].level, lines[2].message);
      L.EmittedAppend([lines[0]], [lines[1]], logger.threshold);
      L.EmittedAppend([lines[0], lines[1]], [lines[2]], logger.threshold);
      assert lines == [lines[0], lines[1]] + [lines[2]];
    }

    /** Makes the `log` calls of `ResponseGreeting()`, in order. */
    method GreetResponse()
      modifies logger
      ensures logger.threshold == old(logger.threshold)
      ensures logger.emitted == old(logger.emitted) + L.Emitted(ResponseGreeting(), logger.threshold)
    {
      var lines := ResponseGreeting();
      logger.Log(lines[0].level, lines[0].message);
      logger.Log(lines[1].level, lines[1].message);
      L.EmittedAppend([lines[0]], [lines[1]], logger.threshold);
      assert lines == [lines[0]] + [lines[1]];
    }

    /** Makes the `log` calls of `Closing(failed, done, o)`, in order. */
    method Close(failed: string, done: string, o: Outcome<Result<Unit, PluginError.TreblleError>>)
      modifies logger
      ensures logger.threshold == old(logger.threshold)
      ensures logger.emitted == old(logger.emitted) + L.Emitted(Closing(failed, done, o), logger.threshold)
    {
      var error := if o.Returned? && o.value.Err? then [L.LogLine(L.Error, failed + PluginError.Display(o.value.error))] else [];
      var closing := if o.Returned? then [L.LogLine(L.Info, done)] else [];
      if o.Returned? && o.value.Err? {
        logger.Log(L.Error, failed + PluginError.Display(o.value.error));
      }
      if o.Returned? {
        logger.Log(L.Info, done);
      }
      L.EmittedAppend(error, closing, logger.threshold);
    }

    /**
     * `handle_request`: `init`, the greeting, response buffering enabled when
     * configured, the request phase (which forces `BLACKLIST` once it has the
     * URI), its error logged, and 1 returned whatever the phase returned;
     * only a panic keeps it from returning.
     */
    method HandleRequest(env: PP.Env, host: Host) returns (r: Outcome<int>)
      requires Valid()
      modifies this`config, this`blacklistBuilt, logger, host`trace, host`bodies, host`features
      ensures Valid() && config == Some(loaded.config)
      ensures logger.threshold == L.AsI32(config.value.logLevel)
      ensures host.features == old(host.features) + (if config.value.bufferResponse then {BUFFER_RESPONSE_FEATURE} else {})
      ensures var c := config.value;
              var s := old(host.Snapshot()).(features := host.features);
              var run := RequestOf(c, Blacklist(), env, s);
              var enable := if c.bufferResponse then [EnableFeatures(BUFFER_RESPONSE_FEATURE)] else [];
              && host.trace == old(host.trace) + enable + run.events
              && host.bodies == run.bodies
              && r == (if run.outcome.Panicked? then Panicked(run.outcome.message) else Returned(1))
              && blacklistBuilt == (old(blacklistBuilt) || s.uri.Some?)
              && logger.emitted == old(logger.emitted)
                                   + (if old(config).None? then L.Emitted(loaded.logs, old(logger.threshold)) else [])
                                   + L.Emitted(RequestLines(c, PluginHttpHandler.OutcomeOf(run.outcome)), logger.threshold)
    {
      ghost var before := logger.emitted + (if config.None? then L.Emitted(loaded.logs, logger.threshold) else []);
      var c := Init();
      GreetRequest(c);
      var o := RequestPhase(c, env, host);
      Close(REQUEST_FAILED, REQUEST_DONE, o);
      r := if o.Panicked? then Panicked(o.message) else Returned(1);
      L.EmittedThree(before, [InitLine(c)], RequestGreeting(c), Closing(REQUEST_FAILED, REQUEST_DONE, o), logger.threshold);
    }

    /**
     * What `handle_request` does to the host: response buffering enabled when
     * configured, then the request phase, which forces `BLACKLIST` once it has
     * the URI.
     */
    method RequestPhase(c: PluginConfig.Config, env: PP.Env, host: Host)
      returns (o: Outcome<Result<Unit, PluginError.TreblleError>>)
      requires Valid() && config == Some(c)
      modifies this`blacklistBuilt, host`trace, host`bodies, host`features
      ensures Valid() && blacklistBuilt == (old(blacklistBuilt) || old(host.uri).Some?)
      ensures host.features == old(host.features) + (if c.bufferResponse then {BUFFER_RESPONSE_FEATURE} else {})
      ensures var run := RequestOf(c, Blacklist(), env, old(host.Snapshot()).(features := host.features));
              var enable := if c.bufferResponse then [EnableFeatures(BUFFER_RESPONSE_FEATURE)] else [];
              && host.trace == old(host.trace) + enable + run.events
              && host.bodies == run.bodies
              && o == PluginHttpHandler.OutcomeOf(run.outcome)
    {
      ghost var s, t := host.Snapshot(), host.trace;
      if c.bufferResponse {
        host.EnableFeaturesCall(BUFFER_RESPONSE_FEATURE);
      }
      ghost var enabled := host.Snapshot();
      assert enabled == s.(features := host.features);
      assert host.trace == t + (if c.bufferResponse then [EnableFeatures(BUFFER_RESPONSE_FEATURE)] else []);
      if host.uri.Some? {
        ForceBlacklist();
      }
      o := PluginHttpHandler.ProcessRequest(c, Blacklist(), env, host);
    }

    /**
     * `handle_response`: `init`, the greeting, the response phase, its error
     * logged; nothing reaches the host but a panic.
     */
    method HandleResponse(env: PP.Env, isError: int, host: Host) returns (r: Outcome<Unit>)
      requires Valid()
      modifies this`config, logger, host`trace, host`bodies
      ensures Valid() && config == Some(loaded.config) && blacklistBuilt == old(blacklistBuilt)
      ensures logger.threshold == L.AsI32(config.value.logLevel)
      ensures var c := config.value;
              var run := ResponseOf(c, env, isError, old(host.Snapshot()));
              && host.trace == old(host.trace) + run.events
              && host.bodies == run.bodies
              && r == (if run.outcome.Panicked? then Panicked(run.outcome.message) else Returned(Unit))
              && logger.emitted == old(logger.emitted)
                                   + (if old(config).None? then L.Emitted(loaded.logs, old(logger.threshold)) else [])
                                   + L.Emitted(ResponseLines(c, PluginHttpHandler.OutcomeOf(run.outcome)), logger.threshold)
    {
      ghost var before := logger.emitted + (if config.None? then L.Emitted(loaded.logs, logger.threshold) else []);
      var c := Init();
      GreetResponse();
      var o := PluginHttpHandler.ProcessResponse(c, env, isError, host);
      Close(RESPONSE_FAILED, RESPONSE_DONE, o);
      r := if o.Panicked? then Panicked(o.message) else Returned(Unit);
      L.EmittedThree(before, [InitLine(c)], ResponseGreeting(), Closing(RESPONSE_FAILED, RESPONSE_DONE, o), logger.threshold);
    }
  }
}
