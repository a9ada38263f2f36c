/** The configuration of the treblle-wasm-plugin crate (treblle-wasm-plugin/src/config.rs). */
module PluginConfig {
  import opened Wrappers
  import opened Text
  import opened Json
  import opened ConfigValue
  import PluginConstants
  import Logger
  import PluginError

  datatype Config = Config(
    treblleApiUrls: seq<string>,
    apiKey: string,
    projectId: string,
    routeBlacklist: seq<string>,
    sensitiveKeysRegex: string,
    bufferResponse: bool,
    logLevel: Logger.LogLevel,
    rootCaPath: Option<string>)

  /** `from_value`: every field read with its own default; nothing here can fail. */
  function FromValue(v: Json): (c: Config)
    ensures StringListField(v, "treblleApiUrls").None? ==> c.treblleApiUrls == PluginConstants.DEFAULT_TREBLLE_API_URLS
    ensures (Get(v, "treblleApiUrls").Some? && Get(v, "treblleApiUrls").value.Array?)
              ==> c.treblleApiUrls == StringsOf(Get(v, "treblleApiUrls").value.items)
    ensures c.apiKey == StringField(v, "apiKey").UnwrapOr("")
    ensures c.projectId == StringField(v, "projectId").UnwrapOr("")
    ensures StringListField(v, "routeBlacklist").None? ==> c.routeBlacklist == []
    ensures (Get(v, "routeBlacklist").Some? && Get(v, "routeBlacklist").value.Array?)
              ==> c.routeBlacklist == StringsOf(Get(v, "routeBlacklist").value.items)
    ensures c.sensitiveKeysRegex == StringField(v, "sensitiveKeysRegex").UnwrapOr(PluginConstants.DEFAULT_SENSITIVE_KEYS_REGEX)
    ensures c.bufferResponse == BufferResponseField(v)
    ensures StringField(v, "logLevel").None? ==> c.logLevel == Logger.None
    ensures StringField(v, "logLevel").Some? ==> c.logLevel == Logger.FromStr(StringField(v, "logLevel").value)
    ensures c.rootCaPath == StringField(v, "rootCaPath")
  {
    Config(
      StringListField(v, "treblleApiUrls").UnwrapOr(PluginConstants.DEFAULT_TREBLLE_API_URLS),
      StringField(v, "apiKey").UnwrapOr(""),
      StringField(v, "projectId").UnwrapOr(""),
      StringListField(v, "routeBlacklist").UnwrapOr([]),
      StringField(v, "sensitiveKeysRegex").UnwrapOr(PluginConstants.DEFAULT_SENSITIVE_KEYS_REGEX),
      BufferResponseField(v),
      match StringField(v, "logLevel") { case Some(s) => Logger.FromStr(s) case None => Logger.Default() },
      StringField(v, "rootCaPath"))
  }

  /** `fallback`: the default collectors, no credentials, no blacklist, the default pattern. */
  function Fallback(): (c: Config)
    ensures c.treblleApiUrls == PluginConstants.DEFAULT_TREBLLE_API_URLS
    ensures c.apiKey == "" && c.projectId == "" && c.routeBlacklist == []
    ensures c.sensitiveKeysRegex == PluginConstants.DEFAULT_SENSITIVE_KEYS_REGEX
    ensures !c.bufferResponse && c.logLevel == Logger.None && c.rootCaPath.None?
  {
    Config(PluginConstants.DEFAULT_TREBLLE_API_URLS, "", "", [], PluginConstants.DEFAULT_SENSITIVE_KEYS_REGEX,
           false, Logger.None, None)
  }

  /** `validate`: both credentials are required; the API key is checked first. */
  function Validate(c: Config): (r: Result<Unit, PluginError.TreblleError>)
    ensures r.Ok? <==> c.apiKey != "" && c.projectId != ""
    ensures c.apiKey == "" ==> r == Err(PluginError.Config("API key is required"))
    ensures c.apiKey != "" && c.projectId == "" ==> r == Err(PluginError.Config("Project ID is required"))
  {
    if c.apiKey == "" then Err(PluginError.Config("API key is required"))
    else if c.projectId == "" then Err(PluginError.Config("Project ID is required"))
    else Ok(Unit)
  }

  /** The fallback configuration itself never validates: it has no API key. */
  lemma FallbackNeverValidates()
    ensures Validate(Fallback()) == Err(PluginError.Config("API key is required"))
  {
  }

  /**
   * `get`: the raw configuration from the host, parsed as JSON. `raw` is what
   * `host_get_config` returned; `parse` is `serde_json::from_str`.
   */
  function GetFromHost(raw: Result<string, PluginError.TreblleError>, parse: TextParser): (r: Result<Json, PluginError.TreblleError>)
    ensures raw.Err? ==> r == Err(raw.error)
    ensures raw.Ok? && parse(raw.value).Err? ==> r == Err(PluginError.Json(parse(raw.value).error))
    ensures r.Ok? <==> raw.Ok? && parse(raw.value).Ok?
    ensures r.Ok? ==> r.value == parse(raw.value).value
  {
    match raw
    case Err(e) => Err(e)
    case Ok(text) =>
      match parse(text)
      case Err(e) => Err(PluginError.Json(e))
      case Ok(v) => Ok(v)
  }

  /** The configuration chosen at start-up, with the log calls made while choosing it. */
  datatype Loaded = Loaded(config: Config, logs: seq<Logger.LogLine>)

  /**
   * `get_or_fallback`: the host's configuration when it parses and validates,
   * the fallback otherwise. `render` is the `Display` of a JSON value.
   */
  function GetOrFallback(raw: Result<string, PluginError.TreblleError>, parse: TextParser, render: Renderer): (r: Loaded)
    ensures (GetFromHost(raw, parse).Ok? && Validate(FromValue(GetFromHost(raw, parse).value)).Ok?)
              ==> r.config == FromValue(GetFromHost(raw, parse).value)
    ensures GetFromHost(raw, parse).Err? || Validate(FromValue(GetFromHost(raw, parse).value)).Err? ==> r.config == Fallback()
    ensures Validate(r.config).Ok? || r.config == Fallback()
    ensures forall i :: 0 <= i < |r.logs| ==> r.logs[i].level == Logger.Debug || r.logs[i].level == Logger.Error
    ensures GetFromHost(raw, parse).Ok? ==>
              var v := GetFromHost(raw, parse).value;
              var received := Logger.LogLine(Logger.Debug, "Received config from host: " + render(v));
              r.logs == match Validate(FromValue(v)) {
                case Ok(_) => [received]
                case Err(e) => [received, Logger.LogLine(Logger.Error, "Invalid configuration: " + PluginError.Display(e))]
              }
    ensures GetFromHost(raw, parse).Err? ==>
              r.logs == [Logger.LogLine(Logger.Error, "Failed to parse config: " + PluginError.Display(GetFromHost(raw, parse).error) + ", using fallback"),
                         Logger.LogLine(Logger.Error, "Fallback configuration is invalid: " + PluginError.Display(PluginError.Config("API key is required")))]
  {
    match GetFromHost(raw, parse)
    case Ok(v) =>
      var received := Logger.LogLine(Logger.Debug, "Received config from host: " + render(v));
      var config := FromValue(v);
      match Validate(config) {
        case Ok(_) => Loaded(config, [received])
        case Err(e) =>
          Loaded(Fallback(), [received, Logger.LogLine(Logger.Error, "Invalid configuration: " + PluginError.Display(e))])
      }
    case Err(e) =>
      var fallback := Fallback();
      var failed := Logger.LogLine(Logger.Error, "Failed to parse config: " + PluginError.Display(e) + ", using fallback");
      match Validate(fallback)
      case Err(f) => Loaded(fallback, [failed, Logger.LogLine(Logger.Error, "Fallback configuration is invalid: " + PluginError.Display(f))])
      case Ok(_) => Loaded(fallback, [failed])
  }

  /** Whenever the host's configuration is rejected, the log says so at Error level. */
  lemma RejectionIsLogged(raw: Result<string, PluginError.TreblleError>, parse: TextParser, render: Renderer)
    requires GetFromHost(raw, parse).Err? || Validate(FromValue(GetFromHost(raw, parse).value)).Err?
    ensures exists i :: 0 <= i < |GetOrFallback(raw, parse, render).logs| && GetOrFallback(raw, parse, render).logs[i].level == Logger.Error
  {
    var r := GetOrFallback(raw, parse, render);
    if GetFromHost(raw, parse).Err? {
      assert r.logs[0].level == Logger.Error;
    } else {
      assert r.logs[1].level == Logger.Error;
    }
  }

  /** An empty configuration object reads as exactly the fallback configuration. */
  lemma EmptyObjectIsFallback()
    ensures FromValue(Object(map[])) == Fallback()
  {
  }

  /**
   * Log-level names are read case-insensitively: any spelling reads as its
   * lower-case form does, so `WARNING` is `Warn`.
   */
  lemma LogLevelWarningUpperCase(name: string)
    ensures FromValue(Object(map["logLevel" := String(name)])).logLevel == Logger.FromStr(ToLower(name))
    ensures FromValue(Object(map["logLevel" := String("WARNING")])).logLevel == Logger.Warn
  {
    Logger.FromStrIgnoresCase(name);
    assert ToLower("WARNING") == "warning";
  }
}
