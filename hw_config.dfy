/** The configuration of the rust-http-wasm crate (rust-http-wasm/src/config.rs). */
module HttpWasmConfig {
  import opened Wrappers
  import opened Json
  import opened ConfigValue
  import HttpWasmConstants
  import HttpWasmError
  import Logger

  datatype Config = Config(
    treblleApiUrls: seq<string>,
    apiKey: string,
    projectId: string,
    routeBlacklist: seq<string>,
    sensitiveKeysRegex: string,
    bufferResponse: bool)

  /**
   * The default collector list. The crate's constants define only the single
   * `DEFAULT_TREBLLE_API_URL`; the list is that one URL.
   */
  const DEFAULT_TREBLLE_API_URLS: seq<string> := [HttpWasmConstants.DEFAULT_TREBLLE_API_URL]

  /** `from_value`: every field read with its own default. */
  function FromValue(v: Json): (c: Config)
    ensures StringListField(v, "treblleApiUrls").None? ==> c.treblleApiUrls == DEFAULT_TREBLLE_API_URLS
    ensures (Get(v, "treblleApiUrls").Some? && Get(v, "treblleApiUrls").value.Array?)
              ==> c.treblleApiUrls == StringsOf(Get(v, "treblleApiUrls").value.items)
    ensures c.apiKey == StringField(v, "apiKey").UnwrapOr("")
    ensures c.projectId == StringField(v, "projectId").UnwrapOr("")
    ensures StringListField(v, "routeBlacklist").None? ==> c.routeBlacklist == []
    ensures (Get(v, "routeBlacklist").Some? && Get(v, "routeBlacklist").value.Array?)
              ==> c.routeBlacklist == StringsOf(Get(v, "routeBlacklist").value.items)
    ensures c.sensitiveKeysRegex == StringField(v, "sensitiveKeysRegex").UnwrapOr(HttpWasmConstants.DEFAULT_SENSITIVE_KEYS_REGEX)
    ensures c.bufferResponse == BufferResponseField(v)
  {
    Config(
      StringListField(v, "treblleApiUrls").UnwrapOr(DEFAULT_TREBLLE_API_URLS),
      StringField(v, "apiKey").UnwrapOr(""),
      StringField(v, "projectId").UnwrapOr(""),
      StringListField(v, "routeBlacklist").UnwrapOr([]),
      StringField(v, "sensitiveKeysRegex").UnwrapOr(HttpWasmConstants.DEFAULT_SENSITIVE_KEYS_REGEX),
      BufferResponseField(v))
  }

  /** `fallback`: the default collector, no credentials, no blacklist, the default pattern, no buffering. */
  function Fallback(): (c: Config)
    ensures c.treblleApiUrls == DEFAULT_TREBLLE_API_URLS
    ensures c.apiKey == "" && c.projectId == "" && c.routeBlacklist == []
    ensures c.sensitiveKeysRegex == HttpWasmConstants.DEFAULT_SENSITIVE_KEYS_REGEX
    ensures !c.bufferResponse
  {
    Config(DEFAULT_TREBLLE_API_URLS, "", "", [], HttpWasmConstants.DEFAULT_SENSITIVE_KEYS_REGEX, false)
  }

  /** `get`: the host's raw configuration text, parsed as JSON. */
  function GetFromHost(raw: string, parse: TextParser): (r: Result<Json, HttpWasmError.TreblleError>)
    ensures r.Ok? <==> parse(raw).Ok?
    ensures r.Ok? ==> r.value == parse(raw).value
    ensures r.Err? ==> r.error == HttpWasmError.Json(parse(raw).error)
  {
    match parse(raw)
    case Err(e) => Err(HttpWasmError.Json(e))
    case Ok(v) => Ok(v)
  }

  /** The configuration chosen at start-up and the `host_log` calls made while choosing it. */
  datatype Loaded = Loaded(config: Config, logs: seq<Logger.Record>)

  /**
   * `get_or_fallback`: the parsed configuration whenever the text parses, with
   * no check of the credentials; the fallback otherwise, with an error logged.
   */
  function GetOrFallback(raw: string, parse: TextParser, render: Renderer): (r: Loaded)
    ensures parse(raw).Ok? ==> r.config == FromValue(parse(raw).value)
    ensures parse(raw).Err? ==> r.config == Fallback()
    ensures |r.logs| == 1
    ensures r.logs[0].code == (if parse(raw).Ok? then HttpWasmConstants.LOG_LEVEL_INFO else HttpWasmConstants.LOG_LEVEL_ERROR)
    ensures parse(raw).Ok? ==> r.logs[0].message == "Received config from host: " + render(parse(raw).value)
    ensures parse(raw).Err? ==>
              r.logs[0].message == "Failed to parse config: " + HttpWasmError.Display(HttpWasmError.Json(parse(raw).error)) + ", using fallback"
  {
    match GetFromHost(raw, parse)
    case Ok(v) =>
      Loaded(FromValue(v), [Logger.Record(HttpWasmConstants.LOG_LEVEL_INFO, "Received config from host: " + render(v))])
    case Err(e) =>
      Loaded(Fallback(), [Logger.Record(HttpWasmConstants.LOG_LEVEL_ERROR,
                                        "Failed to parse config: " + HttpWasmError.Display(e) + ", using fallback")])
  }

  /** Unlike the plugin crate, a configuration without credentials is accepted as it is. */
  lemma NoCredentialCheck(raw: string, parse: TextParser, render: Renderer)
    requires parse(raw) == Ok(Object(map["bufferResponse" := Bool(true)]))
    ensures GetOrFallback(raw, parse, render).config.apiKey == ""
    ensures GetOrFallback(raw, parse, render).config.bufferResponse
    ensures GetOrFallback(raw, parse, render).config != Fallback()
  {
  }

  /** An empty configuration object reads as exactly the fallback configuration. */
  lemma EmptyObjectIsFallback()
    ensures FromValue(Object(map[])) == Fallback()
  {
  }
}
