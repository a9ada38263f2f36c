/**
 * The telemetry record under construction (treblle-wasm-plugin/src/payload.rs):
 * a `Payload` object whose `data` the handlers fill section by section and
 * whose error list is only ever appended to.
 *
 * The crate's own schema.rs and utils.rs are not part of this model; the
 * record types and `parse_request`/`parse_response` are rust-http-wasm's
 * (`Schema`, `Utils`), taken to agree with them.
 */
module PluginPayload {
  import opened Wrappers
  import opened Text
  import opened Json
  import opened Schema
  import R = Regex
  import Utils

  /** The fixed `version: 0.6` of every record, as serde writes it. */
  const VERSION: string := "0.6"
  const SDK: string := "rust-wasm"
  const REQUEST_PANIC: string := "Error parsing request"
  const RESPONSE_PANIC: string := "Error parsing response"
  /** What the source writes where it does not detect a value. */
  const UNKNOWN: string := "Unknown"

  /**
   * What the source reads from outside the record: the regex engine and JSON
   * parser, the clock (`timestamp`, the elapsed `loadTime`, the local
   * `timezone`), the target's OS and architecture, and the crate version.
   */
  datatype Env = Env(
    engine: R.Engine,
    parse: BytesParser,
    timestamp: string,
    loadTime: string,
    timezone: string,
    osName: string,
    architecture: string,
    crateVersion: string)

  /** The record `Payload::new` starts from. */
  function Initial(apiKey: string, projectId: string): (p: TrebllePayload)
    ensures p.apiKey == apiKey && p.projectId == projectId
    ensures p.sdk == SDK && p.version == VERSION
    ensures p.data == DefaultPayloadData() && p.data.errors == []
  {
    TrebllePayload(apiKey, projectId, VERSION, SDK, DefaultPayloadData())
  }

  /** The server section `update_server_info` writes. */
  function ServerSection(protocol: string, env: Env): (s: ServerInfo)
    ensures s.protocol == protocol && s.ip == UNKNOWN && s.os.release == UNKNOWN
    ensures s.software.None? && s.signature.None? && s.encoding.None?
  {
    ServerInfo(UNKNOWN, env.timezone, None, None, protocol, None, OsInfo(env.osName, UNKNOWN, env.architecture))
  }

  /** The language section `update_language_info` writes. */
  function LanguageSection(env: Env): (l: LanguageInfo)
    ensures l.name == "rust" && l.version == env.crateVersion
    ensures l.exposePhp.None? && l.displayErrors.None?
  {
    LanguageInfo("rust", env.crateVersion, None, None)
  }

  class Payload {
    var data: TrebllePayload

    /** `Payload::new`: the credentials of `CONFIG`, the fixed version and SDK name, default sections. */
    constructor(apiKey: string, projectId: string)
      ensures data == Initial(apiKey, projectId)
    {
      data := Initial(apiKey, projectId);
    }

    /**
     * `update_request_info`: replaces the request section by what
     * `parse_request` builds; its `expect` panics when that fails, which it
     * does exactly for an invalid sensitive-key pattern.
     */
    method UpdateRequestInfo(verb: string, url: string, headers: map<string, string>, body: seq<byte>,
                             pattern: string, env: Env) returns (r: Outcome<Unit>)
      modifies this
      ensures r.Panicked? <==> !env.engine.compiles(pattern)
      ensures r.Panicked? ==> r.message == REQUEST_PANIC && data == old(data)
      ensures r.Returned? ==>
                data == old(data).(data := old(data).data.(request :=
                  Utils.ParseRequest(verb, url, headers, body, pattern, env.engine, env.parse, env.timestamp).value))
    {
      var parsed := Utils.ParseRequest(verb, url, headers, body, pattern, env.engine, env.parse, env.timestamp);
      if parsed.Err? {
        return Panicked(REQUEST_PANIC);
      }
      data := data.(data := data.data.(request := parsed.value));
      r := Returned(Unit);
    }

    /** `update_response_info`: replaces the response section by what `parse_response` builds, or panics. */
    method UpdateResponseInfo(status: u32, headers: map<string, string>, body: seq<byte>,
                              pattern: string, env: Env) returns (r: Outcome<Unit>)
      modifies this
      ensures r.Panicked? <==> !env.engine.compiles(pattern)
      ensures r.Panicked? ==> r.message == RESPONSE_PANIC && data == old(data)
      ensures r.Returned? ==>
                data == old(data).(data := old(data).data.(response :=
                  Utils.ParseResponse(status, headers, body, env.loadTime, pattern, env.engine, env.parse).value))
    {
      var parsed := Utils.ParseResponse(status, headers, body, env.loadTime, pattern, env.engine, env.parse);
      if parsed.Err? {
        return Panicked(RESPONSE_PANIC);
      }
      data := data.(data := data.data.(response := parsed.value));
      r := Returned(Unit);
    }

    /** `add_error`: one entry at the end of the error list; nothing else changes. */
    method AddError(error: ErrorInfo)
      modifies this
      ensures data == old(data).(data := old(data).data.(errors := old(data).data.errors + [error]))
    {
      data := data.(data := data.data.(errors := data.data.errors + [error]));
    }

    /** `update_server_info`: replaces the server section only. */
    method UpdateServerInfo(protocol: string, env: Env)
      modifies this
      ensures data == old(data).(data := old(data).data.(server := ServerSection(protocol, env)))
    {
      data := data.(data := data.data.(server := ServerSection(protocol, env)));
    }

    /** `update_language_info`: replaces the language section only. */
    method UpdateLanguageInfo(env: Env)
      modifies this
      ensures data == old(data).(data := old(data).data.(language := LanguageSection(env)))
    {
      data := data.(data := data.data.(language := LanguageSection(env)));
    }

    /** `to_json`: the serialised record, always with its five top-level fields and the credentials. */
    function ToJson(): (r: Json)
      reads this
      ensures r.Object? && r.fields.Keys == TopLevelKeys
      ensures r.fields["api_key"] == String(data.apiKey) && r.fields["project_id"] == String(data.projectId)
    {
      Schema.ToJson(data)
    }
  }

  /** `is_json`: the crate's own content-type test delegates to the shared one. */
  predicate IsJson(contentType: string) {
    Utils.IsJson(contentType)
  }

  /** A JSON content type with parameters is accepted; plain text is not. */
  lemma IsJsonExamples()
    ensures IsJson("application/json; charset=utf-8")
    ensures IsJson("application/json")
    ensures !IsJson("text/plain")
  {
    assert ToLower("application/json; charset=utf-8")[..16] == "application/json";
    assert ToLower("application/json") == "application/json";
  }
}
