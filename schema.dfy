/**
 * The telemetry record sent to the collector (rust-http-wasm/src/schema.rs)
 * and its serialised JSON shape. Floating-point fields (`version: f32`,
 * `load_time: f64`) are carried as the decimal text serde would write.
 */
module Schema {
  import opened Wrappers
  import opened Text
  import opened Json

  /** Rust's `u32`. */
  type u32 = x: int | 0 <= x < 0x1_0000_0000

  datatype OsInfo = OsInfo(name: string, release: string, architecture: string)

  datatype ServerInfo = ServerInfo(
    ip: string,
    timezone: string,
    software: Option<string>,
    signature: Option<string>,
    protocol: string,
    encoding: Option<string>,
    os: OsInfo)

  datatype LanguageInfo = LanguageInfo(
    name: string,
    version: string,
    exposePhp: Option<string>,
    displayErrors: Option<string>)

  datatype RequestInfo = RequestInfo(
    timestamp: string,
    ip: string,
    url: string,
    userAgent: string,
    verb: string,
    headers: map<string, string>,
    body: Option<Json>)

  datatype ResponseInfo = ResponseInfo(
    code: u32,
    size: nat,
    loadTime: string,
    headers: map<string, string>,
    body: Option<Json>)

  datatype ErrorInfo = ErrorInfo(
    source: string,
    errorType: string,
    message: string,
    file: string,
    line: u32)

  datatype PayloadData = PayloadData(
    server: ServerInfo,
    language: LanguageInfo,
    request: RequestInfo,
    response: ResponseInfo,
    errors: seq<ErrorInfo>)

  datatype TrebllePayload = TrebllePayload(
    apiKey: string,
    projectId: string,
    version: string,
    sdk: string,
    data: PayloadData)

  // ---------------------------------------------------------------- defaults

  const DefaultOsInfo := OsInfo("", "", "")
  const DefaultServerInfo := ServerInfo("", "", None, None, "", None, DefaultOsInfo)
  const DefaultLanguageInfo := LanguageInfo("", "", None, None)
  const DefaultRequestInfo := RequestInfo("", "", "", "", "", map[], None)
  const DefaultResponseInfo := ResponseInfo(0, 0, "0.0", map[], None)

  /** `ErrorInfo::default()`: every text field empty and line 0. */
  function DefaultErrorInfo(): (e: ErrorInfo)
    ensures e.source == e.errorType == e.message == e.file == ""
    ensures e.line == 0
  {
    ErrorInfo("", "", "", "", 0)
  }

  /** `PayloadData::default()`: every section at its default and no error recorded. */
  function DefaultPayloadData(): (d: PayloadData)
    ensures d.errors == []
    ensures d.request.body.None? && d.response.body.None?
  {
    PayloadData(DefaultServerInfo, DefaultLanguageInfo, DefaultRequestInfo, DefaultResponseInfo, [])
  }

  // ---------------------------------------------------------------- serialisation

  /**
   * `serialize_code` and `serialize_size`: the status code and the body size
   * are each written as a JSON string of their decimal digits.
   */
  function SerializeDigits(n: nat): (r: Json)
    ensures r.String? && |r.s| >= 1 && AllDigits(r.s)
    ensures ParseDigits(r.s) == n
  {
    ParseNatToString(n);
    String(NatToString(n))
  }

  /** `skip_serializing_if = "Option::is_none"` for a string field. */
  function WithOptional(m: map<string, Json>, key: string, v: Option<string>): (r: map<string, Json>)
    ensures v.None? ==> r == m
    ensures v.Some? ==> r == m[key := String(v.value)]
  {
    if v.Some? then m[key := String(v.value)] else m
  }

  /** `skip_serializing_if = "Option::is_none"` for a JSON-valued field. */
  function WithOptionalValue(m: map<string, Json>, key: string, v: Option<Json>): (r: map<string, Json>)
    ensures v.None? ==> r == m
    ensures v.Some? ==> r == m[key := v.value]
  {
    if v.Some? then m[key := v.value] else m
  }

  function OsToJson(o: OsInfo): Json {
    Object(map["name" := String(o.name), "release" := String(o.release),
               "architecture" := String(o.architecture)])
  }

  function ServerToJson(s: ServerInfo): (r: Json)
    ensures r.Object?
    ensures "software" in r.fields <==> s.software.Some?
    ensures "signature" in r.fields <==> s.signature.Some?
    ensures "encoding" in r.fields <==> s.encoding.Some?
    ensures {"ip", "timezone", "protocol", "os"} <= r.fields.Keys
  {
    var base := map["ip" := String(s.ip), "timezone" := String(s.timezone),
                     "protocol" := String(s.protocol), "os" := OsToJson(s.os)];
    Object(WithOptional(WithOptional(WithOptional(base, "software", s.software),
                                     "signature", s.signature), "encoding", s.encoding))
  }

  function LanguageToJson(l: LanguageInfo): (r: Json)
    ensures r.Object?
    ensures "expose_php" in r.fields <==> l.exposePhp.Some?
    ensures "display_errors" in r.fields <==> l.displayErrors.Some?
    ensures {"name", "version"} <= r.fields.Keys
  {
    var base := map["name" := String(l.name), "version" := String(l.version)];
    Object(WithOptional(WithOptional(base, "expose_php", l.exposePhp), "display_errors", l.displayErrors))
  }

  function RequestToJson(q: RequestInfo): (r: Json)
    ensures r.Object?
    ensures "body" in r.fields <==> q.body.Some?
    ensures q.body.Some? ==> r.fields["body"] == q.body.value
    ensures {"timestamp", "ip", "url", "user_agent", "method", "headers"} <= r.fields.Keys
  {
    var base := map["timestamp" := String(q.timestamp), "ip" := String(q.ip), "url" := String(q.url),
                     "user_agent" := String(q.userAgent), "method" := String(q.verb),
                     "headers" := StringMapToJson(q.headers)];
    Object(WithOptionalValue(base, "body", q.body))
  }

  function ResponseToJson(p: ResponseInfo): (r: Json)
    ensures r.Object?
    ensures "body" in r.fields <==> p.body.Some?
    ensures p.body.Some? ==> r.fields["body"] == p.body.value
    ensures {"code", "size", "load_time", "headers"} <= r.fields.Keys
    ensures r.fields["code"].String? && AllDigits(r.fields["code"].s) && ParseDigits(r.fields["code"].s) == p.code
    ensures r.fields["size"].String? && AllDigits(r.fields["size"].s) && ParseDigits(r.fields["size"].s) == p.size
  {
    var base := map["code" := SerializeDigits(p.code), "size" := SerializeDigits(p.size),
                     "load_time" := Number(p.loadTime), "headers" := StringMapToJson(p.headers)];
    Object(WithOptionalValue(base, "body", p.body))
  }

  function ErrorToJson(e: ErrorInfo): Json {
    Object(map["source" := String(e.source), "error_type" := String(e.errorType),
               "message" := String(e.message), "file" := String(e.file),
               "line" := Number(NatToString(e.line))])
  }

  function DataToJson(d: PayloadData): (r: Json)
    ensures r.Object? && r.fields.Keys == {"server", "language", "request", "response", "errors"}
    ensures r.fields["errors"].Array? && |r.fields["errors"].items| == |d.errors|
  {
    Object(map["server" := ServerToJson(d.server), "language" := LanguageToJson(d.language),
               "request" := RequestToJson(d.request), "response" := ResponseToJson(d.response),
               "errors" := Array(seq(|d.errors|, i requires 0 <= i < |d.errors| => ErrorToJson(d.errors[i])))])
  }

  /** Field names of the top-level record. */
  const TopLevelKeys: set<string> := {"api_key", "project_id", "version", "sdk", "data"}

  /** The serialised record: always exactly the five top-level fields. */
  function ToJson(p: TrebllePayload): (r: Json)
    ensures r.Object? && r.fields.Keys == TopLevelKeys
    ensures r.fields["api_key"] == String(p.apiKey) && r.fields["project_id"] == String(p.projectId)
    ensures r.fields["sdk"] == String(p.sdk)
  {
    Object(map["api_key" := String(p.apiKey), "project_id" := String(p.projectId),
               "version" := Number(p.version), "sdk" := String(p.sdk), "data" := DataToJson(p.data)])
  }
}
