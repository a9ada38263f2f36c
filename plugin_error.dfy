/**
 * The error taxonomy of the treblle-wasm-plugin crate
 * (treblle-wasm-plugin/src/error.rs): twelve variants and their display texts.
 */
module PluginError {
  import J = Json
  import R = Regex
  import IoM = Io
  import HttpWasmError

  /** `rustls::Error`, opaque apart from its message. */
  datatype TlsError = TlsError(message: string)

  datatype TreblleError =
    | Io(io: IoM.IoError)
    | Http(msg: string)
    | Json(json: J.JsonError)
    | InvalidUrl(msg: string)
    | InvalidHostname(msg: string)
    | Tls(tls: TlsError)
    | Tcp(msg: string)
    | Certificate(msg: string)
    | Timeout
    | Config(msg: string)
    | Regex(regex: R.Error)
    | HostFunction(msg: string)

  /** The position of the variant in the declaration. */
  function Tag(e: TreblleError): nat {
    match e
    case Io(_) => 0
    case Http(_) => 1
    case Json(_) => 2
    case InvalidUrl(_) => 3
    case InvalidHostname(_) => 4
    case Tls(_) => 5
    case Tcp(_) => 6
    case Certificate(_) => 7
    case Timeout => 8
    case Config(_) => 9
    case Regex(_) => 10
    case HostFunction(_) => 11
  }

  /** The `#[error(...)]` display text of each variant. */
  function Display(e: TreblleError): (r: string)
    ensures |r| >= 11
  {
    match e
    case Io(x) => "I/O error: " + x.message
    case Http(s) => "HTTP error: " + s
    case Json(x) => "JSON error: " + x.message
    case InvalidUrl(s) => "Invalid URL: " + s
    case InvalidHostname(s) => "Invalid hostname: " + s
    case Tls(x) => "TLS error: " + x.message
    case Tcp(s) => "TCP error: " + s
    case Certificate(s) => "Certificate error: " + s
    case Timeout => "Operation timed out"
    case Config(s) => "Config error: " + s
    case Regex(x) => "Regex error: " + x.message
    case HostFunction(s) => "Host function error: " + s
  }

  /** Reads the variant back from characters 0, 1 and 8 of a display text. */
  function TagOfInitials(c0: char, c1: char, c8: char): nat {
    if c0 == 'I' && c1 == '/' then 0
    else if c0 == 'H' && c1 == 'T' then 1
    else if c0 == 'J' then 2
    else if c0 == 'I' && c8 == 'U' then 3
    else if c0 == 'I' then 4
    else if c0 == 'T' && c1 == 'L' then 5
    else if c0 == 'T' then 6
    else if c0 == 'C' && c1 == 'e' then 7
    else if c0 == 'O' then 8
    else if c0 == 'C' then 9
    else if c0 == 'R' then 10
    else 11
  }

  lemma InitialsGiveTag(e: TreblleError)
    ensures TagOfInitials(Display(e)[0], Display(e)[1], Display(e)[8]) == Tag(e)
  {
  }

  /** No two variants can produce the same display text. */
  lemma {:induction false} DisplayDeterminesVariant(a: TreblleError, b: TreblleError)
    requires Display(a) == Display(b)
    ensures Tag(a) == Tag(b)
  {
    InitialsGiveTag(a);
    InitialsGiveTag(b);
  }

  /** A configuration error reads "Config error: ..." here, unlike the other crate's "Configuration error: ...". */
  lemma ConfigDisplayDiffersBetweenCrates(s: string)
    ensures Display(Config(s)) == "Config error: " + s
    ensures HttpWasmError.Display(HttpWasmError.Config(s)) == "Configuration error: " + s
    ensures Display(Config(s)) != HttpWasmError.Display(HttpWasmError.Config(s))
  {
    assert Display(Config(s))[6] == ' ' && HttpWasmError.Display(HttpWasmError.Config(s))[6] == 'u';
  }

  /** `From<std::io::Error>`. */
  function FromIo(e: IoM.IoError): (r: TreblleError)
    ensures r.Io? && r.io == e && Display(r) == "I/O error: " + e.message
  {
    Io(e)
  }

  /** `From<serde_json::Error>`. */
  function FromJson(e: J.JsonError): (r: TreblleError)
    ensures r.Json? && r.json == e && Display(r) == "JSON error: " + e.message
  {
    Json(e)
  }

  /** `From<rustls::Error>`. */
  function FromTls(e: TlsError): (r: TreblleError)
    ensures r.Tls? && r.tls == e && Display(r) == "TLS error: " + e.message
  {
    Tls(e)
  }

  /** `From<regex::Error>`. */
  function FromRegex(e: R.Error): (r: TreblleError)
    ensures r.Regex? && r.regex == e && Display(r) == "Regex error: " + e.message
  {
    Regex(e)
  }
}
