/**
 * The error taxonomy of the rust-http-wasm crate (rust-http-wasm/src/error.rs):
 * eight variants, their display texts and their `error_type` labels.
 */
module HttpWasmError {
  import J = Json
  import R = Regex
  import IoM = Io

  datatype TreblleError =
    | Http(msg: string)
    | Json(json: J.JsonError)
    | Io(io: IoM.IoError)
    | Regex(regex: R.Error)
    | HostFunction(msg: string)
    | Config(msg: string)
    | Payload(msg: string)
    | Unexpected(msg: string)

  /** The position of the variant in the declaration, used to compare variants. */
  function Tag(e: TreblleError): nat {
    match e
    case Http(_) => 0
    case Json(_) => 1
    case Io(_) => 2
    case Regex(_) => 3
    case HostFunction(_) => 4
    case Config(_) => 5
    case Payload(_) => 6
    case Unexpected(_) => 7
  }

  /** `error_type`: a fixed label per variant, and no two variants share a label. */
  function ErrorType(e: TreblleError): string {
    match e
    case Http(_) => "HTTP Error"
    case Json(_) => "JSON Error"
    case Io(_) => "I/O Error"
    case Regex(_) => "Regex Error"
    case HostFunction(_) => "Host Function Error"
    case Config(_) => "Configuration Error"
    case Payload(_) => "Payload Error"
    case Unexpected(_) => "Unexpected Error"
  }

  /** The text before the variant's payload in the `Display` output. */
  function Prefix(e: TreblleError): string {
    match e
    case Http(_) => "HTTP error: "
    case Json(_) => "JSON error: "
    case Io(_) => "I/O error: "
    case Regex(_) => "Regex error: "
    case HostFunction(_) => "Host function error: "
    case Config(_) => "Configuration error: "
    case Payload(_) => "Payload error: "
    case Unexpected(_) => "Unexpected error: "
  }

  /** The payload's own display text. */
  function Detail(e: TreblleError): string {
    match e
    case Json(j) => j.message
    case Io(i) => i.message
    case Regex(x) => x.message
    case Http(s) => s
    case HostFunction(s) => s
    case Config(s) => s
    case Payload(s) => s
    case Unexpected(s) => s
  }

  /** The `#[error(...)]` display text: the variant's prefix, then its payload. */
  function Display(e: TreblleError): (r: string)
    ensures 11 <= |Prefix(e)| <= |r| && r[..|Prefix(e)|] == Prefix(e)
  {
    Prefix(e) + Detail(e)
  }

  /** Distinct variants have distinct labels. */
  lemma ErrorTypeDistinct(a: TreblleError, b: TreblleError)
    ensures ErrorType(a) == ErrorType(b) <==> Tag(a) == Tag(b)
  {
  }

  /** Reads the variant back from the first two characters of a display text. */
  function TagOfInitials(c0: char, c1: char): nat {
    if c0 == 'H' && c1 == 'T' then 0
    else if c0 == 'J' then 1
    else if c0 == 'I' then 2
    else if c0 == 'R' then 3
    else if c0 == 'H' then 4
    else if c0 == 'C' then 5
    else if c0 == 'P' then 6
    else 7
  }

  lemma InitialsGiveTag(e: TreblleError)
    ensures TagOfInitials(Display(e)[0], Display(e)[1]) == Tag(e)
  {
    assert Display(e)[0] == Prefix(e)[0] && Display(e)[1] == Prefix(e)[1];
  }

  /** The display text alone tells which variant produced it, and for a text payload, which text. */
  lemma {:induction false} DisplayDeterminesVariant(a: TreblleError, b: TreblleError)
    requires Display(a) == Display(b)
    ensures Tag(a) == Tag(b)
    ensures Tag(a) != 1 && Tag(a) != 2 && Tag(a) != 3 ==> a == b
  {
    InitialsGiveTag(a);
    InitialsGiveTag(b);
    assert Prefix(a) == Prefix(b);
    assert Detail(a) == Display(a)[|Prefix(a)|..] == Display(b)[|Prefix(b)|..] == Detail(b);
  }

  /** `From<std::io::Error>`. */
  function FromIo(e: IoM.IoError): (r: TreblleError)
    ensures r.Io? && r.io == e && ErrorType(r) == "I/O Error"
  {
    Io(e)
  }

  /** `From<serde_json::Error>`. */
  function FromJson(e: J.JsonError): (r: TreblleError)
    ensures r.Json? && r.json == e && ErrorType(r) == "JSON Error"
  {
    Json(e)
  }

  /** `From<regex::Error>`. */
  function FromRegex(e: R.Error): (r: TreblleError)
    ensures r.Regex? && r.regex == e && ErrorType(r) == "Regex Error"
  {
    Regex(e)
  }
}
