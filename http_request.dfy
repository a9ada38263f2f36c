/**
 * The part of `wasmedge_http_req` that both `http_client.rs` files use: a
 * POST request built with three headers, a body and a timeout, sent once,
 * and the status of the answer. The network is not modelled: whether the
 * URI parses and what the send returns are inputs.
 */
module HttpRequest {
  import opened Wrappers
  import opened Text

  datatype Header = Header(name: string, value: string)

  /** What `attempt_post` sets on its `request::Request` before sending it. */
  datatype Request = Request(uri: string, verb: string, headers: seq<Header>, body: seq<byte>,
                             timeoutSecs: nat, rootCert: Option<string>)

  /** A received answer: its status code and its body as `from_utf8_lossy` text. */
  datatype Response = Response(status: nat, body: string)

  /** `StatusCode::is_success`: the 2xx range. */
  predicate IsSuccess(status: nat) {
    200 <= status <= 299
  }

  const INVALID_URL: string := "Invalid URL: "
  const SEND_FAILED: string := "Failed to send POST request: "
  const HTTP_ERROR: string := "HTTP error: "
  const RESPONSE_BODY: string := ". Response body: "

  /** The request `attempt_post` builds for `url`. */
  function PostRequest(url: string, payload: seq<byte>, apiKey: string, timeoutSecs: nat, rootCert: Option<string>): Request {
    Request(url, "POST",
            [Header("Content-Type", "application/json"), Header("X-Api-Key", apiKey),
             Header("Content-Length", NatToString(|payload|))],
            payload, timeoutSecs, rootCert)
  }

  /**
   * The request declares a JSON body, carries the key, and its length header
   * reads back as the number of payload bytes it carries.
   */
  lemma PostHeaders(url: string, payload: seq<byte>, apiKey: string, timeoutSecs: nat, rootCert: Option<string>)
    ensures var q := PostRequest(url, payload, apiKey, timeoutSecs, rootCert);
            && q.verb == "POST" && q.uri == url && q.body == payload && |q.headers| == 3
            && q.headers[0] == Header("Content-Type", "application/json")
            && q.headers[1] == Header("X-Api-Key", apiKey)
            && q.headers[2].name == "Content-Length" && AllDigits(q.headers[2].value)
            && ParseDigits(q.headers[2].value) == |q.body|
  {
    ParseNatToString(|payload|);
  }

  /** The message of a non-2xx answer: its status, then the body. */
  function StatusMessage(response: Response): string {
    HTTP_ERROR + NatToString(response.status) + RESPONSE_BODY + response.body
  }

  /**
   * One `attempt_post`: the URI must parse (`uri` is the parser's verdict),
   * the send must return (`reply`), and the status must be a success; each
   * failure gives its own message.
   */
  function Attempt(uri: Result<Unit, string>, reply: Result<Response, string>): (r: Result<Unit, string>)
    ensures r.Ok? <==> uri.Ok? && reply.Ok? && IsSuccess(reply.value.status)
    ensures uri.Err? ==> r == Err(INVALID_URL + uri.error)
    ensures uri.Ok? && reply.Err? ==> r == Err(SEND_FAILED + reply.error)
    ensures uri.Ok? && reply.Ok? && !IsSuccess(reply.value.status) ==> r == Err(StatusMessage(reply.value))
  {
    if uri.Err? then Err(INVALID_URL + uri.error)
    else if reply.Err? then Err(SEND_FAILED + reply.error)
    else if IsSuccess(reply.value.status) then Ok(Unit)
    else Err(StatusMessage(reply.value))
  }

  /** A failed status can be read back from its message: the digits before the first '.' after the prefix. */
  lemma {:induction false} StatusReadsBack(response: Response)
    ensures var m := StatusMessage(response);
            && |m| >= |HTTP_ERROR| && m[..|HTTP_ERROR|] == HTTP_ERROR
            && var digits := BeforeFirst(m[|HTTP_ERROR|..], '.');
               AllDigits(digits) && ParseDigits(digits) == response.status
  {
    var digits := NatToString(response.status);
    var rest := " Response body: " + response.body;
    var tail := digits + ['.'] + rest;
    assert StatusMessage(response) == HTTP_ERROR + tail;
    assert forall c :: c in digits ==> IsDigit(c);
    BeforeFirstIs(digits, rest, '.');
    ParseNatToString(response.status);
  }
}
