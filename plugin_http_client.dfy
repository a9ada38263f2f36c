/**
 * The single-attempt client of the treblle-wasm-plugin crate
 * (treblle-wasm-plugin/src/http_client.rs): round-robin over its URLs, one
 * POST per call, success exactly on a 2xx status. The URI parser and the
 * network are inputs: `uriCheck` says whether a URL parses, `send` is the
 * answer to a request. Its debug logging is not modelled.
 */
module PluginHttpClient {
  import opened Wrappers
  import opened Text
  import opened UrlRotation
  import H = HttpRequest
  import PE = PluginError
  import PluginConstants

  /** The root certificate file every request names. */
  const ROOT_CERT: string := "/etc/certs/rootCA.pem"

  /** The request `attempt_post` sends to `url`. */
  function RequestTo(url: string, payload: seq<byte>, apiKey: string): H.Request {
    H.PostRequest(url, payload, apiKey, PluginConstants.HTTP_TIMEOUT_SECONDS, Some(ROOT_CERT))
  }

  /**
   * `attempt_post`: `Ok` exactly when the URL parses, the send returns and
   * the status is 2xx; every failure is an `Http` error with its message.
   */
  function AttemptPost(url: string, payload: seq<byte>, apiKey: string,
                       uriCheck: string -> Result<Unit, string>, send: H.Request -> Result<H.Response, string>)
    : (r: Result<Unit, PE.TreblleError>)
    ensures var reply := send(RequestTo(url, payload, apiKey));
            r.Ok? <==> uriCheck(url).Ok? && reply.Ok? && H.IsSuccess(reply.value.status)
    ensures var reply := send(RequestTo(url, payload, apiKey));
            uriCheck(url).Ok? && reply.Ok? && !H.IsSuccess(reply.value.status) ==>
              r == Err(PE.Http(H.StatusMessage(reply.value)))
    ensures r.Err? ==> r.error.Http?
  {
    var sent := H.Attempt(uriCheck(url), send(RequestTo(url, payload, apiKey)));
    if sent.Ok? then Ok(Unit) else Err(PE.Http(sent.error))
  }

  /** `HttpClient`: its URLs and the call counter. */
  class Client {
    const urls: seq<string>
    var index: nat
    /** How many times `get_next_url` has run. */
    ghost var calls: nat

    ghost predicate Valid()
      reads this
    {
      index == calls % USIZE
    }

    /** `new`: the URLs as given and the counter at 0. */
    constructor(urls: seq<string>)
      ensures this.urls == urls && index == 0 && calls == 0 && Valid()
    {
      this.urls := urls;
      index, calls := 0, 0;
    }

    /** `get_next_url`: the counter moves on and the URL at its old value modulo the length is returned. */
    method GetNextUrl() returns (u: Outcome<string>)
      requires Valid()
      modifies this`index, this`calls
      ensures Valid() && calls == old(calls) + 1
      ensures u == if urls == [] then Panicked(REMAINDER_BY_ZERO) else Returned(Pick(urls, old(calls)))
    {
      var i := index;
      index := (index + 1) % USIZE;
      calls := calls + 1;
      if urls == [] {
        return Panicked(REMAINDER_BY_ZERO);
      }
      u := Returned(urls[i % |urls|]);
    }

    /** `post`: one attempt against the next URL, its outcome passed on; there is no retry. */
    method Post(payload: seq<byte>, apiKey: string,
                uriCheck: string -> Result<Unit, string>, send: H.Request -> Result<H.Response, string>)
      returns (r: Outcome<Result<Unit, PE.TreblleError>>)
      requires Valid()
      modifies this`index, this`calls
      ensures Valid() && calls == old(calls) + 1
      ensures r == if urls == [] then Panicked(REMAINDER_BY_ZERO)
                   else Returned(AttemptPost(Pick(urls, old(calls)), payload, apiKey, uriCheck, send))
    {
      var url := GetNextUrl();
      if url.Panicked? {
        return Panicked(url.message);
      }
      r := Returned(AttemptPost(url.value, payload, apiKey, uriCheck, send));
    }
  }
}
