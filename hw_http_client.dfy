/**
 * The retrying client of the rust-http-wasm crate
 * (rust-http-wasm/src/http_client.rs): round-robin over its URLs, then
 * attempts against the one URL chosen until one succeeds or the timeout
 * has passed. The URI parser, the network and the clock are inputs: each
 * `Try` holds the time read by the loop's check and the answer the attempt
 * that follows it gets. The log lines are not modelled.
 */
module HttpWasmClient {
  import opened Wrappers
  import opened Text
  import opened UrlRotation
  import H = HttpRequest
  import HE = HttpWasmError
  import HttpWasmConstants

  /** `HTTP_TIMEOUT_SECONDS` in milliseconds, the unit of `Try.clock`. */
  const TIMEOUT_MS: nat := HttpWasmConstants.HTTP_TIMEOUT_SECONDS * 1000

  const TIMED_OUT: string := "POST request timed out after all attempts"

  /** One turn of the retry loop: the elapsed time it checks and the answer of the attempt it makes. */
  datatype Try = Try(clock: nat, reply: Result<H.Response, string>)

  /** How `post` ended; `Exhausted` when the listed turns ran out before it did. */
  datatype Posting = Done(result: Result<Unit, HE.TreblleError>) | Exhausted

  /** The request `attempt_post` sends to `url`. */
  function RequestTo(url: string, payload: seq<byte>, apiKey: string): H.Request {
    H.PostRequest(url, payload, apiKey, HttpWasmConstants.HTTP_TIMEOUT_SECONDS, None)
  }

  /**
   * `attempt_post`: `Ok` exactly when the URL parses, the send returns and
   * the status is 2xx; every failure is an `Http` error with its message.
   */
  function AttemptPost(uri: Result<Unit, string>, reply: Result<H.Response, string>): (r: Result<Unit, HE.TreblleError>)
    ensures r.Ok? <==> uri.Ok? && reply.Ok? && H.IsSuccess(reply.value.status)
    ensures uri.Ok? && reply.Ok? && !H.IsSuccess(reply.value.status) ==> r == Err(HE.Http(H.StatusMessage(reply.value)))
    ensures r.Err? ==> r.error.Http?
  {
    var sent := H.Attempt(uri, reply);
    if sent.Ok? then Ok(Unit) else Err(HE.Http(sent.error))
  }

  /** `HttpClient`: its URLs and the call counter. */
  class Client {
    const urls: seq<string>
    var index: nat
    /** How many times `get_next_url` has run. */
    ghost var calls: nat

    ghost predicate Valid()
      reads this
    {
      index == calls % USIZE
    }

    /** `new`: the URLs as given and the counter at 0. */
    constructor(urls: seq<string>)
      ensures this.urls == urls && index == 0 && calls == 0 && Valid()
    {
      this.urls := urls;
      index, calls := 0, 0;
    }

    /** `get_next_url`: the counter moves on and the URL at its old value modulo the length is returned. */
    method GetNextUrl() returns (u: Outcome<string>)
      requires Valid()
      modifies this`index, this`calls
      ensures Valid() && calls == old(calls) + 1
      ensures u == if urls == [] then Panicked(REMAINDER_BY_ZERO) else Returned(Pick(urls, old(calls)))
    {
      var i := index;
      index := (index + 1) % USIZE;
      calls := calls + 1;
      if urls == [] {
        return Panicked(REMAINDER_BY_ZERO);
      }
      u := Returned(urls[i % |urls|]);
    }

    /**
     * `post`: one URL for all attempts; an attempt is made while the elapsed
     * time is under the timeout, the first success ends the loop with `Ok`,
     * and once the time is up the loop gives the timeout error. `attempts`
     * counts the attempts made, each sending the same request to the same URL.
     */
    method Post(payload: seq<byte>, apiKey: string, uriCheck: string -> Result<Unit, string>, tries: seq<Try>)
      returns (r: Outcome<Posting>, attempts: nat)
      requires Valid()
      modifies this`index, this`calls
      ensures Valid() && calls == old(calls) + 1
      ensures r.Panicked? <==> urls == []
      ensures urls != [] ==>
                var uri := uriCheck(Pick(urls, old(calls)));
                && attempts <= |tries|
                && (forall k :: 0 <= k < attempts ==> tries[k].clock < TIMEOUT_MS)
                && (forall k :: 0 <= k < attempts && k + 1 < attempts ==> AttemptPost(uri, tries[k].reply).Err?)
                && (r == Returned(Done(Ok(Unit))) <==> attempts > 0 && AttemptPost(uri, tries[attempts - 1].reply).Ok?)
                && (r == Returned(Done(Err(HE.Http(TIMED_OUT)))) ==> attempts < |tries| && tries[attempts].clock >= TIMEOUT_MS)
                && (r == Returned(Exhausted) ==> attempts == |tries|)
                && (r.Returned? ==> r == Returned(Done(Ok(Unit))) || r == Returned(Done(Err(HE.Http(TIMED_OUT)))) || r == Returned(Exhausted))
    {
      var url := GetNextUrl();
      attempts := 0;
      if url.Panicked? {
        return Panicked(url.message), attempts;
      }
      ghost var uri := uriCheck(url.value);
      while attempts < |tries| && tries[attempts].clock < TIMEOUT_MS
        invariant attempts <= |tries|
        invariant forall k :: 0 <= k < attempts ==> tries[k].clock < TIMEOUT_MS
        invariant forall k :: 0 <= k < attempts ==> AttemptPost(uri, tries[k].reply).Err?
        decreases |tries| - attempts
      {
        var sent := AttemptPost(uriCheck(url.value), tries[attempts].reply);
        attempts := attempts + 1;
        if sent.Ok? {
          return Returned(Done(Ok(Unit))), attempts;
        }
      }
      if attempts == |tries| {
        return Returned(Exhausted), attempts;
      }
      r := Returned(Done(Err(HE.Http(TIMED_OUT))));
    }
  }

  /** Against a URL that does not parse, no attempt succeeds, whatever the network answers. */
  lemma BadUrlNeverSucceeds(uri: Result<Unit, string>, reply: Result<H.Response, string>)
    requires uri.Err?
    ensures AttemptPost(uri, reply) == Err(HE.Http(H.INVALID_URL + uri.error))
  {
  }
}
