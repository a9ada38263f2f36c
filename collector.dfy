/**
 * The request check of the collector service (treblle-api/src/main.rs):
 * once a request has reached the `/api` handler, it answers 400 with the
 * first failed check's message, or 200. Header names are compared as
 * `HeaderMap` does, after lowering them. The handler only runs once the
 * `Json` extractor has accepted the request, so the body here is already
 * parsed; the extractor's own rejections (a content type outside the JSON
 * family, a body that does not parse) happen before it and are not
 * modelled, nor are the server set-up and the tracing output.
 */
module Collector {
  import opened Wrappers
  import opened Text
  import J = Json
  import H = HttpRequest
  import Schema

  const CONTENT_TYPE: string := "content-type"
  const API_KEY: string := "x-api-key"
  const JSON_TYPE: string := "application/json"

  const BAD_CONTENT_TYPE: string := "Missing or invalid Content-Type header"
  const MISSING_API_KEY: string := "Missing x-api-key header"
  const BAD_PAYLOAD: string := "Invalid payload structure"

  const OK: nat := 200
  const BAD_REQUEST: nat := 400

  /** The top-level members every record must have, in the order they are checked. */
  const REQUIRED_KEYS: seq<string> := ["api_key", "project_id", "version", "sdk", "data"]

  /** An answer: its status and its body text. */
  datatype Answer = Answer(status: nat, body: string)

  /** `headers[name]`: the first value under `name`, names compared in lower case. */
  function HeaderValue(headers: seq<H.Header>, name: string): (r: Option<string>)
    ensures r.Some? <==> exists i :: 0 <= i < |headers| && ToLower(headers[i].name) == name
    ensures r.Some? ==> exists i :: 0 <= i < |headers| && ToLower(headers[i].name) == name && r.value == headers[i].value
                                   && forall j :: 0 <= j < i ==> ToLower(headers[j].name) != name
  {
    if headers == [] then None
    else if ToLower(headers[0].name) == name then Some(headers[0].value)
    else
      var r := HeaderValue(headers[1..], name);
      assert forall i :: 0 < i < |headers| ==> headers[1..][i - 1] == headers[i];
      r
  }

  /** `validate_payload`: every required member is present; a value that is not an object has none. */
  function ValidatePayload(payload: J.Json): (r: bool)
    ensures r <==> payload.Object? && (forall k :: k in REQUIRED_KEYS ==> k in payload.fields)
  {
    assert REQUIRED_KEYS[0] in REQUIRED_KEYS;
    forall k :: k in REQUIRED_KEYS ==> J.Get(payload, k).Some?
  }

  /**
   * `validate_request`: the content type first, then the key, then the
   * payload; the first check that fails gives the error.
   */
  function ValidateRequest(headers: seq<H.Header>, payload: J.Json): (r: Result<Unit, string>)
    ensures r == Err(BAD_CONTENT_TYPE) <==> HeaderValue(headers, CONTENT_TYPE) != Some(JSON_TYPE)
    ensures r == Err(MISSING_API_KEY) <==>
              HeaderValue(headers, CONTENT_TYPE) == Some(JSON_TYPE) && HeaderValue(headers, API_KEY).None?
    ensures r == Err(BAD_PAYLOAD) <==>
              HeaderValue(headers, CONTENT_TYPE) == Some(JSON_TYPE) && HeaderValue(headers, API_KEY).Some?
              && !ValidatePayload(payload)
    ensures r.Ok? <==>
              HeaderValue(headers, CONTENT_TYPE) == Some(JSON_TYPE) && HeaderValue(headers, API_KEY).Some?
              && ValidatePayload(payload)
  {
    var contentType := HeaderValue(headers, CONTENT_TYPE);
    if contentType.None? || contentType.value != JSON_TYPE then Err(BAD_CONTENT_TYPE)
    else if HeaderValue(headers, API_KEY).None? then Err(MISSING_API_KEY)
    else if !ValidatePayload(payload) then Err(BAD_PAYLOAD)
    else Ok(Unit)
  }

  /**
   * `receive_data`, once the extractor has parsed the body: 400 with the
   * check's message when it fails, 200 otherwise.
   */
  function ReceiveData(headers: seq<H.Header>, payload: J.Json): (r: Answer)
    ensures r.status == OK <==> ValidateRequest(headers, payload).Ok?
    ensures r.status == BAD_REQUEST <==> ValidateRequest(headers, payload).Err?
    ensures r.status == BAD_REQUEST ==> r.body == ValidateRequest(headers, payload).error
  {
    match ValidateRequest(headers, payload)
    case Err(e) => Answer(BAD_REQUEST, e)
    case Ok(_) => Answer(OK, "")
  }

  /** Every serialised record has the members the collector requires. */
  lemma SerialisedPayloadValid(p: Schema.TrebllePayload)
    ensures ValidatePayload(Schema.ToJson(p))
  {
    var v := Schema.ToJson(p);
    forall k | k in REQUIRED_KEYS ensures k in v.fields {
      assert k in Schema.TopLevelKeys;
    }
  }

  /** The three headers the clients send pass the content-type and key checks. */
  lemma ClientHeadersChecked(apiKey: string, length: string)
    ensures var hs := [H.Header("Content-Type", JSON_TYPE), H.Header("X-Api-Key", apiKey), H.Header("Content-Length", length)];
            HeaderValue(hs, CONTENT_TYPE) == Some(JSON_TYPE) && HeaderValue(hs, API_KEY) == Some(apiKey)
  {
    var hs := [H.Header("Content-Type", JSON_TYPE), H.Header("X-Api-Key", apiKey), H.Header("Content-Length", length)];
    assert ToLower("Content-Type") == CONTENT_TYPE;
    assert ToLower("X-Api-Key") == API_KEY;
    assert hs[1..] == [H.Header("X-Api-Key", apiKey), H.Header("Content-Length", length)];
  }

  /**
   * The POST that the `http_client.rs` clients send, carrying a serialised
   * record, is accepted: its header names lowered are the ones checked, and
   * its content type is exactly the expected one. The bytes sent are the
   * UTF-8 of the record's JSON text as `render` writes it; the extractor is
   * taken to parse them back to that JSON value.
   */
  lemma ClientPostAccepted(url: string, apiKey: string, timeoutSecs: nat, rootCert: Option<string>,
                           record: Schema.TrebllePayload, render: J.Renderer)
    ensures var q := H.PostRequest(url, Utf8(render(Schema.ToJson(record))), apiKey, timeoutSecs, rootCert);
            ReceiveData(q.headers, Schema.ToJson(record)) == Answer(OK, "")
  {
    var payload := Utf8(render(Schema.ToJson(record)));
    ClientHeadersChecked(apiKey, NatToString(|payload|));
    SerialisedPayloadValid(record);
  }
}
