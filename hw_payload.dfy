/**
 * The record builder of rust-http-wasm/src/payload.rs: a `Payload` that holds
 * the record and the compiled sensitive-key pattern, fills the request
 * section field by field, and masks the two bodies in place.
 */
module HttpWasmPayload {
  import opened Wrappers
  import opened Text
  import opened Json
  import opened Schema
  import R = Regex
  import Utils
  import HttpWasmConfig

  const VERSION: string := "0.6"
  const SDK: string := "rust-wasm"
  /** Panic of `Regex::new(..).unwrap()` on an invalid pattern. */
  const REGEX_PANIC: string := "called `Result::unwrap()` on an `Err` value: regex parse error"

  /**
   * `mask_recursive`: walks the value and overwrites, entry by entry, every
   * object value under a matching key with the sentinel and every other
   * object value and array element with its own masked form. The value tree
   * is a Dafny value, so the walk returns the overwritten tree.
   */
  method MaskRecursive(re: R.Regex, v: Json) returns (out: Json)
    ensures out == Utils.Masked(v, re)
    decreases v
  {
    match v
    case Object(m) =>
      var entries := m;
      var pending := m.Keys;
      while pending != {}
        invariant pending <= m.Keys && entries.Keys == m.Keys
        invariant forall k :: k in pending ==> entries[k] == m[k]
        invariant forall k :: k in m && k !in pending ==>
                    entries[k] == if re.IsMatch(k) then String(Utils.SENTINEL) else Utils.Masked(m[k], re)
        decreases pending
      {
        var k :| k in pending;
        if re.IsMatch(k) {
          entries := entries[k := String(Utils.SENTINEL)];
        } else {
          var child := MaskRecursive(re, m[k]);
          entries := entries[k := child];
        }
        pending := pending - {k};
      }
      out := Object(entries);
    case Array(xs) =>
      var items := xs;
      var i := 0;
      while i < |xs|
        invariant 0 <= i <= |xs| && |items| == |xs|
        invariant forall j :: 0 <= j < i ==> items[j] == Utils.Masked(xs[j], re)
        invariant forall j :: i <= j < |xs| ==> items[j] == xs[j]
      {
        var child := MaskRecursive(re, xs[i]);
        items := items[i := child];
        i := i + 1;
      }
      out := Array(items);
    case _ =>
      out := v;
  }

  /** A body slot after masking: an absent body stays absent, a present one is masked. */
  function MaskedBody(body: Option<Json>, re: R.Regex): (r: Option<Json>)
    ensures r.None? <==> body.None?
    ensures body.Some? ==> r.value == Utils.Masked(body.value, re)
  {
    if body.Some? then Some(Utils.Masked(body.value, re)) else None
  }

  /** Masking the bodies a second time changes nothing. */
  lemma MaskedBodyIdempotent(body: Option<Json>, re: R.Regex)
    ensures MaskedBody(MaskedBody(body, re), re) == MaskedBody(body, re)
  {
    if body.Some? {
      Utils.MaskedIdempotent(body.value, re);
    }
  }

  /**
   * The in-place walk and the functional `utils::mask_sensitive_data` agree on
   * every value, for the pattern the payload compiled.
   */
  lemma InPlaceAgreesWithFunctional(v: Json, re: R.Regex)
    requires re.engine.compiles(re.pattern)
    ensures Utils.MaskSensitiveData(v, re.pattern, re.engine) == Ok(Utils.Masked(v, re))
  {
  }

  /** The body `update_request_info` stores: the parsed JSON, or the raw text as a JSON string. */
  function RequestBody(body: string, parse: TextParser): (r: Json)
    ensures parse(body).Ok? ==> r == parse(body).value
    ensures parse(body).Err? ==> r == String(body)
  {
    match parse(body)
    case Ok(v) => v
    case Err(_) => String(body)
  }

  class Payload {
    var data: TrebllePayload
    var sensitiveKeysRegex: R.Regex

    constructor(data: TrebllePayload, sensitiveKeysRegex: R.Regex)
      ensures this.data == data && this.sensitiveKeysRegex == sensitiveKeysRegex
    {
      this.data := data;
      this.sensitiveKeysRegex := sensitiveKeysRegex;
    }

    /**
     * `Payload::new(config)`: compiles the configured pattern (panicking when
     * it is invalid) and starts from the configured credentials, the fixed
     * version and SDK name, and default sections.
     */
    static method New(config: HttpWasmConfig.Config, engine: R.Engine) returns (r: Outcome<Payload>)
      ensures r.Panicked? <==> !engine.compiles(config.sensitiveKeysRegex)
      ensures r.Panicked? ==> r.message == REGEX_PANIC
      ensures r.Returned? ==> fresh(r.value)
      ensures r.Returned? ==> r.value.sensitiveKeysRegex == R.Regex(config.sensitiveKeysRegex, engine)
      ensures r.Returned? ==> r.value.data == TrebllePayload(config.apiKey, config.projectId, VERSION, SDK, DefaultPayloadData())
    {
      match R.New(engine, config.sensitiveKeysRegex)
      case Err(_) =>
        r := Panicked(REGEX_PANIC);
      case Ok(re) =>
        var p := new Payload(TrebllePayload(config.apiKey, config.projectId, VERSION, SDK, DefaultPayloadData()), re);
        r := Returned(p);
    }

    /**
     * `update_request_info`: overwrites method, url, ip, headers, body and
     * timestamp of the request section; a body that does not parse is kept as
     * a JSON string; the user agent is overwritten only when a `User-Agent`
     * header is present. `timestamp` stands for `Utc::now()`.
     */
    method UpdateRequestInfo(verb: string, url: string, ip: string, headers: map<string, string>,
                             body: string, parse: TextParser, timestamp: string)
      modifies this`data
      ensures var q := old(data).data.request;
              data == old(data).(data := old(data).data.(request := q.(
                verb := verb, url := url, ip := ip, headers := headers,
                body := Some(RequestBody(body, parse)), timestamp := timestamp,
                userAgent := if "User-Agent" in headers then headers["User-Agent"] else q.userAgent)))
    {
      var q := data.data.request;
      q := q.(verb := verb, url := url, ip := ip, headers := headers);
      q := q.(body := Some(RequestBody(body, parse)), timestamp := timestamp);
      if "User-Agent" in q.headers {
        q := q.(userAgent := q.headers["User-Agent"]);
      }
      data := data.(data := data.data.(request := q));
    }

    /** `mask_sensitive_data`: masks the request and response bodies and touches nothing else. */
    method MaskSensitiveData()
      modifies this`data
      ensures var d := old(data).data;
              data == old(data).(data := d.(
                request := d.request.(body := MaskedBody(d.request.body, sensitiveKeysRegex)),
                response := d.response.(body := MaskedBody(d.response.body, sensitiveKeysRegex))))
    {
      var requestBody := data.data.request.body;
      if requestBody.Some? {
        var masked := MaskRecursive(sensitiveKeysRegex, requestBody.value);
        requestBody := Some(masked);
      }
      var responseBody := data.data.response.body;
      if responseBody.Some? {
        var masked := MaskRecursive(sensitiveKeysRegex, responseBody.value);
        responseBody := Some(masked);
      }
      data := data.(data := data.data.(
        request := data.data.request.(body := requestBody),
        response := data.data.response.(body := responseBody)));
    }

    /** `to_json`: the serialised record, always with its five top-level fields. */
    function ToJson(): (r: Json)
      reads this
      ensures r.Object? && r.fields.Keys == TopLevelKeys
      ensures r.fields["api_key"] == String(data.apiKey) && r.fields["sdk"] == String(data.sdk)
    {
      Schema.ToJson(data)
    }
  }

  /** `is_json`: the same content-type test as `utils::is_json`. */
  predicate IsJson(contentType: string) {
    Contains(ToLower(contentType), "application/json")
  }

  /** Both crates' content-type tests agree. */
  lemma IsJsonSameAsUtils(contentType: string)
    ensures IsJson(contentType) <==> Utils.IsJson(contentType)
  {
  }
}
