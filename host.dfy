/**
 * The proxy that runs the plugin, seen through the http-wasm host interface
 * the handlers call: request and response data per kind (0 request, 1
 * response), the status code, the features the guest enables, and the
 * collector the telemetry record is posted to. Every call is appended to
 * `trace`, so the order of a handler's effects can be stated.
 */
module Host {
  import opened Wrappers
  import opened Text
  import Schema
  import HostFunctions

  /** A host call, as recorded in the trace. */
  datatype Event =
    | GetUri
    | GetMethod
    | GetProtocol
    | GetStatus
    | GetHeaderNames(kind: nat)
    | GetHeaderValues(kind: nat, name: string)
    | ReadBody(kind: nat)
    | WriteBody(kind: nat, bytes: seq<byte>)
    | EnableFeatures(features: nat)
    | Dispatch(record: Schema.TrebllePayload)

  /**
   * The message of a failed read. In the source every string read goes
   * through `read_from_buffer`; here a read gives the whole value or fails
   * with this message, and that function's 2048-byte limit and UTF-8 check
   * (`HostFunctions.ReadFromBuffer`) are not applied to these reads.
   */
  const READ_FAILED: string := HostFunctions.READ_FAILED

  /** Everything the host holds apart from the trace, as one value. */
  datatype State = State(
    uri: Option<string>,
    verb: Option<string>,
    protocol: Option<string>,
    status: Schema.u32,
    headerNames: map<nat, string>,
    headerValues: map<(nat, string), string>,
    bodies: map<nat, seq<byte>>,
    writeError: Option<string>,
    features: set<nat>,
    collector: Result<Unit, string>)

  class Host {
    /** The request URI, `None` when the host cannot hand it over. */
    var uri: Option<string>
    var verb: Option<string>
    var protocol: Option<string>
    var status: Schema.u32
    /** Per kind, the comma-separated header names. */
    var headerNames: map<nat, string>
    /** Per kind and name, the header's values. */
    var headerValues: map<(nat, string), string>
    /** Per kind, the body not yet consumed. */
    var bodies: map<nat, seq<byte>>
    /** Why a body write is refused, if it is. */
    var writeError: Option<string>
    var features: set<nat>
    /** What posting a record to the collector ends with (the network outcome). */
    var collector: Result<Unit, string>
    /** Every call made so far, in order. */
    var trace: seq<Event>

    constructor(s: State)
      ensures Snapshot() == s && trace == []
    {
      uri, verb, protocol, status := s.uri, s.verb, s.protocol, s.status;
      headerNames, headerValues, bodies := s.headerNames, s.headerValues, s.bodies;
      writeError, features, collector := s.writeError, s.features, s.collector;
      trace := [];
    }

    function Snapshot(): State
      reads this
    {
      State(uri, verb, protocol, status, headerNames, headerValues, bodies, writeError, features, collector)
    }

    method GetUriCall() returns (r: Result<string, string>)
      modifies this`trace
      ensures r == (if uri.Some? then Ok(uri.value) else Err(READ_FAILED))
      ensures trace == old(trace) + [GetUri]
    {
      trace := trace + [GetUri];
      r := if uri.Some? then Ok(uri.value) else Err(READ_FAILED);
    }

    method GetMethodCall() returns (r: Result<string, string>)
      modifies this`trace
      ensures r == (if verb.Some? then Ok(verb.value) else Err(READ_FAILED))
      ensures trace == old(trace) + [GetMethod]
    {
      trace := trace + [GetMethod];
      r := if verb.Some? then Ok(verb.value) else Err(READ_FAILED);
    }

    method GetProtocolCall() returns (r: Result<string, string>)
      modifies this`trace
      ensures r == (if protocol.Some? then Ok(protocol.value) else Err(READ_FAILED))
      ensures trace == old(trace) + [GetProtocol]
    {
      trace := trace + [GetProtocol];
      r := if protocol.Some? then Ok(protocol.value) else Err(READ_FAILED);
    }

    method GetStatusCall() returns (r: Schema.u32)
      modifies this`trace
      ensures r == status
      ensures trace == old(trace) + [GetStatus]
    {
      trace := trace + [GetStatus];
      r := status;
    }

    method GetHeaderNamesCall(kind: nat) returns (r: Result<string, string>)
      modifies this`trace
      ensures r == (if kind in headerNames then Ok(headerNames[kind]) else Err(READ_FAILED))
      ensures trace == old(trace) + [GetHeaderNames(kind)]
    {
      trace := trace + [GetHeaderNames(kind)];
      r := if kind in headerNames then Ok(headerNames[kind]) else Err(READ_FAILED);
    }

    method GetHeaderValuesCall(kind: nat, name: string) returns (r: Result<string, string>)
      modifies this`trace
      ensures r == (if (kind, name) in headerValues then Ok(headerValues[(kind, name)]) else Err(READ_FAILED))
      ensures trace == old(trace) + [GetHeaderValues(kind, name)]
    {
      trace := trace + [GetHeaderValues(kind, name)];
      r := if (kind, name) in headerValues then Ok(headerValues[(kind, name)]) else Err(READ_FAILED);
    }

    /** Reading a body hands over what is left of it and consumes it. */
    method ReadBodyCall(kind: nat) returns (r: Result<seq<byte>, string>)
      modifies this`trace, this`bodies
      ensures r == (if kind in old(bodies) then Ok(old(bodies)[kind]) else Err(READ_FAILED))
      ensures bodies == (if kind in old(bodies) then old(bodies)[kind := []] else old(bodies))
      ensures trace == old(trace) + [ReadBody(kind)]
    {
      trace := trace + [ReadBody(kind)];
      if kind in bodies {
        r := Ok(bodies[kind]);
        bodies := bodies[kind := []];
      } else {
        r := Err(READ_FAILED);
      }
    }

    /** Writing a body replaces it, unless the host refuses the write. */
    method WriteBody(kind: nat, bytes: seq<byte>) returns (r: Result<Unit, string>)
      modifies this`trace, this`bodies
      ensures r == (if writeError.None? then Ok(Unit) else Err(writeError.value))
      ensures bodies == (if writeError.None? then old(bodies)[kind := bytes] else old(bodies))
      ensures trace == old(trace) + [Event.WriteBody(kind, bytes)]
    {
      trace := trace + [Event.WriteBody(kind, bytes)];
      if writeError.None? {
        bodies := bodies[kind := bytes];
        r := Ok(Unit);
      } else {
        r := Err(writeError.value);
      }
    }

    method EnableFeaturesCall(f: nat)
      modifies this`trace, this`features
      ensures features == old(features) + {f}
      ensures trace == old(trace) + [EnableFeatures(f)]
    {
      trace := trace + [EnableFeatures(f)];
      features := features + {f};
    }

    /** Posts a record to the collector; the result is the network outcome. */
    method DispatchCall(record: Schema.TrebllePayload) returns (r: Result<Unit, string>)
      modifies this`trace
      ensures r == collector
      ensures trace == old(trace) + [Dispatch(record)]
    {
      trace := trace + [Dispatch(record)];
      r := collector;
    }
  }

  /**
   * `host_write_request_body`: hands the bytes to the host's `write_body` for
   * the request body (kind 0) and returns `Ok`; `write_body` reports nothing
   * back, so `Ok` is returned even when the host did not take the bytes.
   */
  method HostWriteRequestBody(host: Host, body: seq<byte>) returns (r: Result<Unit, string>)
    modifies host`bodies, host`trace
    ensures r == Ok(Unit)
    ensures host.trace == old(host.trace) + [WriteBody(0, body)]
    ensures old(host.writeError).None? ==> host.bodies == old(host.bodies)[0 := body]
    ensures old(host.writeError).Some? ==> host.bodies == old(host.bodies)
  {
    var _ := host.WriteBody(0, body);
    r := Ok(Unit);
  }
}
