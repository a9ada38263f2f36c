/**
 * The connection-pooling client of the treblle-wasm-plugin crate
 * (treblle-wasm-plugin/src/wasi_http_client.rs): round-robin choice of the
 * collector URL, the HTTP/1.1 request head, the write loop over a
 * non-blocking socket, a FIFO pool of at most 50 idle connections, and the
 * process-wide TLS configuration created once.
 *
 * Sockets, TLS and the clock are not modelled: each socket or TLS call's
 * outcome, the writer's answers and the current time (in milliseconds) are
 * inputs, and so is the URL parser.
 */
module WasiHttpClient {
  import opened Wrappers
  import opened Text
  import IoM = Io
  import PE = PluginError
  import opened UrlRotation

  /** `CONNECT_TIMEOUT`, in milliseconds: how long the write loop keeps retrying a blocked socket. */
  const CONNECT_TIMEOUT_MS: nat := 5_000
  /** `CONNECTION_TIMEOUT`, in milliseconds: how long a connection may sit idle in the pool. */
  const CONNECTION_TIMEOUT_MS: nat := 60_000
  const MAX_POOL_SIZE: nat := 50

  const NO_HOST: string := "No host in URL"
  const INVALID_PORT: string := "Invalid port"

  /** A `rustls::ClientConfig`, known only by its identity. */
  datatype ClientConfig = ClientConfig(id: nat)

  /** A TLS stream over a connected socket. */
  datatype TlsStream = TlsStream(socket: nat, server: string, config: ClientConfig)

  /** A pool entry and the time it was last given back. */
  datatype PooledConnection = PooledConnection(stream: TlsStream, lastUsed: nat)

  /**
   * What the socket and TLS calls of a new connection return: `TcpStream::connect`
   * (a socket or an error), `set_nonblocking` (an error or none), whether the
   * host is a valid `ServerName`, and `ClientConnection::new` (an error or none).
   */
  datatype Dial = Dial(connect: Result<nat, IoM.IoError>, nonblocking: Option<IoM.IoError>,
                       serverName: bool, handshake: Option<PE.TlsError>)

  /** What `Url::parse` gives back: `host_str`, `port_or_known_default` and `path`. */
  datatype Url = Url(host: Option<string>, port: Option<nat>, path: string)

  /**
   * One answer of the writer to `write`: it took `n` bytes, or it failed,
   * `elapsed` milliseconds after the loop started.
   */
  datatype WriteStep = Wrote(n: nat) | Failed(error: IoM.IoError, elapsed: nat)

  /** How the write loop ended; `Exhausted` when the writer's listed answers ran out first. */
  datatype Sending = Finished(result: Result<Unit, PE.TreblleError>) | Exhausted

  function Min(a: nat, b: nat): nat { if a <= b then a else b }

  // ---------------------------------------------------------------- request head

  /** The lines of the request head, without their line ends; the last is the blank line. */
  function HeadLines(host: string, path: string, length: nat, apiKey: string): seq<string> {
    ["POST " + path + " HTTP/1.1",
     "Host: " + host,
     "Content-Type: application/json",
     "X-Api-Key: " + apiKey,
     "Content-Length: " + NatToString(length),
     "Connection: keep-alive",
     ""]
  }

  /** Lines each ended by CR LF. */
  function Crlf(lines: seq<string>): string {
    if lines == [] then "" else lines[0] + "\r\n" + Crlf(lines[1..])
  }

  /** `create_request`: the head of a POST carrying `payload`. */
  function CreateRequest(host: string, path: string, payload: seq<byte>, apiKey: string): (r: string)
    ensures |r| >= 4 && r[|r| - 4..] == "\r\n\r\n"
  {
    var lines := HeadLines(host, path, |payload|, apiKey);
    CrlfEnds(lines);
    Crlf(lines)
  }

  lemma {:induction false} CrlfEnds(lines: seq<string>)
    requires |lines| >= 2 && lines[|lines| - 1] == ""
    ensures |Crlf(lines)| >= 4 && Crlf(lines)[|Crlf(lines)| - 4..] == "\r\n\r\n"
  {
    if |lines| == 2 {
      assert Crlf(lines[1..]) == "\r\n";
    } else {
      CrlfEnds(lines[1..]);
    }
  }

  /** Each line with its CR kept. */
  function WithCr(lines: seq<string>): (r: seq<string>)
    ensures |r| == |lines| && forall i :: 0 <= i < |lines| ==> r[i] == lines[i] + "\r"
  {
    if lines == [] then [] else [lines[0] + "\r"] + WithCr(lines[1..])
  }

  /** A line without a line feed still has none once its CR is added. */
  lemma CrNoLf(line: string)
    requires '\n' !in line
    ensures '\n' !in line + "\r"
  {
    assert forall c :: c in line + "\r" ==> c in line || c == '\r';
  }

  /** Splitting CR LF ended lines at each LF gives each line with its CR, then the empty rest. */
  lemma {:induction false} SplitCrlf(lines: seq<string>)
    requires forall i :: 0 <= i < |lines| ==> '\n' !in lines[i]
    ensures Split(Crlf(lines), '\n') == WithCr(lines) + [""]
  {
    if lines == [] {
      assert Split("", '\n') == [""];
    } else {
      var rest := Crlf(lines[1..]);
      SplitCrlf(lines[1..]);
      var first := lines[0] + "\r";
      CrNoLf(lines[0]);
      assert Crlf(lines) == first + ['\n'] + rest;
      SplitAfter(first, rest, '\n');
      assert Split(Crlf(lines), '\n') == [first] + (WithCr(lines[1..]) + [""]);
    }
  }

  /** No head line holds a line feed when the path, host and key hold none, and only the last is empty. */
  lemma HeadLinesPlain(host: string, path: string, length: nat, apiKey: string)
    requires '\n' !in host && '\n' !in path && '\n' !in apiKey
    ensures var lines := HeadLines(host, path, length, apiKey);
            forall i :: 0 <= i < |lines| ==> '\n' !in lines[i] && (i < 6 ==> lines[i] != "")
  {
    var lines := HeadLines(host, path, length, apiKey);
    var digits := NatToString(length);
    assert forall c :: c in digits ==> IsDigit(c);
    assert lines[0] == "POST " + path + " HTTP/1.1";
    assert lines[1] == "Host: " + host;
    assert lines[3] == "X-Api-Key: " + apiKey;
    assert lines[4] == "Content-Length: " + digits;
  }

  /**
   * The head is framed as HTTP/1.1 expects: when the path, host and key hold
   * no line feed, a reader splitting at line feeds sees the request line, the
   * five headers, the blank line and nothing after it, and the number in the
   * `Content-Length` line reads back as the payload's length.
   */
  lemma HeadFraming(host: string, path: string, payload: seq<byte>, apiKey: string)
    requires '\n' !in host && '\n' !in path && '\n' !in apiKey
    ensures var lines := HeadLines(host, path, |payload|, apiKey);
            var pieces := Split(CreateRequest(host, path, payload, apiKey), '\n');
            && pieces == WithCr(lines) + [""]
            && pieces[6] == "\r" && (forall i :: 0 <= i < 6 ==> pieces[i] != "\r")
            && pieces[4][16..|pieces[4]| - 1] == NatToString(|payload|)
            && ParseDigits(NatToString(|payload|)) == |payload|
  {
    var lines := HeadLines(host, path, |payload|, apiKey);
    HeadLinesPlain(host, path, |payload|, apiKey);
    SplitCrlf(lines);
    var line := lines[4] + "\r";
    assert line[16..|line| - 1] == NatToString(|payload|);
    ParseNatToString(|payload|);
  }

  /** The bytes `post` writes: the head's UTF-8 bytes, then the payload unchanged. */
  function Frame(host: string, path: string, payload: seq<byte>, apiKey: string): (r: seq<byte>)
    ensures |r| >= |payload| + 4 && r[|r| - |payload|..] == payload
  {
    Utf8(CreateRequest(host, path, payload, apiKey)) + payload
  }

  // ---------------------------------------------------------------- write loop

  /** The bytes the writer reports taken over `steps`. */
  function Accepted(steps: seq<WriteStep>): nat {
    if steps == [] then 0
    else Accepted(steps[..|steps| - 1]) + (if steps[|steps| - 1].Wrote? then steps[|steps| - 1].n else 0)
  }

  /** An answer that ends the loop with an error: a blocked write past the timeout, or any other failure. */
  predicate Fatal(step: WriteStep) {
    step.Failed? && (step.error.kind != IoM.WouldBlock || step.elapsed > CONNECT_TIMEOUT_MS)
  }

  /** The error a fatal answer gives. */
  function ErrorOf(step: WriteStep): PE.TreblleError
    requires step.Failed?
  {
    if step.error.kind == IoM.WouldBlock then PE.Timeout else PE.Io(step.error)
  }

  /**
   * `send_non_blocking`: writes `data[written..]` until everything is taken.
   * `sent` is what the writer received and `used` the number of its answers
   * consumed. The loop succeeds exactly when the writer received all of
   * `data`, in order; a blocked write is retried until the timeout and then
   * gives `Timeout`, any other failure gives `Io` at once.
   */
  method SendNonBlocking(data: seq<byte>, script: seq<WriteStep>) returns (r: Sending, sent: seq<byte>, used: nat)
    ensures used <= |script|
    ensures sent == data[..Min(Accepted(script[..used]), |data|)]
    ensures r == Finished(Ok(Unit)) <==> sent == data
    ensures r.Exhausted? ==> used == |script|
    ensures r.Finished? && r.result.Err? ==> used > 0 && Fatal(script[used - 1]) && r.result.error == ErrorOf(script[used - 1])
    ensures forall k :: 0 <= k < used && !(r.Finished? && r.result.Err? && k == used - 1) ==> !Fatal(script[k])
    ensures used > 0 ==> Accepted(script[..used - 1]) < |data|
  {
    var written := 0;
    sent, used := [], 0;
    while written < |data|
      invariant used <= |script|
      invariant written == Accepted(script[..used])
      invariant sent == data[..Min(written, |data|)]
      invariant forall k :: 0 <= k < used ==> !Fatal(script[k])
      invariant used > 0 ==> Accepted(script[..used - 1]) < |data|
      decreases |script| - used
    {
      if used == |script| {
        return Exhausted, sent, used;
      }
      var step := script[used];
      assert script[..used + 1][..used] == script[..used];
      used := used + 1;
      match step
      case Wrote(n) =>
        sent := sent + data[written..Min(written + n, |data|)];
        written := written + n;
      case Failed(e, elapsed) =>
        if e.kind == IoM.WouldBlock {
          if elapsed > CONNECT_TIMEOUT_MS {
            return Finished(Err(PE.Timeout)), sent, used;
          }
        } else {
          return Finished(Err(PE.Io(e))), sent, used;
        }
    }
    r := Finished(Ok(Unit));
  }

  // ---------------------------------------------------------------- pool

  /** `retain`: the entries idle for less than `CONNECTION_TIMEOUT`, in their order. */
  function Fresh(pool: seq<PooledConnection>, now: nat): (r: seq<PooledConnection>)
    ensures |r| <= |pool|
    ensures forall c :: c in r <==> c in pool && now - c.lastUsed < CONNECTION_TIMEOUT_MS
  {
    if pool == [] then []
    else (if now - pool[0].lastUsed < CONNECTION_TIMEOUT_MS then [pool[0]] else []) + Fresh(pool[1..], now)
  }

  /** `retain` keeps the order: filtering a concatenation filters each part. */
  lemma {:induction false} FreshAppend(a: seq<PooledConnection>, b: seq<PooledConnection>, now: nat)
    ensures Fresh(a + b, now) == Fresh(a, now) + Fresh(b, now)
  {
    if a == [] {
      assert a + b == b;
    } else {
      assert (a + b)[0] == a[0] && (a + b)[1..] == a[1..] + b;
      FreshAppend(a[1..], b, now);
    }
  }

  /**
   * A connection given back goes to the end of the pool, so it is the one
   * `get_connection` reuses next once every entry before it has expired,
   * provided it has itself been idle for less than `CONNECTION_TIMEOUT`.
   */
  lemma {:induction false} FreshReusesReturned(before: seq<PooledConnection>, stream: TlsStream, returnedAt: nat, now: nat)
    requires returnedAt <= now < returnedAt + CONNECTION_TIMEOUT_MS
    requires Fresh(before, now) == []
    ensures Fresh(before + [PooledConnection(stream, returnedAt)], now) == [PooledConnection(stream, returnedAt)]
    ensures Fresh(before + [PooledConnection(stream, returnedAt)], now)[0].stream == stream
  {
    var c := PooledConnection(stream, returnedAt);
    FreshAppend(before, [c], now);
    assert [c][1..] == [];
  }

  /** The process-wide `CLIENT_CONFIG`: empty until the first connection needs it. */
  class TlsCache {
    var config: Option<ClientConfig>

    constructor()
      ensures config == None
    {
      config := None;
    }

    /**
     * `get_client_config`: the cached configuration if there is one;
     * otherwise `roots`, the outcome of `create_tls_config`, which is cached
     * when it succeeded. Once set, the cache never changes.
     */
    method GetClientConfig(roots: Result<ClientConfig, PE.TreblleError>) returns (r: Result<ClientConfig, PE.TreblleError>)
      modifies this
      ensures old(config).Some? ==> r == Ok(old(config).value) && config == old(config)
      ensures old(config).None? ==> r == roots && config == roots.ToOption()
    {
      if config.Some? {
        return Ok(config.value);
      }
      r := roots;
      if roots.Ok? {
        config := Some(roots.value);
      }
    }
  }

  /** The parsed URL names a host and a port, so `post` goes on to connect. */
  predicate Connects(u: Result<Url, string>) {
    u.Ok? && u.value.host.Some? && u.value.port.Some?
  }

  /** A new connection gets as far as asking for the TLS configuration. */
  predicate Reached(dial: Dial) {
    dial.connect.Ok? && dial.nonblocking.None? && dial.serverName
  }

  /**
   * A new connection: connect, switch to non-blocking, check the server name,
   * take the TLS configuration (`cached` if there is one, else `roots`) and
   * start the session; the first step that fails gives the error.
   */
  function Dialled(host: string, dial: Dial, cached: Option<ClientConfig>, roots: Result<ClientConfig, PE.TreblleError>)
    : Result<TlsStream, PE.TreblleError>
  {
    if dial.connect.Err? then Err(PE.Io(dial.connect.error))
    else if dial.nonblocking.Some? then Err(PE.Io(dial.nonblocking.value))
    else if !dial.serverName then Err(PE.InvalidHostname(host))
    else
      var config := if cached.Some? then Ok(cached.value) else roots;
      if config.Err? then Err(config.error)
      else if dial.handshake.Some? then Err(PE.Tls(dial.handshake.value))
      else Ok(TlsStream(dial.connect.value, host, config.value))
  }

  /** `WasiHttpClient`: its URL list, the call counter and the pool. */
  class Client {
    const urls: seq<string>
    var index: nat
    var pool: seq<PooledConnection>
    /** How many times `get_next_url` has run. */
    ghost var calls: nat

    ghost predicate Valid()
      reads this
    {
      index == calls % USIZE && |pool| <= MAX_POOL_SIZE
    }

    /** `new`: the list as given, the counter at 0, the pool empty; it always succeeds. */
    constructor(urls: seq<string>)
      ensures this.urls == urls && index == 0 && pool == [] && calls == 0 && Valid()
    {
      this.urls := urls;
      index, pool, calls := 0, [], 0;
    }

    /**
     * `get_next_url`: the counter moves on (wrapping as `usize` does) and the
     * URL at the old counter modulo the list length is returned; an empty list
     * panics after the counter has moved.
     */
    method GetNextUrl() returns (u: Outcome<string>)
      requires Valid()
      modifies this`index, this`calls
      ensures Valid() && calls == old(calls) + 1
      ensures u == if urls == [] then Panicked(REMAINDER_BY_ZERO) else Returned(Pick(urls, old(calls)))
    {
      var i := index;
      index := (index + 1) % USIZE;
      calls := calls + 1;
      if urls == [] {
        return Panicked(REMAINDER_BY_ZERO);
      }
      u := Returned(urls[i % |urls|]);
    }

    /**
     * `get_connection`: drops the entries idle for `CONNECTION_TIMEOUT` or
     * more, then reuses the oldest entry left. With none left it connects,
     * switches the socket to non-blocking, checks the server name, takes the
     * TLS configuration and starts the TLS session, stopping at the first step
     * that fails.
     */
    method GetConnection(host: string, now: nat, dial: Dial, roots: Result<ClientConfig, PE.TreblleError>, cache: TlsCache)
      returns (r: Result<TlsStream, PE.TreblleError>)
      requires Valid()
      modifies this`pool, cache
      ensures Valid()
      ensures var kept := Fresh(old(pool), now);
              && r == (if kept != [] then Ok(kept[0].stream) else Dialled(host, dial, old(cache.config), roots))
              && pool == (if kept != [] then kept[1..] else [])
      ensures cache.config ==
                if Fresh(old(pool), now) == [] && Reached(dial) && old(cache.config).None? then roots.ToOption()
                else old(cache.config)
    {
      pool := Fresh(pool, now);
      if pool != [] {
        var reused := pool[0];
        pool := pool[1..];
        return Ok(reused.stream);
      }
      if dial.connect.Err? {
        return Err(PE.FromIo(dial.connect.error));
      }
      if dial.nonblocking.Some? {
        return Err(PE.FromIo(dial.nonblocking.value));
      }
      if !dial.serverName {
        return Err(PE.InvalidHostname(host));
      }
      var config := cache.GetClientConfig(roots);
      if config.Err? {
        return Err(config.error);
      }
      if dial.handshake.Some? {
        return Err(PE.Tls(dial.handshake.value));
      }
      r := Ok(TlsStream(dial.connect.value, host, config.value));
    }

    /** `return_connection`: back to the end of the pool, unless the pool is full. */
    method ReturnConnection(stream: TlsStream, now: nat)
      requires Valid()
      modifies this`pool
      ensures Valid()
      ensures pool == if |old(pool)| < MAX_POOL_SIZE then old(pool) + [PooledConnection(stream, now)] else old(pool)
    {
      if |pool| < MAX_POOL_SIZE {
        pool := pool + [PooledConnection(stream, now)];
      }
    }

    /**
     * `post`: the next URL, parsed; a connection; the head and the payload
     * written in one go; the connection given back only when the write
     * succeeded. `sent` is what reached the socket; `conn` is what
     * `get_connection` gave and `sending` and `used` what `send_non_blocking`
     * gave, when they ran.
     */
    method Post(payload: seq<byte>, apiKey: string, now: nat, parse: string -> Result<Url, string>, dial: Dial,
                roots: Result<ClientConfig, PE.TreblleError>, script: seq<WriteStep>, cache: TlsCache)
      returns (r: Outcome<Sending>, sent: seq<byte>,
               ghost conn: Result<TlsStream, PE.TreblleError>, ghost sending: Sending, ghost used: nat)
      requires Valid()
      modifies this`index, this`calls, this`pool, cache
      ensures Valid() && calls == old(calls) + 1
      ensures r.Panicked? <==> urls == []
      ensures urls != [] ==>
                var u := parse(Pick(urls, old(calls)));
                && (u.Err? ==> r == Returned(Finished(Err(PE.InvalidUrl(u.error)))))
                && (u.Ok? && u.value.host.None? ==> r == Returned(Finished(Err(PE.InvalidUrl(NO_HOST)))))
                && (u.Ok? && u.value.host.Some? && u.value.port.None? ==> r == Returned(Finished(Err(PE.InvalidUrl(INVALID_PORT)))))
      ensures urls != [] && !Connects(parse(Pick(urls, old(calls)))) ==>
                sent == [] && pool == old(pool) && cache.config == old(cache.config)
      ensures urls != [] && Connects(parse(Pick(urls, old(calls)))) ==>
                var url := parse(Pick(urls, old(calls))).value;
                var full := Frame(url.host.value, url.path, payload, apiKey);
                var kept := Fresh(old(pool), now);
                var rest := if kept != [] then kept[1..] else [];
                && conn == (if kept != [] then Ok(kept[0].stream) else Dialled(url.host.value, dial, old(cache.config), roots))
                && (conn.Err? ==> r == Returned(Finished(Err(conn.error))) && sent == [] && pool == rest)
                && (conn.Ok? ==>
                      && r == Returned(sending)
                      && used <= |script|
                      && sent == full[..Min(Accepted(script[..used]), |full|)]
                      && (sending == Finished(Ok(Unit)) <==> sent == full)
                      && (sending.Exhausted? ==> used == |script|)
                      && (sending.Finished? && sending.result.Err? ==>
                            used > 0 && Fatal(script[used - 1]) && sending.result.error == ErrorOf(script[used - 1]))
                      && pool == if sending == Finished(Ok(Unit)) && |rest| < MAX_POOL_SIZE
                                 then rest + [PooledConnection(conn.value, now)] else rest)
    {
      conn, sending, used := Err(PE.Timeout), Exhausted, 0;
      var next := GetNextUrl();
      sent := [];
      if next.Panicked? {
        return Panicked(next.message), sent, conn, sending, used;
      }
      var parsed := parse(next.value);
      if parsed.Err? {
        return Returned(Finished(Err(PE.InvalidUrl(parsed.error)))), sent, conn, sending, used;
      }
      var url := parsed.value;
      if url.host.None? {
        return Returned(Finished(Err(PE.InvalidUrl(NO_HOST)))), sent, conn, sending, used;
      }
      if url.port.None? {
        return Returned(Finished(Err(PE.InvalidUrl(INVALID_PORT)))), sent, conn, sending, used;
      }
      var host := url.host.value;
      var stream := GetConnection(host, now, dial, roots, cache);
      conn := stream;
      if stream.Err? {
        return Returned(Finished(Err(stream.error))), sent, conn, sending, used;
      }
      var full := Utf8(CreateRequest(host, url.path, payload, apiKey)) + payload;
      var written, n;
      written, sent, n := SendNonBlocking(full, script);
      sending, used := written, n;
      if written != Finished(Ok(Unit)) {
        return Returned(written), sent, conn, sending, used;
      }
      ReturnConnection(stream.value, now);
      r := Returned(Finished(Ok(Unit)));
    }
  }
}
