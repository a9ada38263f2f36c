/**
 * The host-buffer helper of rust-http-wasm/src/host_functions.rs and the two
 * wrappers built on it that this model keeps: `host_get_config` and
 * `host_write_request_body` (the latter in module `Host`). The other
 * `host_*` wrappers are foreign calls; they are the methods of `Host.Host`.
 */
module HostFunctions {
  import opened Wrappers
  import opened Text

  /** Size of the stack buffer every read goes through. */
  const READ_BUFFER_SIZE: nat := 2048

  /** Message of the error a negative length turns into. */
  const READ_FAILED: string := "Failed to read from buffer"

  /** Panic of `&read_buf[0..len]` with `len` beyond the buffer. */
  const SLICE_PANIC: string := "range end index out of range for slice of length 2048"

  /** Panic of `from_utf8(..).unwrap()` on bytes that are not UTF-8. */
  const UTF8_PANIC: string := "called `Result::unwrap()` on an `Err` value: Utf8Error"

  /**
   * What the host callback does when handed the buffer and a limit: it fills
   * a prefix of the buffer (`written`) and reports a length (`len`), negative
   * on failure.
   */
  datatype Reply = Reply(len: int, written: seq<byte>)

  /** The callback `read_fn`, as a function of the limit it is given. */
  type ReadFn = nat -> Reply

  /** `str::from_utf8`: the decoded text, or `None` for bytes that are not UTF-8. */
  type Utf8Decoder = seq<byte> -> Option<string>

  /**
   * The zero-initialised 2048-byte buffer after the host has written
   * `written` into it; bytes past the buffer are never written.
   */
  function Buffer(written: seq<byte>): (b: seq<byte>)
    ensures |b| == READ_BUFFER_SIZE
    ensures forall i :: 0 <= i < |b| ==> b[i] == if i < |written| then written[i] else 0
  {
    seq(READ_BUFFER_SIZE, i requires 0 <= i < READ_BUFFER_SIZE => if i < |written| then written[i] else 0)
  }

  /**
   * `read_from_buffer`: calls `read_fn` with the buffer limit, fails on a
   * negative length, and otherwise decodes the first `len` bytes of the
   * buffer, panicking when `len` exceeds the buffer or the bytes are not UTF-8.
   */
  function ReadFromBuffer(readFn: ReadFn, decode: Utf8Decoder): (r: Outcome<Result<string, string>>)
    ensures readFn(READ_BUFFER_SIZE).len < 0 <==> r == Returned(Err(READ_FAILED))
    ensures readFn(READ_BUFFER_SIZE).len > READ_BUFFER_SIZE ==> r == Panicked(SLICE_PANIC)
    ensures 0 <= readFn(READ_BUFFER_SIZE).len <= READ_BUFFER_SIZE ==>
              var bytes := Buffer(readFn(READ_BUFFER_SIZE).written)[..readFn(READ_BUFFER_SIZE).len];
              (decode(bytes).None? ==> r == Panicked(UTF8_PANIC))
              && (decode(bytes).Some? ==> r == Returned(Ok(decode(bytes).value)))
  {
    var reply := readFn(READ_BUFFER_SIZE);
    if reply.len < 0 then Returned(Err(READ_FAILED))
    else if reply.len > READ_BUFFER_SIZE then Panicked(SLICE_PANIC)
    else match decode(Buffer(reply.written)[..reply.len])
      case None => Panicked(UTF8_PANIC)
      case Some(s) => Returned(Ok(s))
  }

  /**
   * When the host has filled at least `len` bytes, what is decoded is exactly
   * the first `len` bytes the host wrote.
   */
  lemma ReadsWrittenPrefix(readFn: ReadFn, decode: Utf8Decoder)
    requires 0 <= readFn(READ_BUFFER_SIZE).len <= READ_BUFFER_SIZE
    requires readFn(READ_BUFFER_SIZE).len <= |readFn(READ_BUFFER_SIZE).written|
    ensures var reply := readFn(READ_BUFFER_SIZE);
            decode(reply.written[..reply.len]).Some? ==>
              ReadFromBuffer(readFn, decode) == Returned(Ok(decode(reply.written[..reply.len]).value))
  {
    var reply := readFn(READ_BUFFER_SIZE);
    assert Buffer(reply.written)[..reply.len] == reply.written[..reply.len];
  }

  /**
   * The callback is only ever consulted with the limit 2048: two callbacks
   * that agree on that limit give the same result.
   */
  lemma OnlyLimitConsulted(f: ReadFn, g: ReadFn, decode: Utf8Decoder)
    requires f(READ_BUFFER_SIZE) == g(READ_BUFFER_SIZE)
    ensures ReadFromBuffer(f, decode) == ReadFromBuffer(g, decode)
  {
  }

  /** `host_get_config`: the configuration text, or the empty string when the read fails. */
  function HostGetConfig(getConfig: ReadFn, decode: Utf8Decoder): (r: Outcome<string>)
    ensures getConfig(READ_BUFFER_SIZE).len < 0 ==> r == Returned("")
    ensures r.Panicked? <==> ReadFromBuffer(getConfig, decode).Panicked?
    ensures r.Returned? ==> ReadFromBuffer(getConfig, decode) == Returned(Ok(r.value))
                            || (ReadFromBuffer(getConfig, decode) == Returned(Err(READ_FAILED)) && r.value == "")
  {
    match ReadFromBuffer(getConfig, decode)
    case Panicked(m) => Panicked(m)
    case Returned(Err(_)) => Returned("")
    case Returned(Ok(s)) => Returned(s)
  }
}
