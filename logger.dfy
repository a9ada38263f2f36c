/**
 * Log levels and the threshold filter of treblle-wasm-plugin/src/logger.rs.
 * The global `LOG_LEVEL` atomic is the `threshold` field of a `Logger`
 * object, and `host_log` appends to its `emitted` trace.
 */
module Logger {
  import opened Text
  import PluginConstants

  datatype LogLevel = Debug | Info | Warn | Error | None

  /** One `host_log(level, message)` call. */
  datatype Record = Record(code: int, message: string)

  /** A `log(level, message)` call that an operation asks for. */
  datatype LogLine = LogLine(level: LogLevel, message: string)

  /** `LogLevel::default()`. */
  function Default(): (l: LogLevel)
    ensures l == None
  {
    None
  }

  /** `as_i32`: the constant code of each level. */
  function AsI32(l: LogLevel): (r: int)
    ensures PluginConstants.LOG_LEVEL_DEBUG <= r <= PluginConstants.LOG_LEVEL_NONE
  {
    match l
    case Debug => PluginConstants.LOG_LEVEL_DEBUG
    case Info => PluginConstants.LOG_LEVEL_INFO
    case Warn => PluginConstants.LOG_LEVEL_WARN
    case Error => PluginConstants.LOG_LEVEL_ERROR
    case None => PluginConstants.LOG_LEVEL_NONE
  }

  /** The codes order the levels Debug < Info < Warn < Error < None, and no two levels share one. */
  lemma AsI32Ordered(a: LogLevel, b: LogLevel)
    ensures AsI32(a) == AsI32(b) <==> a == b
    ensures AsI32(Debug) == -1 && AsI32(Info) == 0 && AsI32(Warn) == 1 && AsI32(Error) == 2 && AsI32(None) == 3
  {
  }

  /** `from_str`: case-insensitive names; `warning` is an alias of `warn`; anything else is `None`. */
  function FromStr(s: string): (r: LogLevel)
    ensures r == Debug <==> ToLower(s) == "debug"
    ensures r == Info <==> ToLower(s) == "info"
    ensures r == Warn <==> ToLower(s) == "warn" || ToLower(s) == "warning"
    ensures r == Error <==> ToLower(s) == "error"
  {
    var t := ToLower(s);
    if t == "debug" then Debug
    else if t == "info" then Info
    else if t == "warn" || t == "warning" then Warn
    else if t == "error" then Error
    else if t == "none" then None
    else Default()
  }

  /** Letter case never changes the parsed level. */
  lemma FromStrIgnoresCase(s: string)
    ensures FromStr(s) == FromStr(ToLower(s))
  {
    ToLowerIdempotent(s);
  }

  /** The `{:?}` rendering of a level. */
  function DebugName(l: LogLevel): string {
    match l
    case Debug => "Debug"
    case Info => "Info"
    case Warn => "Warn"
    case Error => "Error"
    case None => "None"
  }

  /** A message at `level` reaches the host under `threshold`: at or above it, and never at `None`. */
  predicate Emits(level: LogLevel, threshold: int) {
    AsI32(level) >= threshold && level != None
  }

  /** A message at level `None` is never emitted, whatever the threshold. */
  lemma NoneNeverEmitted(threshold: int)
    ensures !Emits(None, threshold)
  {
  }

  /** A more severe message passes wherever a less severe one does. */
  lemma EmitsUpward(a: LogLevel, b: LogLevel, threshold: int)
    requires Emits(a, threshold) && AsI32(a) <= AsI32(b) && b != None
    ensures Emits(b, threshold)
  {
  }

  /** Under the `None` threshold nothing is emitted at all. */
  lemma SilencedByNone(level: LogLevel)
    ensures !Emits(level, AsI32(None))
  {
  }

  /** The `host_log` records that the `log` calls `lines` leave under `threshold`, in order. */
  function Emitted(lines: seq<LogLine>, threshold: int): (r: seq<Record>)
    ensures |r| <= |lines|
  {
    if lines == [] then []
    else
      var head := if Emits(lines[0].level, threshold) then [Record(AsI32(lines[0].level), lines[0].message)] else [];
      head + Emitted(lines[1..], threshold)
  }

  /** Each record that reaches the host carries a code between the threshold and Error's. */
  lemma {:induction false} EmittedCodes(lines: seq<LogLine>, threshold: int)
    ensures forall r :: r in Emitted(lines, threshold) ==> threshold <= r.code <= PluginConstants.LOG_LEVEL_ERROR
  {
    if lines != [] {
      EmittedCodes(lines[1..], threshold);
    }
  }

  /** Logging two runs of calls emits what each emits, one after the other. */
  lemma {:induction false} EmittedAppend(a: seq<LogLine>, b: seq<LogLine>, threshold: int)
    ensures Emitted(a + b, threshold) == Emitted(a, threshold) + Emitted(b, threshold)
  {
    if a != [] {
      assert (a + b)[0] == a[0] && (a + b)[1..] == a[1..] + b;
      EmittedAppend(a[1..], b, threshold);
      var head := if Emits(a[0].level, threshold) then [Record(AsI32(a[0].level), a[0].message)] else [];
      assert Emitted(a + b, threshold) == head + (Emitted(a[1..], threshold) + Emitted(b, threshold));
    } else {
      assert a + b == b;
    }
  }

  /** Three runs of calls made one after the other, after the records `before`. */
  lemma EmittedThree(before: seq<Record>, a: seq<LogLine>, b: seq<LogLine>, c: seq<LogLine>, threshold: int)
    ensures before + Emitted(a, threshold) + Emitted(b, threshold) + Emitted(c, threshold)
            == before + Emitted(a + b + c, threshold)
  {
    EmittedAppend(a, b, threshold);
    EmittedAppend(a + b, c, threshold);
    var ea, eb, ec := Emitted(a, threshold), Emitted(b, threshold), Emitted(c, threshold);
    assert before + ea + eb + ec == before + (ea + eb + ec);
  }

  /** Every call whose level passes the threshold reaches the host. */
  lemma {:induction false} EmittedKeeps(lines: seq<LogLine>, threshold: int, i: nat)
    requires i < |lines| && Emits(lines[i].level, threshold)
    ensures Record(AsI32(lines[i].level), lines[i].message) in Emitted(lines, threshold)
  {
    if i > 0 {
      EmittedKeeps(lines[1..], threshold, i - 1);
    }
  }

  /** Under the `None` threshold no call reaches the host. */
  lemma {:induction false} EmittedNothingUnderNone(lines: seq<LogLine>)
    ensures Emitted(lines, AsI32(None)) == []
  {
    if lines != [] {
      EmittedNothingUnderNone(lines[1..]);
    }
  }

  class Logger {
    /** `LOG_LEVEL`. */
    var threshold: int
    /** Every `host_log` call made so far, in order. */
    var emitted: seq<Record>

    /** The threshold starts at Info. */
    constructor()
      ensures threshold == PluginConstants.LOG_LEVEL_INFO && emitted == []
    {
      threshold := PluginConstants.LOG_LEVEL_INFO;
      emitted := [];
    }

    /** `log`: emits the message under the level's own code iff `Emits` holds. */
    method Log(level: LogLevel, message: string)
      modifies this
      ensures threshold == old(threshold)
      ensures emitted == old(emitted) + (if Emits(level, threshold) then [Record(AsI32(level), message)] else [])
    {
      if AsI32(level) >= threshold {
        match level
        case None =>
        case _ => emitted := emitted + [Record(AsI32(level), message)];
      }
    }

    /** `init`: stores the configured level as the threshold, then logs it at Debug. */
    method Init(configured: LogLevel)
      modifies this
      ensures threshold == AsI32(configured)
      ensures emitted == old(emitted) + (if configured == Debug
                                          then [Record(-1, "Log level set to: " + DebugName(configured))] else [])
    {
      threshold := AsI32(configured);
      Log(Debug, "Log level set to: " + DebugName(configured));
    }
  }
}
