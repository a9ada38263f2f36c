/**
 * The `regex` crate, kept abstract: which pattern strings compile and which
 * texts a compiled pattern matches are properties of an `Engine` that every
 * operation receives. `Regex::new` and `Regex::is_match` are modelled on top.
 */
module Regex {
  import opened Wrappers

  datatype Engine = Engine(compiles: string -> bool, isMatch: (string, string) -> bool)

  /** `regex::Error`, opaque apart from its message. */
  datatype Error = Syntax(message: string)

  /** A compiled pattern. */
  datatype Regex = Regex(pattern: string, engine: Engine) {
    predicate IsMatch(text: string) {
      engine.isMatch(pattern, text)
    }
  }

  /** `Regex::new(pattern)`: fails exactly when the engine rejects the pattern. */
  function New(engine: Engine, pattern: string): (r: Result<Regex, Error>)
    ensures r.Ok? <==> engine.compiles(pattern)
    ensures r.Ok? ==> r.value.pattern == pattern && r.value.engine == engine
  {
    if engine.compiles(pattern) then Ok(Regex(pattern, engine))
    else Err(Syntax("regex parse error: " + pattern))
  }
}
