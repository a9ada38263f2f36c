/**
 * The field readers that both crates' `Config::from_value` apply to the JSON
 * configuration (rust-http-wasm/src/config.rs, treblle-wasm-plugin/src/config.rs).
 */
module ConfigValue {
  import opened Wrappers
  import opened Text
  import opened Json

  /** `a.iter().filter_map(|v| v.as_str().map(String::from)).collect()`: the string elements, in order. */
  function StringsOf(items: seq<Json>): (r: seq<string>)
    ensures |r| <= |items|
    ensures forall s :: s in r <==> String(s) in items
  {
    if items == [] then []
    else
      var rest := StringsOf(items[1..]);
      assert forall x :: x in items[1..] ==> x in items;
      assert forall x :: x in items ==> x == items[0] || x in items[1..];
      if items[0].String? then [items[0].s] + rest else rest
  }

  /** Filtering keeps order: the strings of a concatenation are the concatenated strings. */
  lemma {:induction false} StringsOfAppend(a: seq<Json>, b: seq<Json>)
    ensures StringsOf(a + b) == StringsOf(a) + StringsOf(b)
  {
    if a == [] {
      assert a + b == b;
    } else {
      assert (a + b)[0] == a[0] && (a + b)[1..] == a[1..] + b;
      StringsOfAppend(a[1..], b);
    }
  }

  /** An array made only of strings is read back exactly. */
  lemma {:induction false} StringsOfAllStrings(ss: seq<string>)
    ensures StringsOf(seq(|ss|, i requires 0 <= i < |ss| => String(ss[i]))) == ss
  {
    if ss != [] {
      var items := seq(|ss|, i requires 0 <= i < |ss| => String(ss[i]));
      assert items[1..] == seq(|ss[1..]|, i requires 0 <= i < |ss[1..]| => String(ss[1..][i]));
      StringsOfAllStrings(ss[1..]);
    }
  }

  /** `value.get(key).and_then(as_array).map(strings)`: absent unless the key holds an array. */
  function StringListField(v: Json, key: string): (r: Option<seq<string>>)
    ensures r.Some? <==> Get(v, key).Some? && Get(v, key).value.Array?
    ensures r.Some? ==> r.value == StringsOf(Get(v, key).value.items)
  {
    match Get(v, key)
    case Some(Array(items)) => Some(StringsOf(items))
    case _ => None
  }

  /** `value.get(key).and_then(as_str)`: absent unless the key holds a string. */
  function StringField(v: Json, key: string): (r: Option<string>)
    ensures r.Some? <==> Get(v, key).Some? && Get(v, key).value.String?
    ensures r.Some? ==> r.value == Get(v, key).value.s
  {
    match Get(v, key)
    case Some(String(s)) => Some(s)
    case _ => None
  }

  /**
   * `bufferResponse`: a boolean is taken as it is, a string is true exactly
   * when it lowers to `true`, and anything else (or nothing) is false.
   */
  function BufferResponseField(v: Json): (r: bool)
    ensures Get(v, "bufferResponse").Some? && Get(v, "bufferResponse").value.Bool? ==> r == Get(v, "bufferResponse").value.b
    ensures Get(v, "bufferResponse").Some? && Get(v, "bufferResponse").value.String? ==> (r <==> ToLower(Get(v, "bufferResponse").value.s) == "true")
    ensures r ==> Get(v, "bufferResponse").Some? && (Get(v, "bufferResponse").value.Bool? || Get(v, "bufferResponse").value.String?)
  {
    match Get(v, "bufferResponse")
    case Some(Bool(b)) => b
    case Some(String(s)) => ToLower(s) == "true"
    case _ => false
  }
}
