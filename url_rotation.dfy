/**
 * The round-robin choice of a collector URL shared by the three clients'
 * `get_next_url` (treblle-wasm-plugin/src/wasi_http_client.rs,
 * treblle-wasm-plugin/src/http_client.rs, rust-http-wasm/src/http_client.rs):
 * an atomic counter bumped by `fetch_add(1)`, taken modulo the list length.
 */
module UrlRotation {
  /** `usize` on wasm32: `fetch_add` wraps the counter around at this value. */
  const USIZE: nat := 0x1_0000_0000

  /** The panic of `x % 0`, which `get_next_url` hits on an empty URL list. */
  const REMAINDER_BY_ZERO: string := "attempt to calculate the remainder with a divisor of zero"

  /** The URL the `call`-th `get_next_url` returns (counting from 0), with the counter's wrap-around. */
  function Pick(urls: seq<string>, call: nat): string
    requires urls != []
  {
    urls[call % USIZE % |urls|]
  }

  /** Before the counter wraps, the `call`-th call picks the list's entry at `call` modulo its length. */
  lemma RoundRobin(urls: seq<string>, call: nat)
    requires urls != [] && call < USIZE
    ensures Pick(urls, call) == urls[call % |urls|]
  {
    assert call % USIZE == call;
  }

  /**
   * With three URLs (the plugin's default list) the wrap-around breaks the
   * cycle: call 2^32 - 1 and call 2^32 both pick the first URL.
   */
  lemma WrapRepeatsFirst(urls: seq<string>)
    requires |urls| == 3
    ensures Pick(urls, USIZE - 1) == urls[0] && Pick(urls, USIZE) == urls[0]
  {
    assert (USIZE - 1) % 3 == 0;
  }
}
