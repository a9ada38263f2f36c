/** Constants of the treblle-wasm-plugin crate (treblle-wasm-plugin/src/constants.rs). */
module PluginConstants {
  import opened Text

  const LOG_LEVEL_DEBUG: int := -1
  const LOG_LEVEL_INFO: int := 0
  const LOG_LEVEL_WARN: int := 1
  const LOG_LEVEL_ERROR: int := 2
  const LOG_LEVEL_NONE: int := 3

  const HEADER_CONTENT_TYPE: string := "Content-Type"
  /** Header and body kinds of the http-wasm host interface. */
  const REQUEST_KIND: nat := 0
  const RESPONSE_KIND: nat := 1

  const DEFAULT_TREBLLE_API_URLS: seq<string> := [
    "https://rocknrolla.treblle.com",
    "https://punisher.treblle.com",
    "https://sicario.treblle.com"
  ]

  const DEFAULT_SENSITIVE_KEYS_REGEX: string :=
    "(?i)(password|pwd|secret|password_confirmation|cc|card_number|ccv|ssn|credit_score)"

  const HTTP_TIMEOUT_SECONDS: nat := 10

  /** The alternatives of the default sensitive-key pattern, in order. */
  const SENSITIVE_KEY_WORDS: seq<string> :=
    ["password", "pwd", "secret", "password_confirmation", "cc", "card_number", "ccv", "ssn", "credit_score"]

  /** Log-level codes grow with severity. */
  lemma LogLevelsIncreasing()
    ensures LOG_LEVEL_DEBUG < LOG_LEVEL_INFO < LOG_LEVEL_WARN < LOG_LEVEL_ERROR < LOG_LEVEL_NONE
  {
  }

  /** Request and response kinds are told apart. */
  lemma KindsDistinct()
    ensures REQUEST_KIND == 0 && RESPONSE_KIND == 1 && REQUEST_KIND != RESPONSE_KIND
  {
  }

  /** Three default collectors, all reached over https. */
  lemma DefaultUrlsAreHttps()
    ensures |DEFAULT_TREBLLE_API_URLS| == 3
    ensures forall i :: 0 <= i < 3 ==> |DEFAULT_TREBLLE_API_URLS[i]| > 8 && DEFAULT_TREBLLE_API_URLS[i][..8] == "https://"
  {
  }

  /**
   * What the default pattern matches: it is the case-insensitive flag `(?i)`
   * and one group of the words above as alternatives, with no anchor, so a key
   * matches when it contains any of the words in any letter case.
   */
  predicate DefaultPatternMatches(key: string) {
    exists i :: 0 <= i < |SENSITIVE_KEY_WORDS| && Contains(ToLower(key), SENSITIVE_KEY_WORDS[i])
  }

  /** Every key containing `password`, in any letter case, is masked. */
  lemma PasswordIsSensitive(key: string)
    requires Contains(ToLower(key), "password")
    ensures DefaultPatternMatches(key)
  {
    assert SENSITIVE_KEY_WORDS[0] == "password";
  }

  /**
   * Because the pattern is unanchored and contains `cc`, keys that merely
   * contain those letters (such as `accessToken`) are treated as sensitive,
   * while `email` is not.
   */
  lemma AccessTokenIsSensitive()
    ensures DefaultPatternMatches("accessToken")
  {
    var k: string := "accesstoken";
    assert ToLower("accessToken") == k;
    var word := SENSITIVE_KEY_WORDS[4];
    assert word == "cc" && k[1..][..2] == word;
    assert Contains(k[1..], word);
    assert Contains(k, word);
  }

  lemma EmailIsNotSensitive()
    ensures !DefaultPatternMatches("email")
  {
    var k := ToLower("email");
    assert k == "email";
    forall i | 0 <= i < |SENSITIVE_KEY_WORDS| ensures !Contains(k, SENSITIVE_KEY_WORDS[i]) {
      var first := SENSITIVE_KEY_WORDS[i][0];
      assert first == 'p' || first == 's' || first == 'c';
      FirstCharAbsent(k, SENSITIVE_KEY_WORDS[i]);
    }
  }
}
