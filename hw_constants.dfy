/** Constants of the rust-http-wasm crate (rust-http-wasm/src/constants.rs). */
module HttpWasmConstants {
  import PluginConstants

  const LOG_LEVEL_ERROR: int := 2
  const LOG_LEVEL_WARN: int := 1
  const LOG_LEVEL_INFO: int := 0
  const LOG_LEVEL_DEBUG: int := -1

  /** The single default collector of this crate. */
  const DEFAULT_TREBLLE_API_URL: string := "http://treblle-api:3002/api"

  const DEFAULT_SENSITIVE_KEYS_REGEX: string :=
    "(?i)(password|pwd|secret|password_confirmation|cc|card_number|ccv|ssn|credit_score)"

  const HTTP_TIMEOUT_SECONDS: nat := 10

  /** Log-level codes grow with severity, and this crate has no `None` level. */
  lemma LogLevelsIncreasing()
    ensures LOG_LEVEL_DEBUG < LOG_LEVEL_INFO < LOG_LEVEL_WARN < LOG_LEVEL_ERROR
  {
  }

  /** Both crates mask the same keys by default and time out after the same 10 seconds. */
  lemma SameDefaultsAsPlugin()
    ensures DEFAULT_SENSITIVE_KEYS_REGEX == PluginConstants.DEFAULT_SENSITIVE_KEYS_REGEX
    ensures HTTP_TIMEOUT_SECONDS == PluginConstants.HTTP_TIMEOUT_SECONDS == 10
  {
  }
}
