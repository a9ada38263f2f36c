# Treblle traefik middleware — a Dafny model

Treblle's Traefik middleware runs as an http-wasm guest inside the proxy.
For every request whose URI is not blacklisted and whose content type is
JSON, it reads the URI, method, headers and body from the host. It masks
sensitive body members and header values. It builds a telemetry record and
posts that record to a Treblle collector. When response buffering is on, it
does the same for the response and adds an error entry for failed
responses.

The repository holds two generations of this guest:

- `rust-http-wasm`, with a plain HTTP client that retries until a timeout;
- `treblle-wasm-plugin`, with a level-filtered logger, configuration
  validation and two clients: a single-attempt HTTP client, and a TLS
  client over WASI sockets with a connection pool.

It also holds `treblle-api`, a small collector that checks what it
receives.

This project models all three. Each source file is one Dafny module. The
host is a `class Host` whose calls are recorded in a trace, so the order of
effects can be stated. Both crates' request and response phases are one
parameterised state machine (`HandlerFlow`), instantiated with each
file's header kinds, body kinds and write-back behaviour. The laws about
that machine are in `HandlerLaws`.

Everything the code cannot see is a parameter: the network, the clock,
TLS, the JSON parser and the regex engine. Panics are explicit outcomes
(`Outcome.Panicked`, or `None` for a `Lazy` whose initialiser panics),
never preconditions.

Files:

| file | source |
|---|---|
| `wrappers.dfy`, `text.dfy`, `json.dfy`, `regex.dfy`, `io.dfy` | `Option`/`Result`, string helpers, `serde_json::Value`, `regex::Regex`, `std::io::Error` |
| `schema.dfy` | rust-http-wasm/src/schema.rs |
| `utils.dfy` | rust-http-wasm/src/utils.rs |
| `route_blacklist.dfy` | rust-http-wasm/src/route_blacklist.rs |
| `host_functions.dfy`, `host.dfy` | rust-http-wasm/src/host_functions.rs and the http-wasm host it calls |
| `hw_constants.dfy`, `hw_error.dfy`, `hw_config.dfy`, `hw_payload.dfy` | rust-http-wasm/src/{constants,error,config,payload}.rs |
| `hw_http_client.dfy`, `hw_http_handler.dfy`, `hw_lib.dfy` | rust-http-wasm/src/{http_client,http_handler,lib}.rs |
| `plugin_constants.dfy`, `plugin_error.dfy`, `logger.dfy`, `config_value.dfy`, `plugin_config.dfy`, `plugin_payload.dfy` | treblle-wasm-plugin/src/{constants,error,logger,config,payload}.rs |
| `http_request.dfy`, `url_rotation.dfy` | what both `http_client.rs` files share: the request built, the status check, the URL rotation |
| `plugin_http_client.dfy`, `wasi_http_client.dfy` | treblle-wasm-plugin/src/{http_client,wasi_http_client}.rs |
| `handler_flow.dfy`, `handler_laws.dfy` | the request and response phases of both crates |
| `plugin_http_handler.dfy`, `plugin_lib.dfy` | treblle-wasm-plugin/src/{http_handler,lib}.rs |
| `collector.dfy` | treblle-api/src/main.rs |

Where the code and its documentation differ, the model follows the code.

Where a file calls something its crate does not define, the nearest
definition in the repository is used, and this is stated in the module's
header comment:

- rust-http-wasm's handlers call a `Payload` API that only the plugin
  crate's `payload.rs` has.
- rust-http-wasm's `config.rs` uses `DEFAULT_TREBLLE_API_URLS`, which its
  `constants.rs` does not define. It is taken as the one-element list of
  `DEFAULT_TREBLLE_API_URL`.
- rust-http-wasm's `http_handler.rs` uses constants that are missing from
  its crate. They are taken with the plugin crate's values.
- The plugin crate declares its own `host_functions`, `route_blacklist`,
  `schema` and `utils` modules (treblle-wasm-plugin/src/lib.rs:11, 20-22;
  used from payload.rs:10-11 and http_handler.rs:11). Their files are not
  part of this model. The plugin's payload, handler and entry points use
  rust-http-wasm's modules of the same names in their place (`Host` with
  the `HostFunctions` behind it, `RouteBlacklist`, `Schema`, `Utils`). They are taken to
  agree with the plugin's own.

## Model

| member | source | states |
|---|---|---|
| Schema.DefaultErrorInfo | rust-http-wasm/src/schema.rs:110-120 | the default error entry has every text field empty and line 0 |
| Schema.DefaultPayloadData | rust-http-wasm/src/schema.rs:16-24 | a fresh record section holds no error entry and no request or response body |
| Schema.SerializeDigits | rust-http-wasm/src/schema.rs:96-108 | the status code and the body size are each written as a non-empty string of decimal digits that reads back as the number |
| Schema.WithOptional | rust-http-wasm/src/schema.rs:31-37 | a `None` optional string field is omitted; a `Some` field is present with its string |
| Schema.WithOptionalValue | rust-http-wasm/src/schema.rs:69-70 | a `None` optional JSON field is omitted; a `Some` field is present with its value |
| Schema.ServerToJson | rust-http-wasm/src/schema.rs:28-39 | the server object always has ip, timezone, protocol and os, and has software, signature and encoding exactly when they are set |
| Schema.LanguageToJson | rust-http-wasm/src/schema.rs:51-58 | the language object always has name and version, and has expose_php and display_errors exactly when they are set |
| Schema.RequestToJson | rust-http-wasm/src/schema.rs:62-71 | the request object has its six fixed members, and has `body` exactly when a body is set, holding that body |
| Schema.ResponseToJson | rust-http-wasm/src/schema.rs:75-84 | the response object has code, size, load_time and headers; code and size are digit strings that read back as the status and the size; `body` is present exactly when set, and then holds the body |
| Schema.DataToJson | rust-http-wasm/src/schema.rs:18-24 | the data object has exactly server, language, request, response and errors, with one array element per error entry |
| Schema.ToJson | rust-http-wasm/src/schema.rs:8-14 | the serialised record has exactly the five top-level members, carrying the API key, project id and SDK name unchanged |
| Utils.Masked | rust-http-wasm/src/utils.rs:109-146 | masking keeps the shape: objects stay objects with the same keys, arrays keep their length, scalars are unchanged |
| Utils.MaskedAt | rust-http-wasm/src/utils.rs:113-133 | along a path of keys the pattern does not match, the masked value has a node exactly where the original has one, and that node is the masked original node |
| Utils.ScalarsKept | rust-http-wasm/src/utils.rs:113-133 | a scalar reached without crossing a matching key survives masking unchanged |
| Utils.SentinelAtMatchingKey | rust-http-wasm/src/utils.rs:116-118 | the value under any matching key, whatever its type, becomes the sentinel string, and nothing below it survives |
| Utils.MaskedIdempotent | rust-http-wasm/src/utils.rs:109-146 | masking an already masked value changes nothing |
| Utils.MaskSensitiveData | rust-http-wasm/src/utils.rs:109-146 | fails exactly when the pattern does not compile, with the crate's `Regex` error; otherwise the result is the masked value |
| Utils.MaskSensitiveHeaders | rust-http-wasm/src/utils.rs:148-175 | fails exactly for an invalid pattern; otherwise keeps every header name, replaces exactly the values of matching names with the sentinel and keeps the others |
| Utils.ExtractIpFromHeaders | rust-http-wasm/src/utils.rs:177-192 | no address exactly when neither forwarding header is present; `X-Forwarded-For` wins over `X-Real-IP`; the result is the first comma-separated entry, trimmed, and holds no comma |
| Utils.ForwardedForYieldsClient | rust-http-wasm/src/utils.rs:177-192 | a proxy chain `client, proxy…` yields the client address without surrounding blanks |
| Utils.IsJsonIff | rust-http-wasm/src/utils.rs:194-197 | a content type is JSON exactly when its lower-cased form contains `application/json` somewhere |
| Utils.ParseJsonBody | rust-http-wasm/src/utils.rs:94-107 | a body the parser rejects becomes `null`; otherwise it is the parsed value |
| Utils.ParseRequest | rust-http-wasm/src/utils.rs:26-63 | fails exactly for an invalid pattern; otherwise the section carries the method, URI and timestamp given, the client address (or `Unknown`), the user agent, the masked body and the masked headers |
| Utils.ParseResponse | rust-http-wasm/src/utils.rs:65-92 | fails exactly for an invalid pattern; otherwise the section carries the status, the raw body length, the load time, the masked body and the masked headers |
| RouteBlacklist.New | rust-http-wasm/src/route_blacklist.rs:23-38 | the blacklist is built exactly when every pattern compiles, keeping the patterns in order; otherwise the `expect` panics |
| RouteBlacklist.AnyMatch | rust-http-wasm/src/route_blacklist.rs:40-43 | the scan finds a match exactly when some pattern in the list matches the URL |
| RouteBlacklist.EmptyBlacklistsNothing | rust-http-wasm/src/route_blacklist.rs:40-43 | an empty blacklist lets every URL through |
| RouteBlacklist.OrderIrrelevant | rust-http-wasm/src/route_blacklist.rs:40-43 | two blacklists naming the same patterns, in any order and with any repetition, give the same verdict on every URL |
| RouteBlacklist.MoreRoutesStillBlacklisted | rust-http-wasm/src/route_blacklist.rs:40-43 | adding patterns never lets a blacklisted URL through |
| RouteBlacklist.InvalidPatternPanics | rust-http-wasm/src/route_blacklist.rs:62-66 | one invalid pattern anywhere in the list makes construction panic |
| RouteBlacklist.BuildTwo | rust-http-wasm/src/route_blacklist.rs:23-38 | two valid patterns build a blacklist of exactly those two, in order |
| RouteBlacklist.AnchoredExamples | rust-http-wasm/src/route_blacklist.rs:50-59 | with `^/api/internal/.*$` and `^/health$`, internal routes and `/health` are blacklisted; public routes and `/healthcheck` are not |
| HostFunctions.Buffer | rust-http-wasm/src/host_functions.rs:9-10 | the 2048-byte buffer holds what the host wrote in its first bytes and zeroes after them |
| HostFunctions.ReadFromBuffer | rust-http-wasm/src/host_functions.rs:8-19 | a negative length is the read error; a length past the buffer or bytes that are not UTF-8 panic; otherwise the text decoded is the first `len` bytes |
| HostFunctions.ReadsWrittenPrefix | rust-http-wasm/src/host_functions.rs:8-19 | when the host filled at least `len` bytes, the text read is exactly the first `len` bytes the host wrote |
| HostFunctions.OnlyLimitConsulted | rust-http-wasm/src/host_functions.rs:10 | the callback is asked only with the limit 2048, so callbacks that agree there give the same result |
| HostFunctions.HostGetConfig | rust-http-wasm/src/host_functions.rs:73-76 | a failed read of the configuration gives the empty string; a successful one gives the text read |
| Host.Host.constructor | rust-http-wasm/src/host_functions.rs:21-60 | a host starts in the given state with an empty trace |
| Host.Host.GetUriCall | rust-http-wasm/src/host_functions.rs:93-95 | the URI, or the read error when the host has none; the call is recorded |
| Host.Host.GetMethodCall | rust-http-wasm/src/host_functions.rs:89-91 | the method, or the read error; the call is recorded |
| Host.Host.GetProtocolCall | rust-http-wasm/src/host_functions.rs:97-99 | the protocol version, or the read error; the call is recorded |
| Host.Host.GetStatusCall | rust-http-wasm/src/host_functions.rs:56 | the status code, which cannot fail; the call is recorded |
| Host.Host.GetHeaderNamesCall | rust-http-wasm/src/host_functions.rs:105-109 | the comma-separated names of the kind asked, or the read error; the call is recorded |
| Host.Host.GetHeaderValuesCall | rust-http-wasm/src/host_functions.rs:111-122 | the values of that header of that kind, or the read error; the call is recorded |
| Host.Host.ReadBodyCall | rust-http-wasm/src/host_functions.rs:54 | hands over the body of the kind and leaves it consumed, or fails without changing the bodies; the call is recorded |
| Host.Host.WriteBody | rust-http-wasm/src/host_functions.rs:55 | replaces the body of the kind by the bytes, unless the host refuses, in which case the bodies are unchanged and the refusal is returned |
| Host.Host.EnableFeaturesCall | rust-http-wasm/src/host_functions.rs:58 | adds the feature to those enabled; the call is recorded |
| Host.Host.DispatchCall | treblle-wasm-plugin/src/http_handler.rs:251-258 | posting the record changes no host data and returns the network outcome; the record is recorded (the phases call it only once a URL is configured, see `HandlerFlow.Send`) |
| Host.HostWriteRequestBody | rust-http-wasm/src/host_functions.rs:82-87 | writes to the request body (kind 0) and returns `Ok` even when the host refused the bytes |
| HttpWasmConstants.LogLevelsIncreasing | rust-http-wasm/src/constants.rs:3-6 | the level codes grow Debug < Info < Warn < Error |
| HttpWasmConstants.SameDefaultsAsPlugin | rust-http-wasm/src/constants.rs:9-11 | both crates mask the same keys by default and use the same 10-second timeout |
| HttpWasmError.Display | rust-http-wasm/src/error.rs:11-40 | each variant's display text is its prefix followed by its payload's text |
| HttpWasmError.ErrorTypeDistinct | rust-http-wasm/src/error.rs:48-59 | no two variants share an `error_type` label |
| HttpWasmError.InitialsGiveTag | rust-http-wasm/src/error.rs:11-40 | the first two characters of a display text identify the variant |
| HttpWasmError.DisplayDeterminesVariant | rust-http-wasm/src/error.rs:11-40 | equal display texts come from the same variant, and for text payloads from the same text |
| HttpWasmError.FromIo | rust-http-wasm/src/error.rs:19-20 | an I/O error converts to `Io` and displays as `I/O error: ` and its message |
| HttpWasmError.FromJson | rust-http-wasm/src/error.rs:15-16 | a JSON error converts to `Json` and displays behind `JSON error: ` |
| HttpWasmError.FromRegex | rust-http-wasm/src/error.rs:23-24 | a regex error converts to `Regex` and displays behind `Regex error: ` |
| HttpWasmConfig.FromValue | rust-http-wasm/src/config.rs:49-89 | each field is read from its key when it has the right JSON type, and otherwise takes its own default |
| HttpWasmConfig.Fallback | rust-http-wasm/src/config.rs:91-102 | the default collector, no credentials, no blacklist, the default pattern, no buffering |
| HttpWasmConfig.GetFromHost | rust-http-wasm/src/config.rs:35-38 | the host text parsed as JSON: the parsed value when it parses, otherwise the `Json` error carrying the parser's error (the Info line and `from_value` are GetOrFallback's) |
| HttpWasmConfig.GetOrFallback | rust-http-wasm/src/config.rs:24-47 | the parsed configuration read through `FromValue` whenever the text parses, with one Info line rendering the value; otherwise the fallback, with one Error line naming the parse error |
| HttpWasmConfig.NoCredentialCheck | rust-http-wasm/src/config.rs:24-33 | a configuration with an empty API key and project id is still accepted as it is |
| HttpWasmConfig.EmptyObjectIsFallback | rust-http-wasm/src/config.rs:130-139 | an empty configuration object reads as exactly the fallback |
| HttpWasmPayload.MaskRecursive | rust-http-wasm/src/payload.rs:58-76 | the in-place walk leaves the value equal to the functional masked copy |
| HttpWasmPayload.MaskedBody | rust-http-wasm/src/payload.rs:50-56 | an absent body stays absent and a present body is masked |
| HttpWasmPayload.MaskedBodyIdempotent | rust-http-wasm/src/payload.rs:50-56 | masking a body slot twice is the same as masking it once |
| HttpWasmPayload.InPlaceAgreesWithFunctional | rust-http-wasm/src/payload.rs:58-76 | the in-place masking and `utils::mask_sensitive_data` agree on every value for a valid pattern |
| HttpWasmPayload.RequestBody | rust-http-wasm/src/payload.rs:30-48 | a body that parses is stored as the parsed JSON; otherwise as the raw text in a JSON string |
| HttpWasmPayload.Payload.constructor | rust-http-wasm/src/payload.rs:9-12 | the struct literal: the payload holds exactly the record and the compiled pattern it is given |
| HttpWasmPayload.Payload.New | rust-http-wasm/src/payload.rs:15-28 | panics exactly when the configured pattern does not compile; otherwise a new payload holding that compiled pattern, the configured key and project id, version 0.6, the SDK name and the default sections |
| HttpWasmPayload.Payload.UpdateRequestInfo | rust-http-wasm/src/payload.rs:30-48 | overwrites method, URL, address, headers, body and timestamp; the user agent only when a `User-Agent` header is present; nothing else changes |
| HttpWasmPayload.Payload.MaskSensitiveData | rust-http-wasm/src/payload.rs:50-56 | masks the request and response bodies and changes nothing else |
| HttpWasmPayload.Payload.ToJson | rust-http-wasm/src/payload.rs:78-81 | the serialised record always has its five top-level fields |
| HttpWasmPayload.IsJsonSameAsUtils | rust-http-wasm/src/payload.rs:83-85 | the payload's content-type test accepts exactly what `utils::is_json` accepts |
| HttpRequest.PostHeaders | treblle-wasm-plugin/src/http_client.rs:88-91 | the POST declares a JSON body, carries the API key, and its `Content-Length` reads back as the number of payload bytes |
| HttpRequest.Attempt | treblle-wasm-plugin/src/http_client.rs:74-144 | `Ok` exactly when the URI parses, the send returns and the status is 2xx; each failure gives its own message: invalid URL, failed send, or HTTP status with body |
| HttpRequest.StatusReadsBack | treblle-wasm-plugin/src/http_client.rs:134-139 | the status of a failed answer can be read back from its error message |
| UrlRotation.RoundRobin | treblle-wasm-plugin/src/http_client.rs:36-39 | before the counter wraps, the n-th call picks the entry at n modulo the list length |
| UrlRotation.WrapRepeatsFirst | treblle-wasm-plugin/src/wasi_http_client.rs:73-77 | with three URLs, the calls on both sides of the 32-bit counter wrap both pick the first URL |
| HttpWasmClient.AttemptPost | rust-http-wasm/src/http_client.rs:81-123 | `Ok` exactly when the URL parses, the send returns and the status is 2xx; every failure is an `Http` error with its message |
| HttpWasmClient.Client.constructor | rust-http-wasm/src/http_client.rs:24-29 | the URLs as given and the counter at 0 |
| HttpWasmClient.Client.GetNextUrl | rust-http-wasm/src/http_client.rs:32-35 | the counter moves on and the URL at its old value modulo the length is returned; an empty list panics |
| HttpWasmClient.Client.Post | rust-http-wasm/src/http_client.rs:47-67 | one URL for all attempts; attempts are made only while the elapsed time is under the timeout; all but the last failed; `Ok` exactly when the last succeeded; the timeout error only once the time is up |
| HttpWasmClient.BadUrlNeverSucceeds | rust-http-wasm/src/http_client.rs:84-85 | against a URL that does not parse, no attempt succeeds, whatever the network answers |
| Logger.Default | treblle-wasm-plugin/src/logger.rs:34-38 | the default level is `None` |
| Logger.AsI32 | treblle-wasm-plugin/src/logger.rs:41-49 | each level's code is its constant |
| Logger.AsI32Ordered | treblle-wasm-plugin/src/logger.rs:41-49 | the codes order Debug < Info < Warn < Error < None, and no two levels share one |
| Logger.FromStr | treblle-wasm-plugin/src/logger.rs:51-60 | the five names in any case parse to their levels, `warning` to Warn, anything else to `None` |
| Logger.FromStrIgnoresCase | treblle-wasm-plugin/src/logger.rs:52 | letter case never changes the parsed level |
| Logger.NoneNeverEmitted | treblle-wasm-plugin/src/logger.rs:108 | a message at level `None` never reaches the host |
| Logger.EmitsUpward | treblle-wasm-plugin/src/logger.rs:102 | a more severe message passes wherever a less severe one does |
| Logger.SilencedByNone | treblle-wasm-plugin/src/logger.rs:102 | under the `None` threshold nothing is emitted |
| Logger.Emitted | treblle-wasm-plugin/src/logger.rs:101-111 | the records of a run of `log` calls are those whose level passes the threshold, in order |
| Logger.EmittedCodes | treblle-wasm-plugin/src/logger.rs:101-111 | every emitted record's code lies between the threshold and Error's code |
| Logger.EmittedAppend | treblle-wasm-plugin/src/logger.rs:101-111 | two runs of calls emit what each emits, one after the other |
| Logger.EmittedThree | treblle-wasm-plugin/src/logger.rs:101-111 | three runs of calls emit what the whole run emits |
| Logger.EmittedKeeps | treblle-wasm-plugin/src/logger.rs:101-111 | every call whose level passes the threshold reaches the host |
| Logger.EmittedNothingUnderNone | treblle-wasm-plugin/src/logger.rs:101-111 | under the `None` threshold no call reaches the host |
| Logger.Logger.constructor | treblle-wasm-plugin/src/logger.rs:23 | the threshold starts at Info's code with nothing emitted |
| Logger.Logger.Log | treblle-wasm-plugin/src/logger.rs:101-111 | emits the message under its level's code exactly when the level passes the threshold |
| Logger.Logger.Init | treblle-wasm-plugin/src/logger.rs:86-90 | stores the configured level as the threshold, then logs that at Debug under the new threshold |
| ConfigValue.StringsOf | treblle-wasm-plugin/src/config.rs:91-95 | a string is kept exactly when it is an element of the array, and there are no more strings than elements |
| ConfigValue.StringsOfAppend | treblle-wasm-plugin/src/config.rs:91-95 | filtering a concatenation gives the concatenated filtered parts |
| ConfigValue.StringsOfAllStrings | treblle-wasm-plugin/src/config.rs:91-95 | an array made only of strings is read back exactly |
| ConfigValue.StringListField | treblle-wasm-plugin/src/config.rs:115-123 | present exactly when the key holds an array, as its string elements |
| ConfigValue.StringField | treblle-wasm-plugin/src/config.rs:103-107 | present exactly when the key holds a string, as that string |
| ConfigValue.BufferResponseField | treblle-wasm-plugin/src/config.rs:131-137 | a boolean is taken as it is; a string is true exactly when it lowers to `true`; anything else or nothing is false |
| PluginConfig.FromValue | treblle-wasm-plugin/src/config.rs:86-150 | each field is read from its key with the right JSON type, and otherwise takes its own default |
| PluginConfig.Fallback | treblle-wasm-plugin/src/config.rs:153-167 | the default collectors, no credentials, no blacklist, the default pattern, no buffering, level `None` |
| PluginConfig.Validate | treblle-wasm-plugin/src/config.rs:170-180 | valid exactly when both credentials are non-empty; a missing key is reported before a missing project id |
| PluginConfig.FallbackNeverValidates | treblle-wasm-plugin/src/config.rs:49-54 | the fallback itself never validates, because it has no API key |
| PluginConfig.GetFromHost | treblle-wasm-plugin/src/config.rs:63-65 | the host's text parsed as JSON: the parsed value when the read and the parse succeed, otherwise the read error or the `Json` error, passed on (the Debug line and `from_value` are GetOrFallback's) |
| PluginConfig.GetOrFallback | treblle-wasm-plugin/src/config.rs:31-73 | the host's configuration exactly when it parses and validates, otherwise the fallback; the log lines of each path in order and in full: the Debug line rendering the value, then `Invalid configuration` on a rejection; on a read or parse failure, `Failed to parse config` and then `Fallback configuration is invalid` with the missing-key error, since the fallback never validates |
| PluginConfig.RejectionIsLogged | treblle-wasm-plugin/src/config.rs:34-53 | whenever the host's configuration is rejected, an Error line says so |
| PluginConfig.EmptyObjectIsFallback | treblle-wasm-plugin/src/config.rs:217-235 | an empty configuration object reads as exactly the fallback |
| PluginConfig.LogLevelWarningUpperCase | treblle-wasm-plugin/src/config.rs:289-295 | any spelling of a level name reads as its lower-case form does; `WARNING` reads as `Warn` |
| PluginConstants.LogLevelsIncreasing | treblle-wasm-plugin/src/constants.rs:3-7 | level codes grow with severity, `None` highest |
| PluginConstants.KindsDistinct | treblle-wasm-plugin/src/constants.rs:10-11 | the request and response kinds differ |
| PluginConstants.DefaultUrlsAreHttps | treblle-wasm-plugin/src/constants.rs:13-17 | three default collectors, all `https` |
| PluginConstants.PasswordIsSensitive | treblle-wasm-plugin/src/constants.rs:19-20 | under the default pattern, every key containing `password` in any letter case is masked |
| PluginConstants.AccessTokenIsSensitive | treblle-wasm-plugin/src/constants.rs:19-20 | the unanchored `cc` alternative also masks keys such as `accessToken` |
| PluginConstants.EmailIsNotSensitive | treblle-wasm-plugin/src/constants.rs:19-20 | `email` is not masked by the default pattern |
| PluginError.Display | treblle-wasm-plugin/src/error.rs:13-58 | each variant displays as its prefix and payload; `Timeout` as the fixed text |
| PluginError.InitialsGiveTag | treblle-wasm-plugin/src/error.rs:13-58 | characters 0, 1 and 8 of a display text identify the variant |
| PluginError.DisplayDeterminesVariant | treblle-wasm-plugin/src/error.rs:13-58 | no two variants can produce the same display text |
| PluginError.ConfigDisplayDiffersBetweenCrates | treblle-wasm-plugin/src/error.rs:49-50 | a configuration error reads `Config error: …` here and `Configuration error: …` in the other crate |
| PluginError.FromIo | treblle-wasm-plugin/src/error.rs:13-14 | an I/O error converts to `Io` and displays behind `I/O error: ` |
| PluginError.FromJson | treblle-wasm-plugin/src/error.rs:21-22 | a JSON error converts to `Json` and displays behind `JSON error: ` |
| PluginError.FromTls | treblle-wasm-plugin/src/error.rs:33-34 | a TLS error converts to `Tls` and displays behind `TLS error: ` |
| PluginError.FromRegex | treblle-wasm-plugin/src/error.rs:53-54 | a regex error converts to `Regex` and displays behind `Regex error: ` |
| PluginPayload.Initial | treblle-wasm-plugin/src/payload.rs:21-32 | a new record carries the credentials, the fixed version and SDK name, default sections and no error |
| PluginPayload.ServerSection | treblle-wasm-plugin/src/payload.rs:72-87 | the server section carries the protocol given |
| PluginPayload.LanguageSection | treblle-wasm-plugin/src/payload.rs:89-98 | the language section names Rust |
| PluginPayload.Payload.constructor | treblle-wasm-plugin/src/payload.rs:21-32 | the new payload is the initial record |
| PluginPayload.Payload.UpdateRequestInfo | treblle-wasm-plugin/src/payload.rs:34-44 | replaces only the request section by what `parse_request` builds, and panics exactly for an invalid pattern |
| PluginPayload.Payload.UpdateResponseInfo | treblle-wasm-plugin/src/payload.rs:46-56 | replaces only the response section by what `parse_response` builds, and panics exactly for an invalid pattern |
| PluginPayload.Payload.AddError | treblle-wasm-plugin/src/payload.rs:58-61 | appends one entry to the error list; nothing else changes |
| PluginPayload.Payload.UpdateServerInfo | treblle-wasm-plugin/src/payload.rs:72-87 | replaces the server section only |
| PluginPayload.Payload.UpdateLanguageInfo | treblle-wasm-plugin/src/payload.rs:89-98 | replaces the language section only |
| PluginPayload.Payload.ToJson | treblle-wasm-plugin/src/payload.rs:63-70 | the serialised record always has its five top-level fields and the credentials |
| PluginPayload.IsJsonExamples | treblle-wasm-plugin/src/payload.rs:169-174 | `application/json; charset=utf-8` is JSON and `text/plain` is not |
| HandlerFlow.StandardBuilds | treblle-wasm-plugin/src/payload.rs:34-98 | the crates' builder makes the records that the `Payload` calls of each phase make |
| HandlerFlow.Extend | treblle-wasm-plugin/src/http_handler.rs:36-66 | a trace followed by a run that starts with some events is the trace, those events, then the rest |
| HandlerFlow.CollectHeaders | treblle-wasm-plugin/src/http_handler.rs:159-165 | the header map has exactly the listed names whose values the host hands over, each with those values |
| HandlerFlow.ValueEvents | treblle-wasm-plugin/src/http_handler.rs:161-165 | one values call per listed name, in order |
| HandlerFlow.HeadersRun | treblle-wasm-plugin/src/http_handler.rs:148-173 | `get_headers` makes one names call, then only values calls of the same kind |
| HandlerFlow.GetHeaders | treblle-wasm-plugin/src/http_handler.rs:148-173 | the host's trace grows by exactly the calls of `HeadersRun`, and the result is its header map or its error |
| HandlerFlow.CollectValues | treblle-wasm-plugin/src/http_handler.rs:161-165 | the loop builds `CollectHeaders` and records one values call per name |
| HandlerFlow.WriteBack | treblle-wasm-plugin/src/http_handler.rs:184-189 | without write-back nothing happens; with it, one write of the body, which the host keeps unless it refuses |
| HandlerFlow.WriteBackCall | treblle-wasm-plugin/src/http_handler.rs:184-189 | the host's trace, bodies and the result are those of `WriteBack` |
| HandlerFlow.Send | treblle-wasm-plugin/src/http_handler.rs:234-269 | with no collector URL configured, nothing is posted and the run panics with the `% 0` message of `get_next_url`; otherwise one dispatch of the record, and a failed post becomes `SendFailed` with its message; the bodies are untouched either way |
| HandlerFlow.CreateErrorInfo | treblle-wasm-plugin/src/http_handler.rs:223-231 | the entry's source is `response`, its type `HTTP Error`, with no file and line 0 |
| HandlerFlow.ErrorMessageNamesStatus | treblle-wasm-plugin/src/http_handler.rs:227 | the entry's message is the fixed text followed by the status in decimal, from which the status reads back |
| HandlerFlow.ErrorInfo404 | treblle-wasm-plugin/src/http_handler.rs:279-288 | status 404 gives exactly the entry of the crate's test |
| HandlerFlow.ProcessRequest | treblle-wasm-plugin/src/http_handler.rs:36-66 | the host's trace, its bodies and the outcome are those of the request run against the host's starting state, including the panic at the post when no collector URL is configured |
| HandlerFlow.Screen | treblle-wasm-plugin/src/http_handler.rs:41-50 | from a known URI on, the host's trace, bodies and outcome follow the request run |
| HandlerFlow.Observe | treblle-wasm-plugin/src/http_handler.rs:52-53 | from a known method on, the host's trace, bodies and outcome follow the request run |
| HandlerFlow.Capture | treblle-wasm-plugin/src/http_handler.rs:54-56 | from known headers on, the host's trace, bodies and outcome follow the request run |
| HandlerFlow.Finish | treblle-wasm-plugin/src/http_handler.rs:58-65 | from a captured body on, the host's trace, bodies and outcome follow the request run |
| HandlerFlow.ProcessResponse | treblle-wasm-plugin/src/http_handler.rs:82-115 | the host's trace, its bodies and the outcome are those of the response run, including the panic at the post when no collector URL is configured |
| HandlerFlow.ReadReply | treblle-wasm-plugin/src/http_handler.rs:97-100 | from known headers on, the host's trace, bodies and outcome follow the response run |
| HandlerFlow.Report | treblle-wasm-plugin/src/http_handler.rs:102-114 | from a read body on, the host's trace, bodies and outcome follow the response run |
| HandlerLaws.RequestBlacklistedSkips | treblle-wasm-plugin/src/http_handler.rs:40-44 | a blacklisted URI ends the phase with `Ok` after reading it: nothing else is asked, read or sent |
| HandlerLaws.RequestNotJsonSkips | treblle-wasm-plugin/src/http_handler.rs:46-50 | a non-JSON content type ends the phase with `Ok`: no body is read or written and nothing is sent |
| HandlerLaws.RequestDispatchLast | treblle-wasm-plugin/src/http_handler.rs:36-66 | the request phase dispatches at most one record, as its last host call |
| HandlerLaws.RequestWritesBackWhatItRead | treblle-wasm-plugin/src/http_handler.rs:54-56 | the only body written is the request body, with exactly the bytes the host held, and only in a layout that writes back |
| HandlerLaws.RequestFailedReadStops | treblle-wasm-plugin/src/http_handler.rs:54 | a body the host cannot hand over stops the phase: nothing is written or sent and the bodies are unchanged |
| HandlerLaws.RequestRefusedWriteStops | treblle-wasm-plugin/src/http_handler.rs:56 | a write the host refuses stops the phase before anything is sent |
| HandlerLaws.RequestBodiesAfter | treblle-wasm-plugin/src/http_handler.rs:54-56 | the phase leaves the bodies as they were or with the request body consumed; an accepted write-back always leaves them as they were |
| HandlerLaws.RequestWrittenBeforeDispatch | treblle-wasm-plugin/src/http_handler.rs:54-61 | in a write-back layout, a record is dispatched only after the request body was written back with exactly the bytes held |
| HandlerLaws.RequestDispatchConsumesBody | rust-http-wasm/src/http_handler.rs:53-58 | in a layout without write-back, a phase that dispatches leaves the request body consumed |
| HandlerLaws.RequestRecordAt | treblle-wasm-plugin/src/http_handler.rs:58-61 | the dispatched record carries the configured credentials, the SDK name, the URI, method and protocol read, the headers read with sensitive headers masked, the JSON of the body bytes read with sensitive keys masked, the language section and no error entry |
| HandlerLaws.ResponseUnbufferedDoesNothing | treblle-wasm-plugin/src/http_handler.rs:83-89 | unless responses are buffered, the response phase asks the host nothing and returns `Ok` |
| HandlerLaws.ResponseIgnoresRequestLine | treblle-wasm-plugin/src/http_handler.rs:82-115 | the response phase never asks for the URI or method, and its run does not depend on them |
| HandlerLaws.ResponseDispatchLast | treblle-wasm-plugin/src/http_handler.rs:82-115 | the response phase dispatches at most one record, as its last host call |
| HandlerLaws.ResponseWritesBackWhatItRead | treblle-wasm-plugin/src/http_handler.rs:96-100 | the only body written is the response body with exactly the bytes held, and only in a write-back layout; a failed read stops before any write or send |
| HandlerLaws.ResponseRecordAt | treblle-wasm-plugin/src/http_handler.rs:102-108 | the record carries the credentials, status and protocol read, the headers read and the JSON of the body bytes read with their sensitive parts masked, the body's byte length, no request section, and one error entry for that status exactly when the host flags an error or the status is 400 or more |
| HandlerLaws.RequestWithoutUrlsNeverPosts | treblle-wasm-plugin/src/wasi_http_client.rs:73-77 | with an empty collector list the request phase never dispatches, and none of its failures is a failed post: where it would post, `get_next_url` panics |
| HandlerLaws.ResponseWithoutUrlsNeverPosts | rust-http-wasm/src/http_client.rs:32-35 | with an empty collector list the response phase never dispatches, and none of its failures is a failed post |
| HandlerLaws.ResponseBodiesAfter | treblle-wasm-plugin/src/http_handler.rs:96-100 | the bodies end as they were or with the response body consumed; an accepted write-back leaves them as they were |
| HandlerLaws.RequestKinds | treblle-wasm-plugin/src/http_handler.rs:53-56 | every header call of the request phase names the layout's request header kind, and every body call its request body kind |
| HandlerLaws.ResponseKinds | treblle-wasm-plugin/src/http_handler.rs:96-100 | every header call of the response phase names the response header kind, and every body call its response body kind |
| PluginHttpHandler.ErrorOf | treblle-wasm-plugin/src/http_handler.rs:118-258 | every host call's failure becomes `HostFunction` with its message; a failed post becomes `Http` behind the send prefix |
| PluginHttpHandler.ProcessRequest | treblle-wasm-plugin/src/http_handler.rs:36-66 | the host's trace, bodies and outcome are the request run with kinds 0, write-back on, the configured collector list (an empty one panics at the post), and the crate's error |
| PluginHttpHandler.ProcessResponse | treblle-wasm-plugin/src/http_handler.rs:82-115 | the host's trace, bodies and outcome are the response run with kinds 1, write-back on and the configured collector list (an empty one panics at the post) |
| PluginHttpHandler.RequestBodyWrittenBack | treblle-wasm-plugin/src/http_handler.rs:54-61 | the request body is written back with exactly the bytes read before anything is sent; an accepted write leaves the bodies as they began; a refused write stops before the dispatch |
| PluginHttpHandler.ResponseBodyWrittenBack | treblle-wasm-plugin/src/http_handler.rs:96-100 | the response body is written back with exactly the bytes read; an accepted write leaves the bodies as they began |
| PluginLib.Runtime.constructor | treblle-wasm-plugin/src/lib.rs:36-38 | no static is forced yet, the threshold is Info and nothing is logged |
| PluginLib.Runtime.ForceConfig | treblle-wasm-plugin/src/lib.rs:36 | `CONFIG` holds `get_or_fallback`'s result; its log lines pass the threshold the first time only |
| PluginLib.Runtime.ForceBlacklist | treblle-wasm-plugin/src/lib.rs:37-38 | `BLACKLIST` is forced, after `CONFIG` |
| PluginLib.Runtime.Init | treblle-wasm-plugin/src/logger.rs:86-90 | `CONFIG` is forced and the threshold becomes its level's code |
| PluginLib.Runtime.GreetRequest | treblle-wasm-plugin/src/lib.rs:60-66 | the greeting lines of `handle_request` are logged under the threshold, in order |
| PluginLib.Runtime.GreetResponse | treblle-wasm-plugin/src/lib.rs:96-97 | the greeting lines of `handle_response` are logged under the threshold, in order |
| PluginLib.Runtime.Close | treblle-wasm-plugin/src/lib.rs:73-80 | the phase's error, if any, and then the closing line unless it panicked, are logged under the threshold |
| PluginLib.Runtime.HandleRequest | treblle-wasm-plugin/src/lib.rs:55-83 | init, greeting, buffering enabled when configured, the request phase and its error logged; returns 1 whatever the phase returned, unless it panicked (as it does at the post with no collector URL configured) |
| PluginLib.Runtime.RequestPhase | treblle-wasm-plugin/src/lib.rs:68-73 | buffering enabled when configured, then the request phase, which forces `BLACKLIST` exactly when the URI is read |
| PluginLib.Runtime.HandleResponse | treblle-wasm-plugin/src/lib.rs:93-107 | init, greeting, the response phase and its error logged; `BLACKLIST` is not forced; only a panic reaches the host, such as the one at the post with no collector URL configured |
| HttpWasmHandler.ErrorOf | rust-http-wasm/src/http_handler.rs:113-251 | every host call's failure becomes `HostFunction` with its message; a failed post becomes `Http` behind the send prefix |
| HttpWasmHandler.ProcessRequest | rust-http-wasm/src/http_handler.rs:35-63 | the host's trace, bodies and outcome are the request run with kinds 0, no write-back and the configured collector list (an empty one panics at the post) |
| HttpWasmHandler.ProcessResponse | rust-http-wasm/src/http_handler.rs:79-110 | the host's trace, bodies and outcome are the response run with kinds 1, no write-back and the configured collector list (an empty one panics at the post) |
| HttpWasmHandler.RequestConsumesBody | rust-http-wasm/src/http_handler.rs:51-58 | no body is ever written, and a request phase that dispatches leaves the request body consumed |
| HttpWasmHandler.RequestReadsRequestBody | rust-http-wasm/src/http_handler.rs:52-53 | the request phase's header and body calls all name the request kind |
| HttpWasmHandler.ResponseReadsResponseBody | rust-http-wasm/src/http_handler.rs:93-94 | the response phase's header and body calls all name the response kind, and nothing is written |
| HttpWasmLib.ErrorOf | rust-http-wasm/src/lib.rs:59-106 | host failures become `HostFunction`, and those from `get_headers` and `read_body` carry the prefix twice; a failed post becomes `Http` |
| HttpWasmLib.HandleRequest | rust-http-wasm/src/lib.rs:220-239 | buffering enabled when configured, the request phase run, its error logged, and 1 returned unless it panicked (as it does at the post with no collector URL configured) |
| HttpWasmLib.HandleResponse | rust-http-wasm/src/lib.rs:241-251 | the response phase run and its error logged; only a panic reaches the host, such as the one at the post with no collector URL configured |
| HttpWasmLib.RequestReadsResponseBody | rust-http-wasm/src/lib.rs:85-95 | the request phase asks for headers of kind 0 but reads the body of kind 1, and writes nothing |
| HttpWasmLib.ResponseReadsRequestBody | rust-http-wasm/src/lib.rs:128-136 | the response phase asks for headers of kind 1 but reads the body of kind 0, and writes nothing |
| PluginHttpClient.AttemptPost | treblle-wasm-plugin/src/http_client.rs:74-144 | `Ok` exactly when the URL parses, the send returns and the status is 2xx; the request carries the root certificate path; every failure is an `Http` error |
| PluginHttpClient.Client.constructor | treblle-wasm-plugin/src/http_client.rs:28-33 | the URLs as given and the counter at 0 |
| PluginHttpClient.Client.GetNextUrl | treblle-wasm-plugin/src/http_client.rs:36-39 | the counter moves on and the URL at its old value modulo the length is returned; an empty list panics |
| PluginHttpClient.Client.Post | treblle-wasm-plugin/src/http_client.rs:52-59 | exactly one attempt against the next URL, its outcome passed on |
| WasiHttpClient.CreateRequest | treblle-wasm-plugin/src/wasi_http_client.rs:185-199 | the request head ends with the blank line |
| WasiHttpClient.HeadFraming | treblle-wasm-plugin/src/wasi_http_client.rs:185-199 | for a host, path and key without line feeds, a reader splitting at line feeds sees the request line, five headers and the blank line, and `Content-Length` reads back as the payload length |
| WasiHttpClient.Frame | treblle-wasm-plugin/src/wasi_http_client.rs:106-108 | the bytes written end with the payload unchanged, after the head's UTF-8 bytes |
| WasiHttpClient.SendNonBlocking | treblle-wasm-plugin/src/wasi_http_client.rs:211-232 | the writer receives a prefix of the data in order; `Ok` exactly when it received all of it; an error comes from a fatal answer, and every answer before it was not fatal |
| WasiHttpClient.Fresh | treblle-wasm-plugin/src/wasi_http_client.rs:133 | the pool keeps exactly the entries idle for less than a minute, in order |
| WasiHttpClient.FreshAppend | treblle-wasm-plugin/src/wasi_http_client.rs:133 | filtering a concatenation filters each part |
| WasiHttpClient.FreshReusesReturned | treblle-wasm-plugin/src/wasi_http_client.rs:133-138 | a connection given back goes to the end of the pool, and once every entry before it has expired it is the first fresh entry, so `GetConnection` reuses it next |
| WasiHttpClient.TlsCache.constructor | treblle-wasm-plugin/src/wasi_http_client.rs:42-45 | the cache starts empty |
| WasiHttpClient.TlsCache.GetClientConfig | treblle-wasm-plugin/src/wasi_http_client.rs:256-270 | the cached configuration if there is one; otherwise the new one, cached only on success; once set, the cache never changes |
| WasiHttpClient.Client.constructor | treblle-wasm-plugin/src/wasi_http_client.rs:64-70 | the list as given, the counter at 0, the pool empty |
| WasiHttpClient.Client.GetNextUrl | treblle-wasm-plugin/src/wasi_http_client.rs:73-77 | the counter moves on, wrapping as `usize` does, and the URL at the old counter modulo the length is returned; an empty list panics after the counter moved |
| WasiHttpClient.Client.GetConnection | treblle-wasm-plugin/src/wasi_http_client.rs:128-151 | stale entries dropped, then the oldest left reused; with none left, connect, non-blocking, server name, TLS configuration and handshake, each failure returning its own error |
| WasiHttpClient.Client.ReturnConnection | treblle-wasm-plugin/src/wasi_http_client.rs:159-171 | the connection goes to the end of the pool unless the pool already holds 50 |
| WasiHttpClient.Client.Post | treblle-wasm-plugin/src/wasi_http_client.rs:90-115 | an unparsable URL, a missing host or a missing port give `InvalidUrl` with nothing sent and the pool untouched; otherwise the connection is `GetConnection`'s (a fresh pooled one, else a new one), whose error is returned; the write is `SendNonBlocking`'s, whose outcome is returned and whose bytes are the prefix of head and payload it reports; after a complete write the connection goes to the end of the remaining pool unless 50 are held |
| Collector.HeaderValue | treblle-api/src/main.rs:44-48 | the first value under the name, with names compared in lower case |
| Collector.ValidatePayload | treblle-api/src/main.rs:59-63 | true exactly when the value is an object holding every required member |
| Collector.ValidateRequest | treblle-api/src/main.rs:43-57 | the content type is checked first, then the key, then the payload, and the first check that fails gives its message |
| Collector.ReceiveData | treblle-api/src/main.rs:30-41 | once the `Json` extractor has let the request through: 400 with the failed check's message, 200 otherwise |
| Collector.SerialisedPayloadValid | treblle-api/src/main.rs:59-63 | every record the guests serialise has the members the collector requires |
| Collector.ClientPostAccepted | treblle-api/src/main.rs:30-57 | the POST the `http_client.rs` clients send, whose body is the UTF-8 of a record's rendered JSON, is answered 200 when the extractor reads that JSON back |

## Left out

- The plugin crate's own host_functions.rs, route_blacklist.rs, schema.rs and utils.rs are not part of this model. `PluginPayload`, `PluginHttpHandler` and `PluginLib` use rust-http-wasm's `Host`, `RouteBlacklist`, `Schema` and `Utils` in their place. Any difference between the two crates' versions of those files is not captured.
- Logging inside the phases, in the clients and in `get_headers` is not modelled. Those are Debug/Info/Error lines with no effect on the host's data. The plugin's entry points keep their own `log` calls, the configuration's, and `init`'s. rust-http-wasm's entry points keep only their Error lines.
- The `Enabled features: …` line of both `handle_request`s is not modelled: it prints the host's return value, which the host interface here does not give.
- The `Lazy::force(&HTTP_CLIENT)` in the plugin's `handle_request` is not modelled. Building that client always succeeds and has no effect on the host.
- The plugin handler's `HTTP_CLIENT.lock()` and its `LockError` are not modelled: `HTTP_CLIENT` is not a mutex, and the crate's error type has no `LockError` variant. The locks inside the WASI client (`Mutex` poisoning) are left out too.
- Host calls fail with `anyhow::Error`, and neither crate converts that into its own error. The `?` on such a call is modelled as a `HostFunction` error carrying the call's message.
- `host_read_body` is not defined in the repository's `host_functions.rs`. It is modelled after the other reads: the body of the kind, or the read error, and the body is then consumed.
- The host's string reads (URI, method, protocol, header names and values) give the whole value or an error. In rust-http-wasm each of them goes through `read_from_buffer` (rust-http-wasm/src/host_functions.rs:8-19, 89-122), which panics when the host reports more than 2048 bytes or bytes that are not UTF-8. That panic is modelled in `HostFunctions.ReadFromBuffer` and `HostGetConfig` only, not in these reads or the phases that use them. So a URI or header value over 2048 bytes (a long cookie, say) is read here, and the record is sent, where the source panics. The members below inherit this gap.
- Host.Host.GetUriCall: never panics; the 2048-byte limit and the UTF-8 check of `read_from_buffer` are not applied.
- Host.Host.GetMethodCall: never panics; the 2048-byte limit and the UTF-8 check of `read_from_buffer` are not applied.
- Host.Host.GetProtocolCall: never panics; the 2048-byte limit and the UTF-8 check of `read_from_buffer` are not applied.
- Host.Host.GetHeaderNamesCall: never panics; a comma-joined name list over 2048 bytes, or one that is not UTF-8, is read whole.
- Host.Host.GetHeaderValuesCall: never panics; a value over 2048 bytes, or one that is not UTF-8, is read whole.
- HttpWasmHandler.ProcessRequest: does not panic on an over-long or non-UTF-8 URI, method, protocol or header read, as the source does.
- HttpWasmHandler.ProcessResponse: does not panic on an over-long or non-UTF-8 protocol or header read, as the source does.
- HttpWasmLib.HandleRequest: returns 1 and may dispatch where an over-long or non-UTF-8 URI, method, protocol or header read panics in the source.
- HttpWasmLib.HandleResponse: does not panic where an over-long or non-UTF-8 protocol or header read panics in the source.
- `Payload::to_json` is modelled as infallible: serialising the record's types cannot fail.
- Elapsed-time readings (`Instant`, `Utc::now`, `load_time`) are inputs. Time is whole milliseconds; no floating point is modelled.
- The network and TLS are inputs. Covered this way:
  - the outcome of the TCP connect, of the switch to non-blocking and of the handshake;
  - the root store (`create_tls_config`, `certs.rs`);
  - the writer's answers to `write`;
  - the HTTP exchange's reply.

  certs.rs is not part of this model.
- URL parsing (the `url` crate, the wasmedge `Uri`) is an input function, and so are `serde_json::from_str` and the regex engine.
- `String::from_utf8_lossy` of the reply: the reply body is given as text.
- Lower-casing is ASCII-only. Rust's `to_lowercase` also folds other letters.
- Header maps hold one value per name, as the handlers build them. Multiple values under one name in the collector's `HeaderMap` are reduced to the first.
- Retries sleep between attempts in rust-http-wasm. The sleep is not modelled; each attempt's clock reading is given.
- WasiHttpClient.SendNonBlocking: the writer's answers are a finite script. A writer that keeps answering `Ok(0)` makes the source loop forever; here the run ends as `Exhausted` when the script runs out.
- WasiHttpClient.Client.Post: the connection is given back with the same clock reading as the one used to pick it, not a new one.
- UrlRotation.RoundRobin: the round-robin law is stated before the counter wraps. The wrap at 2^32 (wasm32 `usize`) is in `Pick`, and `WrapRepeatsFirst` shows the cycle breaking.
- The re-panic of a `Lazy` whose initialiser panicked (`BLACKLIST` with an invalid pattern) is modelled as the first panic only: a panicked phase ends the call.
- The collector's `Json` extractor is not modelled. It rejects a request before `receive_data` runs when the content type is not in the JSON family (415) or the body does not parse; `Collector.ReceiveData` starts from the parsed body. So its content-type message is only answered for JSON-family types other than exactly `application/json`, such as `application/json; charset=utf-8`.
- The producer and consumer programs are examples outside the guest and are not modelled.
- The non-wasm builds (`env_logger`, the `log` crate mapping) are not modelled.

## Findings

| source | as written | input that shows it | evidently intended | confidence | as-written member | corrected member |
|---|---|---|---|---|---|---|
| rust-http-wasm/src/http_handler.rs:53-58 | the request body is read from the host and never written back. The file is not declared as a module in rust-http-wasm/src/lib.rs:14-22, so it is not built, and it calls `host_read_body`, which its crate does not define | a JSON request with a non-empty body that is not blacklisted: after the phase nothing has been written back, so if a host read consumes the body (this model's reading of the undefined `host_read_body`) the upstream service receives none | write the body back before sending, as treblle-wasm-plugin/src/http_handler.rs:56 does | medium, not executed | HttpWasmHandler.RequestConsumesBody | PluginHttpHandler.RequestBodyWrittenBack |
| rust-http-wasm/src/lib.rs:92 and 133 | the request phase reads the body of kind 1 (the response's) and the response phase the body of kind 0 (the request's) | any JSON request: the record's request body is the response body slot, and the request body is never seen | read kind 0 for the request and kind 1 for the response, matching the header kinds used beside them | high, not executed | HttpWasmLib.RequestReadsResponseBody | HttpWasmHandler.RequestReadsRequestBody |
