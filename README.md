# terraform-provider-utilities: a verified Dafny model

This project models the logic at the core of the Terraform utilities
provider, frederic-arr/terraform-provider-utilities. It then proves
properties of that model. The model covers two resources.

- **The `http` resource.** The core is the fetch pipeline `modelV0.read`.
  It maps the configuration onto a retrying HTTP client and builds the
  request. It applies the configured request headers, where a header
  named `host` in any case also overrides `Host`. It sends the request
  once through the client. Only when no error diagnostic was added does
  it write the computed attributes: `id`, `response_headers`,
  `response_body`, `body`, `response_body_base64` and `status_code`.
  Around it sit:
  - the retry decision the client is given (`makeCustomRetryPolicy`);
  - the adapter that turns the client's log calls into structured fields
    (`additionalFields`);
  - the schema validators, written as a validity predicate;
  - the resource's lifecycle calls.
- **The `nanoid` resource.** Create fills in the default alphabet and
  length and calls the id generator. Read and Update store the state
  they loaded. ImportState rebuilds a state from a bare id.

Modules, one file each:

| file | module | models |
|---|---|---|
| wrappers.dfy | Wrappers | Option and Result |
| bytes.dfy | Bytes | Go's `byte` |
| strings.dfy | Strings | ASCII lower-casing (which `strings.ToLower` reduces to when a name is compared with "host") and `strings.Join` |
| base64.dfy | Base64 | the standard encoding of section 4 of RFC 4648, with a decoder to prove it against |
| utf8.dfy | Utf8 | UTF-8 as RFC 3629 defines it: `utf8.Valid` and a string's byte length |
| framework.dfy | Framework | null/unknown/known values, diagnostics, the lifecycle response |
| nethttp.dfy | NetHttp | errors, requests and responses of `net/http` |
| retry_policy.dfy | RetryPolicy | `makeCustomRetryPolicy` and how many tries it leads to |
| logging.dfy | Logging | `levelledLogger.additionalFields` |
| fetch.dfy | Fetch | `modelV0.read`, as a class `HttpModel` whose fields `read` updates in place |
| http_resource.dfy | HttpResource | the schema validators and the lifecycle of the http resource |
| nanoid.dfy | NanoId | the nanoid resource |

Calls into code outside the model are parameters. Each stands for the
outcome of the call it replaces.

- `Fetch.Env` holds the outcome of:
  - whether `http.DefaultTransport` is an `*http.Transport`;
  - PEM and key-pair parsing;
  - the framework conversions `As`, `ElementsAs`, `ValueAs` and `MapValueFrom`;
  - `NewRequestWithContext` and `SetBody`;
  - `Header.Set`'s key canonicalisation;
  - `Client.Do`, with all its tries;
  - `time.Duration.String`.
- `RetryPolicy.Baseline` stands for `retryablehttp.DefaultRetryPolicy`. All that
  is assumed of it is what the resource's documentation says: among 5xx
  statuses it retries every one except 501.
- `NanoId.Generator` stands for `gonanoid.Generate`. Its lemmas assume only that a
  successful call returns an id of the requested length over the alphabet.
- `Loaded` values and the `stored` diagnostics stand for `Config.Get`,
  `State.Get` and `State.Set`.

Several operations loop in the source, and each is a `method` with a loop
proved against a function:
- `additionalFields`;
- the request-header loop;
- the response-header join.

The function is the specification, and the properties are lemmas about
it. `read` is a class method, split along its steps: TLS set-up (`ConfigureTls`),
client settings (`ConfigureClient`, `SetUpClient`), request building
(`Configure`), the header loop, and the response (`ReadBody`, `Deliver`,
`Write`). Each step is tied to a function of the old state (`Transport`,
`Settings`, `ClientSetup`, `Configured`, `BodyRead`, `Received`, `Written`).
Go's map iteration order is left open: the header loop is proved for
every order, and its outcome is stated as a relation
(`HeadersApplied`).

The code and the resource's description differ in one place. The code is
followed. The description says a client error is always retried.
`makeCustomRetryPolicy` calls the baseline first and stops when the
baseline stops with an error, before it looks at the transport error
(`RetryPolicy.FatalBaselineBeatsTransportError`). Two points the lifecycle
model makes explicit:
- Update loads the model from the prior state, not from the plan, so it
  re-fetches with the attributes already stored.
- ImportState of a nanoid records the id's length in bytes, whereas
  Create counts characters; the two differ for non-ASCII alphabets
  (`NanoId.NonAsciiImportLength`).

## Model

| member | source | states |
|---|---|---|
| `RetryPolicy.Listed` | internal/provider/http/shared.go:105-109 | the search over the success codes finds the status code exactly when it is in the list |
| `RetryPolicy.CheckRetry` | internal/provider/http/shared.go:85-113 | a done context stops at once with its error; a baseline that stops with an error is obeyed next; a transport error is then retried without error; with no list the baseline's verdict stands; with a list a listed status stops cleanly and any other is retried with "unexpected HTTP status …" |
| `RetryPolicy.OnlyMembershipMatters` | internal/provider/http/shared.go:101-111 | two success lists with the same members give the same verdict, whatever their order or repeats |
| `RetryPolicy.TransportErrorIgnoresList` | internal/provider/http/shared.go:96-99 | with a transport error the verdict does not depend on the success list |
| `RetryPolicy.FatalBaselineBeatsTransportError` | internal/provider/http/shared.go:91-99 | a transport error is not retried when the baseline stops with an error |
| `RetryPolicy.CancelledTriedOnce` | internal/provider/http/shared.go:87-89 | a context already done allows a single try |
| `RetryPolicy.UnlistedStatusUsesEveryTry` | internal/provider/http/shared.go:105-111 | a status outside a non-empty list is retried until the retries run out, even one the baseline accepts, and is reported as unexpected |
| `RetryPolicy.TriesFrom` | internal/provider/http/resource_http.go:192-197 | from try i on, the tries made stop after try i and within retryMax + 1 |
| `RetryPolicy.Tries` | internal/provider/http/resource_http.go:192-197 | N retries allow at least one and at most N + 1 tries |
| `RetryPolicy.RetriedUntilExhausted` | internal/provider/http/resource_http.go:192-197 | when every try is judged retryable, all N + 1 tries are made |
| `RetryPolicy.RetriesAsDocumented` | internal/provider/http/resource_http.go:58-61 | what the model assumes of the library's default policy, taken from the documentation: for a 5xx response with no transport error it asks for a retry exactly when the status is not 501 |
| `RetryPolicy.ServiceUnavailableUsesEveryTry` | internal/provider/http/resource_http.go:58-61 | a server that always answers 503 uses every try unless 503 is a success code |
| `RetryPolicy.NotImplementedTriedOnce` | internal/provider/http/resource_http.go:58-61 | with no success codes a 501 ends the tries after the first |
| `Logging.Fields` | internal/provider/http/shared.go:75-83 | the fields of a flat key/value list: one entry per complete pair, keyed by the printed key, a later pair with the same key replacing an earlier one, a trailing lone key ignored |
| `Logging.AdditionalFields` | internal/provider/http/shared.go:75-83 | the loop builds exactly the map of the complete key/value pairs, later pairs overwriting earlier ones |
| `Logging.FieldsKeys` | internal/provider/http/shared.go:78-80 | a name is a field exactly when some complete pair has it as key |
| `Logging.FieldsLastWins` | internal/provider/http/shared.go:78-80 | a repeated key keeps the value of its last pair |
| `Logging.FieldsSize` | internal/provider/http/shared.go:76-80 | there are at most len/2 fields |
| `Logging.OddTrailingDropped` | internal/provider/http/shared.go:78 | a trailing key without a value adds nothing |
| `Strings.HostSpellings` | internal/provider/http/shared.go:257 | "host", "Host" and "HOST" name the Host header; "hosts" and "X-Host" do not |
| `Strings.Join` | internal/provider/http/shared.go:312 | `strings.Join`: no parts give the empty string, one part is itself, and more are the parts with the separator between each two |
| `Strings.JoinLength` | internal/provider/http/shared.go:312 | a join holds every part and one separator between each two |
| `Strings.JoinSnoc` | internal/provider/http/shared.go:312 | joining one more value appends the separator and that value |
| `Strings.JoinSmall` | internal/provider/http/shared.go:312 | a single value passes through; two are joined by the separator |
| `Base64.Encode` | internal/provider/http/shared.go:307 | the encoding has 4 characters per started group of 3 bytes |
| `Base64.GroupRoundTrip` | internal/provider/http/shared.go:307 | a full group of three bytes decodes back from its four characters |
| `Base64.DecodeEncode` | internal/provider/http/shared.go:307 | decoding the encoding of any bytes gives back those bytes |
| `Utf8.Valid` | internal/provider/http/shared.go:299 | `utf8.Valid`: the bytes split into well-formed characters under the table of section 4 of RFC 3629, with no overlong form, no surrogate and nothing above U+10FFFF |
| `Utf8.AsciiBytesValid` | internal/provider/http/shared.go:299 | bytes below 0x80 are valid UTF-8 |
| `Utf8.Rejected` | internal/provider/http/shared.go:299 | a lone continuation byte, an overlong form and a surrogate are invalid, a three-byte character is valid |
| `Utf8.AsciiLength` | internal/provider/resource_nanoid.go:184 | an ASCII string's byte length is its number of characters |
| `Fetch.Settings` | internal/provider/http/shared.go:197-222 | the timeout is set exactly when request_timeout_ms is above 0; RetryMax is attempts, 0 without a retry block or without a known attempts; each wait bound is set exactly from a known value of at least 0; the success list is the configured one |
| `Fetch.Transport` | internal/provider/http/shared.go:128-185 | the TLS set-up in the order read does it: an unusable default transport, then a rejected CA certificate, then a rejected key pair stops it; otherwise it gives the insecure flag, the CA pool when ca_cert_pem is set and the certificate when both PEM blocks are set |
| `Fetch.TransportOutcome` | internal/provider/http/shared.go:128-185 | the TLS set-up fails exactly when the transport is unusable, the CA PEM is rejected or the key pair is; otherwise verification is skipped exactly when insecure is true, the CA pool is replaced exactly when ca_cert_pem is given, and a certificate is presented exactly when both PEM blocks are given |
| `Fetch.HttpModel.ConfigureTls` | internal/provider/http/shared.go:128-185 | the transport's TLS configuration, or the problem that stops read, as `Transport` gives it |
| `Fetch.HttpModel.ConfigureClient` | internal/provider/http/shared.go:197-222 | the retrying client's settings, as `Settings` gives them |
| `Fetch.ClientSetup` | internal/provider/http/shared.go:128-224 | the transport's problem is reported and stops read; the retry block's conversion diagnostics are appended and stop read when any diagnostic so far is an error; otherwise the success list's conversion diagnostics are appended unchecked and the client gets `Settings` |
| `Fetch.HttpModel.SetUpClient` | internal/provider/http/shared.go:128-224 | the diagnostics and client after the transport, the retry block and the success list, as `ClientSetup` gives them |
| `Fetch.Configured` | internal/provider/http/shared.go:119-246 | after the client, a failed NewRequest or SetBody is reported and stops read; otherwise the request has the method (GET when empty), the URL, the body when request_body is set, no headers and the host NewRequest gives |
| `Fetch.HttpModel.Configure` | internal/provider/http/shared.go:119-246 | how far read gets before the header loop, as `Configured` gives it |
| `Fetch.ConfiguredOutcome` | internal/provider/http/shared.go:119-246 | before the header loop read only adds diagnostics; it stops exactly when the TLS set-up, the retry block, NewRequest or SetBody fails, and then with an error; otherwise the request has the configured method (GET when empty), URL and body, no headers, and the URL's host |
| `Fetch.HeadersExact` | internal/provider/http/shared.go:248-256 | when no two configured names share a canonical key, each is set to its own value |
| `Fetch.HeadersOnlyConfigured` | internal/provider/http/shared.go:248-256 | every header key set is the canonical form of a configured name, with that name's value |
| `Fetch.HostOverride` | internal/provider/http/shared.go:257-259 | a single name that lower-cases to "host" sets Host to its value |
| `Fetch.HostFromSomeName` | internal/provider/http/shared.go:257-259 | Host stays the URL's host when no name is host-like, and is otherwise the value of some host-like name, whichever the map order visits last |
| `Fetch.HostMatchesHeader` | internal/provider/http/shared.go:255-259 | when the host-like names are exactly the names under one canonical key, the header under that key and Host hold the same value, because both are set from the name visited last |
| `Fetch.HeadersStep` | internal/provider/http/shared.go:256-259 | setting one more header keeps the loop's relation |
| `Fetch.ApplyHeader` | internal/provider/http/shared.go:249-259 | one turn appends the element's decoding diagnostics, stops exactly when any diagnostic so far is an error, else sets the header (and Host for a host-like name) |
| `Fetch.ApplyHeaders` | internal/provider/http/shared.go:248-260 | the loop runs through exactly when there are no elements, or no diagnostic so far is an error and no element's decoding reports one; it then sets every header as `HeadersFrom` relates them with no error added, and otherwise stops with an error that was there before or that an element's decoding reported |
| `Fetch.JoinedHeaderValues` | internal/provider/http/shared.go:309-313 | a single-valued response header passes through unchanged; two values are joined by ", "; the length is the parts plus the separators |
| `Fetch.JoinResponseHeaders` | internal/provider/http/shared.go:309-313 | the loop builds every header's values joined with ", " |
| `Fetch.TimeoutClassified` | internal/provider/http/shared.go:262-285 | every Do error is an error "Error making request"; the detail names the configured timeout exactly when the error is a timeout and request_timeout_ms is above 0; the other two detail texts are as written |
| `Fetch.BodyRead` | internal/provider/http/shared.go:262-304 | bytes come back exactly when Do and the body read succeed, and they are the body |
| `Fetch.ReadBody` | internal/provider/http/shared.go:262-304 | Do's error, the read error or the UTF-8 warning is reported as `BodyRead` gives it |
| `Fetch.Received` | internal/provider/http/shared.go:262-326 | after Do: its error or the body read's error stops read with the attributes unchanged; otherwise the UTF-8 warning and the header map conversion's diagnostics are added, and the response is written unless a diagnostic so far is an error |
| `Fetch.ReceivedOutcome` | internal/provider/http/shared.go:262-326 | after Do read only adds diagnostics; the response is written, whatever its status code, exactly when no error is reported; from a clean start that is when Do and the body read succeed and the header map converts; an invalid UTF-8 body draws the warning and is still written |
| `Fetch.Written` | internal/provider/http/shared.go:306-326 | the writes of a successful read: id becomes the URL, and response_headers, response_body, body, response_body_base64 and status_code come from the response; nothing else changes |
| `Fetch.WrittenOutputs` | internal/provider/http/shared.go:306-326 | a write changes only the computed attributes; response_body and body are equal; response_body_base64 decodes back to them and has the standard length |
| `Fetch.HttpModel.Deliver` | internal/provider/http/shared.go:288-326 | the diagnostics and attributes after Do, as `Received` gives them |
| `Fetch.HttpModel.Write` | internal/provider/http/shared.go:306-326 | the attributes after a write, as `Written` gives them |
| `Fetch.HttpModel.Read` | internal/provider/http/shared.go:119-327 | read stops before the header loop as `Configured` says, leaving the attributes alone; it stops in the loop, again leaving them alone and with an error, exactly when there are header elements and an earlier diagnostic is an error or an element's decoding reports one; else it sends the request with the configured headers and Host and the configured client, and ends as `Received` says; an error leaves every attribute unchanged, and a clean run writes Do's response |
| `HttpResource.ValidConfig` | internal/provider/http/resource_http.go:64-216 | the schema's validators: url is required; method is GET, POST or HEAD; request_timeout_ms is at least 1; attempts, min_delay_ms and max_delay_ms are at least 0 and max_delay_ms at least min_delay_ms; ca_cert_pem conflicts with insecure; client_cert_pem and client_key_pem each require the other; a null or unknown value passes a check on itself |
| `HttpResource.ValidSettings` | internal/provider/http/resource_http.go:64-216 | with a valid configuration the method sent is GET, POST or HEAD, a configured timeout is used as it is, RetryMax is never negative, configured wait bounds are used and the minimum never exceeds the maximum |
| `HttpResource.TriesBound` | internal/provider/http/resource_http.go:192-197 | with a valid configuration N attempts allow at most N + 1 tries, and no retry block allows exactly one |
| `HttpResource.ValidTls` | internal/provider/http/resource_http.go:129-150 | with a valid configuration a client certificate is presented exactly when one (and with it its key) is configured, and a custom CA pool never goes together with skipped verification |
| `HttpResource.UnvalidatedTls` | internal/provider/http/resource_http.go:129-150 | without the validators read accepts a CA with insecure and silently drops a certificate without its key |
| `HttpResource.Refresh` | internal/provider/http/resource_http.go:239-265 | the shared steps of Create and Update: stop on a load error; otherwise run read and store the model even after read's errors, unchanged after an error and with Do's response written otherwise; a request sent uses the loaded method, URL and client settings |
| `HttpResource.Create` | internal/provider/http/resource_http.go:239-251 | Create refreshes from the configuration |
| `HttpResource.Update` | internal/provider/http/resource_http.go:253-265 | Update refreshes from the prior state |
| `HttpResource.Read` | internal/provider/http/resource_http.go:227-237 | Read stores the prior state as loaded, without fetching |
| `HttpResource.Delete` | internal/provider/http/resource_http.go:267-273 | Delete only reports the load's diagnostics |
| `HttpResource.ImportState` | internal/provider/http/resource_http.go:275-277 | ImportState always adds the error "Not Implemented." |
| `NanoId.ValidConfig` | internal/provider/resource_nanoid.go:68-84 | the schema's validators: the alphabet has 1 to 255 characters and the length is between 1 and 64; null and unknown values pass |
| `NanoId.Created` | internal/provider/resource_nanoid.go:132-150 | Create: the generator is called with the configured alphabet and length, or the defaults where they are null; its error is passed on; otherwise the state holds the id and the alphabet and length used |
| `NanoId.CreatedOutcome` | internal/provider/resource_nanoid.go:132-150 | Create fails exactly when the generator does; otherwise it stores the id, keeps the keepers and writes back the configured alphabet and length, or the defaults where they are null |
| `NanoId.DefaultAlphabetShape` | internal/provider/resource_nanoid.go:25 | the default alphabet has 64 ASCII characters |
| `NanoId.ValidGeneratorArguments` | internal/provider/resource_nanoid.go:68-84 | a valid, settled configuration gives the generator 1 to 255 characters and a length from 1 to 64 |
| `NanoId.CreatedId` | internal/provider/resource_nanoid.go:142-150 | with a sound generator the stored id has exactly the chosen length over the chosen alphabet |
| `NanoId.EmptyConfigGivesTwentyOne` | internal/provider/resource_nanoid_test.go:28-34 | an empty configuration gives an id of 21 characters and records the default alphabet and 21 |
| `NanoId.LengthElevenGivesEleven` | internal/provider/resource_nanoid_test.go:50-56 | length 11 gives an id of 11 characters and records 11 and the default alphabet |
| `NanoId.Create` | internal/provider/resource_nanoid.go:125-152 | the diagnostics and state Create leaves: the load's error, the generator's error "Failed to generate id" with no state, or the state `Created` gives |
| `NanoId.Read` | internal/provider/resource_nanoid.go:154-162 | Read stores exactly the state it loaded |
| `NanoId.Update` | internal/provider/resource_nanoid.go:164-172 | Update stores exactly the state it loaded; nothing is regenerated |
| `NanoId.Delete` | internal/provider/resource_nanoid.go:174-180 | Delete only reports the load's diagnostics |
| `NanoId.Imported` | internal/provider/resource_nanoid.go:183-195 | ImportState: an id longer than 64 bytes is refused; otherwise the state holds the id, its length in bytes, the default alphabet and null keepers |
| `NanoId.ImportedOutcome` | internal/provider/resource_nanoid.go:182-195 | an id is accepted exactly when it takes at most 64 bytes; the state then holds the id, its byte length, the default alphabet and null keepers; an ASCII id's length is its character count |
| `NanoId.ImportRoundTrip` | internal/provider/resource_nanoid_test.go:36-40 | importing an id created with the default alphabet, whether left null or written out, and a valid length gives back the created state, with null keepers |
| `NanoId.NonAsciiImportLength` | internal/provider/resource_nanoid.go:184-192 | an id of two 2-byte characters is imported with length 4 |
| `NanoId.ImportState` | internal/provider/resource_nanoid.go:182-202 | ImportState rejects an id over 64 bytes with "Invalid id" and no state, and otherwise stores the state `Imported` gives |

## Left out

- TLS internals: the cloning of `http.DefaultTransport`, the proxy closure, x509 pool building and `tls.X509KeyPair`. These are foreign crypto and transport code, so only their success or failure is modelled.
- The `retryablehttp` client: its retry loop, backoff with jitter and sleeping, and `DefaultRetryPolicy`. The library is not part of this model. `RetryPolicy.Tries` is a driver bounded only by the documented attempts count.
- `time.Duration` arithmetic: a timeout or wait bound in milliseconds that overflows int64 nanoseconds is not modelled, because the durations are kept as millisecond counts.
- Network and byte I/O: `io.ReadAll`, `Body.Close` and how `url.Error.Timeout()` is decided. These are I/O; a read outcome and a timeout flag stand for them.
- Logging: the `tflog` sinks and `context.Context` beyond a context error, because they have no effect on the model's results.
- The framework's `State.Get`, `State.Set` and `Config.Get` serialisation. Their diagnostics and decoded values are parameters.
- The framework's de-duplication of equal diagnostics in `Diagnostics.Append`: appending is plain concatenation, because equal diagnostics never change whether an error is present.
- The `ElementsAs` partial fill on a conversion error: the model takes the configured list as it is.
- `Header.Set`'s key canonicalisation is a parameter (`Env.canonicalKey`), because it is `net/http` code.
- The order in which Go visits a map is not fixed. When two configured names are both host-like or share a canonical key, the model does not say which one wins.
- `Fetch.HttpModel.Write` computes the joined response headers after the `MapValueFrom` check rather than before it. The join is pure, so the outcome is the same.
- Schema, Metadata and Configure hooks: these are framework declarations with no logic beyond the validators modelled in `HttpResource.ValidConfig` and `NanoId.ValidConfig`.
- The `nanoid` generator `gonanoid.Generate` is a foreign call: a parameter, assumed `Sound` where a lemma needs it.
- The provider's registration (internal/provider/provider.go). It registers the nanoid and file resources but not the http resource, so the http resource is modelled as written but never served.
- The `file` resource (internal/provider/resource_file.go) is not part of this model. It is an unconditional download with no logic of its own.
- Plan modifiers such as RequiresReplace and UseStateForUnknown, and schema defaults in plans: these are framework behaviour, outside the resources' own code.
