# go-client core, modelled in Dafny

A model of the deterministic logic inside the `client` package of go-client,
a small wrapper for calling internal JSON-over-HTTP services:

- **Route composition** (`client/helpers.go`): `normalizePathPart` cuts one
  trailing `/` and adds a leading `/` when there is none; `PrefixRoute`
  joins an optional path prefix, an optional service name and a route.
- **Body encoding** (`client/helpers.go`): `ObjectToJSONReader` passes raw
  bytes through and JSON-marshals anything else, wrapping a marshalling
  failure as `ERROR_MARSHALLING_OBJECT`.
- **Request and response flow** (`client/client.go`): `MakeRequest` runs
  its stages in order (service finder, URL composition, request
  construction, transport, body read) and returns at the first failing
  stage with a fixed error code; `Do` passes a `MakeRequest` error on,
  classifies the status (success is `[200, 400)`), decodes a problem
  document on an error status and decodes into the caller's destination,
  if there is one, on a success status.

Files:

- `wrappers.dfy` — `Option` and `Result`.
- `errors.dfy` — module `Errors`: the error codes of `client/client.go`
  (plus `Remote` for a code a remote problem document carries), the
  problem document `{code, status, detail}`, and the two glitch
  constructors the package uses, modelled as records of what they were
  built from.
- `helpers.dfy` — module `Helpers`: `NormalizePathPart`, `PrefixRoute`,
  `ObjectToJSONReader` and their lemmas.
- `client.dfy` — module `Client`: the `client` record (finder, TLS flag,
  service name, HTTP client), `MakeRequest`, `Do` and their lemmas, with
  lemmas that follow the scenarios of `client/client_test.go`.

Modelling choices:

- Go strings are byte strings and `normalizePathPart` compares single
  bytes with `/`. The model uses `seq<char>`; since `/` is ASCII and never
  part of a multi-byte UTF-8 sequence, the comparisons and the one-byte
  cut agree on valid UTF-8 text.
- `normalizePathPart` panics on `""` (indexing the last byte) and on `"/"`
  (empty after the cut, then indexing the first byte). These are its
  precondition `Normalizable`; `PrefixRoute` demands it only of the parts
  it actually normalizes. The input `"//"` is accepted and gives `"/"`,
  which cannot itself be normalized again (`NormalizeOutputNormalizable`).
- The code removes at most one trailing slash and never collapses leading
  slashes, so its output can still end with `/` (`"a//"` gives `"/a/"`)
  or start with `//`. The model states exactly that and does not claim
  that the result never ends with `/`.
- The finder and the HTTP client (`http.Client.Do` with its timeout and
  transport) are function-valued fields of the `Client` record.
  `url.Values.Encode`, the failure `http.NewRequest` may report, and
  `json.Unmarshal` are uninterpreted functions passed in (`NetLib`,
  `JsonLib`), and so is `json.Marshal`, used by `ObjectToJSONReader`
  (`Marshaller`). A response body is the bytes it delivers and,
  optionally, the read error that ends it; `ReadAll` returns either.
- The destination `Do` decodes into (a Go reference) is modelled by value: `Do`
  takes its current value (or `None` for nil) and returns what it holds
  afterwards. After a failed decode it holds whatever `json.Unmarshal`
  left there, which the model leaves to the uninterpreted decoder.
- `client/helpers.go` imports glitch from `github.com/healthimation/go-glitch`,
  while `client/client.go` imports it from `github.com/sprak3000/go-glitch`;
  the model represents the errors of both with the one `DataError` type,
  so `ObjectToJSONReader`'s error is in fact a value of a different Go type.
- A nil `[]byte` is the empty sequence; Go treats the two alike for
  `len` and `json.Unmarshal`.
- The test at `client/client_test.go:145` expects `ERROR_MAKING_REQUEST`
  for an error status whose body is not a problem document. The code at
  `client/client.go:68` returns `ERROR_DECODING_ERROR`; the model follows
  the code (`UndecodableProblemExample`).

## Model

| member | source | states |
|---|---|---|
| Errors.LocalCodeTextsDistinct | client/client.go:17-24 | the six local error codes are spelled differently, so `Code()` tells the local failures apart from each other |
| Errors.RemoteCanSpellLocal | client/client.go:70 | a remote problem document can carry any local code's text, so `Code()` alone cannot tell a local failure from a remote one |
| Errors.NewDataError | client/client.go:88 | a wrapped error reports the local code it was given, its message, and wraps the cause |
| Errors.FromHTTPProblem | client/client.go:70 | an error built from a problem document reports the remote code the document carried, and the given message |
| Helpers.NormalizePathPart | client/helpers.go:36-48 | defined only for parts other than `""` and `"/"`; the result starts with `/`; at most one `/` is added in front and at most one removed at the end; everything between is kept |
| Helpers.NormalizeFixesNormalForm | client/helpers.go:42-45 | a part that starts with `/` and does not end with `/` comes back unchanged |
| Helpers.NormalizeKeepsSecondTrailingSlash | client/helpers.go:37-40 | the result ends with `/` exactly when the input ended with `//`: only one trailing slash is cut |
| Helpers.NormalizeKeepsDoubleLeadingSlash | client/helpers.go:42-47 | an input of three or more characters starting with `//` keeps both leading slashes |
| Helpers.NormalizeOutputNormalizable | client/helpers.go:38-43 | the result can be normalized again exactly when the input is not `"//"` |
| Helpers.NormalizeIdempotentIff | client/helpers.go:36-48 | normalizing twice equals normalizing once exactly when the input does not end with `//` |
| Helpers.PrefixRoute | client/helpers.go:24-34 | needs only the parts it uses to be normalizable; the result starts with `/` and ends with the normalized route |
| Helpers.PrefixRouteIsConcatenation | client/helpers.go:24-34 | all four branches equal normalized prefix (if non-empty) + normalized service name (if appended) + normalized route |
| Helpers.PrefixRouteIgnoresUnusedServiceName | client/helpers.go:29-30 | when the service name is not appended its value does not matter |
| Helpers.PrefixRouteExamples | client/helpers.go:24-48 | `"/foo/bar"`, `"/svc/foo/bar"` and `"/v1/svc/foo/bar"` for `PrefixRoute("svc", "", false, "/foo/bar")`, `("svc", "", true, "/foo/bar")` and `("svc", "v1", true, "/foo/bar/")`; `"a//"` gives `"/a/"` and `"//a"` stays `"//a"` |
| Helpers.ObjectToJSONReader | client/helpers.go:12-22 | raw bytes come back unchanged; any other value succeeds exactly when marshalling does, with the marshalled bytes; every failure is `ERROR_MARSHALLING_OBJECT` wrapping the marshalling cause |
| Helpers.RawBytesIgnoreMarshaller | client/helpers.go:14-15 | raw bytes are never re-encoded: the result does not depend on the marshaller |
| Client.ReadAll | client/client.go:113-116 | reading succeeds exactly when the stream ends without a read error, and then yields every byte it delivered |
| Client.Target | client/client.go:90-91 | the request URL is the finder's URL with path set to the slug and query to the encoded query, all else kept |
| Client.MakeRequest | client/client.go:85-119 | a failure always has status 0 and no body; finder failure gives `CANT_FIND_SERVICE`, construction failure `CANT_CREATE_REQUEST`, transport failure `ERROR_MAKING_REQUEST`, read failure `ERROR_DECODING_RESPONSE`, each wrapping its cause; the transport gets the target URL with exactly the caller's headers and body; success returns the response status and its whole body |
| Client.MakeRequestErrorCodes | client/client.go:86-116 | every error `MakeRequest` returns is a wrapped local error with one of its four codes |
| Client.FinderFailureSendsNothing | client/client.go:86-89 | after a finder failure the result does not depend on the query encoder, the request constructor or the transport |
| Client.CreationFailureSendsNothing | client/client.go:93-96 | after a request construction failure the result does not depend on the transport |
| Client.ErrorContext | client/client.go:70 | the message is `"Error from "`, the method, `" to "`, the service name, `" - "`, the slug, each at its stated position |
| Client.ErrorContextDeterminesSlug | client/client.go:70 | for a fixed method and service, different slugs give different messages |
| Client.Do | client/client.go:57-81 | a `MakeRequest` error is returned unchanged; outside `[200, 400)` an undecodable body gives `ERROR_DECODING_ERROR` and a problem document gives its remote error with the `ErrorContext` message, the destination untouched; inside it no destination means no error and no decoding, otherwise a decode failure gives `ERROR_DECODING_RESPONSE` and success stores the decoded value |
| Client.DoSucceedsIff | client/client.go:58-80 | `Do` returns no error exactly when `MakeRequest` succeeded, the status is in `[200, 400)`, and any destination decoded |
| Client.DoErrorCodes | client/client.go:64-76 | a locally built error from `Do` has one of its five stage codes, never `ERROR_MARSHALLING_OBJECT`; a `Code()` text of `"ERROR_MARSHALLING_OBJECT"` can only come from a remote document; the error is a remote one exactly when an error status came with a decodable problem document |
| Client.NoDestinationNoDecoding | client/client.go:73-80 | without a destination a success-range response yields no error whatever the JSON decoder would do |
| Client.ErrorStatusLeavesDestination | client/client.go:64-71 | on an error status the destination is returned as given and the destination decoder is never consulted |
| Client.ServerProblemExample | client/client_test.go:114-131 | GET of `"3"` on service `"foo"` answered 500 with problem `FOOBAR` gives that problem's error with message `"Error from GET to foo - 3"` |
| Client.UndecodableProblemExample | client/client_test.go:133-150 | a 500 answer whose body is no problem document gives `ERROR_DECODING_ERROR`, not `ERROR_MAKING_REQUEST` |
| Client.UndecodableSuccessExample | client/client_test.go:151-168 | a 201 answer the destination cannot decode gives `ERROR_DECODING_RESPONSE` |
| Client.FinderFailureExample | client/client_test.go:169-186 | a finder failure gives exactly `CANT_FIND_SERVICE` wrapping the finder's error and leaves the destination alone |
| Client.DecodedSuccessExample | client/client_test.go:40-56 | a 200 answer that decodes gives no error and the decoded destination |

## Left out

- Real HTTP: `http.Client`, `http.NewRequest`'s request object, the transport, timeouts, TLS and `NewBaseClient`'s choice of the default transport (client/client.go:45-55): network I/O and library plumbing; the HTTP client is an abstract function in the `Client` record and `NewBaseClient` itself is not modelled.
- Attaching a `context.Context` (client/client.go:100-102): cancellation and timing have no sequential meaning.
- The deferred drain and close of the response body (client/client.go:108-111): resource cleanup with no effect on any returned value.
- JSON encoding and decoding, `url.Values.Encode`, and the internals of glitch's `NewDataError` and `FromHTTPProblem`: foreign calls, modelled as uninterpreted functions or as records of their arguments.
- `u.String()` followed by `http.NewRequest`'s parse of it is taken to give back the same URL, and only the failure `http.NewRequest` may report is modelled. This is not exact: `URL.String()` puts a `/` in front of a path that lacks one when a host is set (the slug `"3"` goes out as `/3`), a URL with an `Opaque` part ignores the new path, and `http.NewRequest` turns the method `""` into `"GET"`. The model's request carries the slug and method exactly as given.
- Client.Do: the destination is modelled by value, so aliasing of the caller's reference is not captured.
- The mockgen directive and the test server of client/client_test.go: tooling; the tests appear only as the example lemmas.
