# elton-responder, modelled in Dafny

This project models the responder middleware of elton-responder. The middleware runs after the rest of an elton handler chain. It then turns whatever the handler left in `c.Body` into the response body bytes, a `Content-Type` header and a status code.

- `responder.dfy`, module `Responder`, holds the value model.
  - `New` and `NewDefault` resolve the configuration defaults.
  - `Encode` is the type switch on the body.
  - `Finish` is everything the handler does after `c.Next()` returns.
  - `Handle` is the whole handler closure for one request. The rest of the chain is a function from the response to the outcome it leaves.
  - Lemmas relate these functions to each other.
- `context.dfy`, module `ResponderContext`, holds the imperative side.
  - Class `Context` has the four fields the handler reads and writes: `body`, `bodyBuffer`, `statusCode` and `contentType`.
  - Its method `Respond` follows the closure line by line. It is proved to leave the context and return the error that `Handle` gives.
  - The methods named `Scenario…` replay each case of `responder_test.go` on `Respond`. They assert the handler's own outcome: the error it returns and the fields it leaves. What the transport or the error renderer later writes is not part of them.
- `wrappers.dfy` holds `Option` and `Result`.

Three behaviours of the code worth noting:

- A marshal failure is returned up the chain as a 500 `hes.Error` with `Exception` set. It is not written into the response body.
- A body that encodes to zero bytes leaves `BodyBuffer` nil.
- A response whose buffer was already set, or whose body is a reader, keeps its status code, even when that code is 0.

## Model

| member | source | states |
|---|---|---|
| `Responder.New` | responder.go:60-73 | A nil skipper becomes the default one. A nil marshal becomes the JSON encoder. An empty content type becomes application/json. The resolved content type is never empty, and a configured one is kept. |
| `Responder.NewDefault` | responder.go:54-57 | The default responder uses the default skipper, the JSON encoder and defaults to application/json. |
| `Responder.NewIgnoresFastest` | responder.go:60-73 | Flipping `Config.Fastest` does not change the handler `New` builds, because `New` never reads it. |
| `Responder.Encode` | responder.go:106-133 | Strings and byte slices become their own bytes and never fail. Any other value fails exactly when marshal fails, with marshal's error. On success it yields marshal's bytes and the configured content type. A string calls for text/plain and a byte slice for application/octet-stream. Nil and reader bodies yield no bytes and call for no content type. |
| `Responder.Finish` | responder.go:79-143 | An error from the chain is returned unchanged. A preset buffer or a reader body leaves everything unchanged. `errInvalidResponse` is returned exactly when the status is 0 and the body is nil. Otherwise a response to finalise fails exactly when marshalling its value fails, so string, byte and nil bodies succeed. Any error raised here leaves the response as it was. A marshal failure becomes a 500 exception wrapping the cause. The body is never replaced. A present Content-Type is never overwritten; otherwise the body kind chooses it. A set status is kept and 0 becomes 200. On a finalising success the status is never 0. The buffer holds the encoded bytes exactly when there are some. |
| `Responder.Handle` | responder.go:75-144 | When the skipper fires, the result is exactly what the chain returned. A chain error or a preset buffer comes back untouched. The body and a present Content-Type are kept. A finalising success commits a non-zero status. |
| `Responder.FinishIdempotent` | responder.go:83-86 | Finishing an already finished outcome changes nothing. |
| `Responder.StackedActsOnce` | responder.go:75-144 | Any number n ≥ 1 of copies of one responder in front of the same chain act exactly as a single copy. The proof is by induction on n. |
| `ResponderContext.Context.Respond` | responder.go:75-144 | The in-place handler returns the error and leaves the context fields that `Handle` gives for the context before the call. |

## Left out

- `json.Marshal` and the "fastest" JSON encoder are foreign library calls. The encoder is an arbitrary function that may fail, passed to `New` as `jsonMarshal`. The exact JSON bytes are not modelled.
- elton's framework code is not part of this model:
  - The chain and `c.Next` dispatch are modelled as a function from the context's response to the error and response the chain leaves behind.
  - The `IsReaderBody` type test is modelled as the `Reader` body variant.
  - The case-insensitive header store is reduced to one Content-Type slot, with "" standing for "not set". This matches the source's `GetHeader(ct) != ""` test.
  - `elton.DefaultSkipper` is not part of this model. It is assumed to skip nothing, and the context's committed flag, which elton may consult there, is not modelled.
  - The elton MIME constants are written out with their values.
- How `hes.Error` values are rendered to text, and the message `hes.NewWithErrorStatusCode` copies from the cause, happen outside this file. `Wrapped` keeps the cause itself.
- The HTTP transport and the streaming of reader bodies are I/O.
- `bytes.NewBuffer(body)` shares its backing array with the caller's slice. The model stores the bytes as a value, so aliasing between the buffer and the body is not captured.
- A Go string body is modelled as its bytes, so `[]byte(data)` is the identity.
- A non-nil interface that holds a nil pointer or a named string type falls into the `Value` variant, as it falls into the `default` case of the type switch.
- `BenchmarkJSON`, `getBenchmarkData` and the coverage gate in `TestMain` are benchmarks and test plumbing.
