# ResultExtensions in Dafny

A model of the Swift package ResultExtensions, which adds combinators to Swift's
two-variant `Result<Success, Failure>`: JSON `decode`/`encode` helpers, a
side-effect dispatcher `fold`, and the asynchronous combinators `asyncMap`,
`asyncMapError`, `asyncFlatMap` and `asyncFlatMapError`.

- `results.dfy` (module `Results`): the `Result` datatype, the throwing form
  `Attempt` that `Result.get()` produces (`Get`) and `Result(catching:)`
  undoes (`Catch`), `Swap`, and `Bytes` for Foundation's `Data`.
- `result_extensions.dfy` (module `ResultExtensions`): one total function per
  extension. Each combinator other than `fold` returns a `Run`: the value the
  Swift function returns, plus the arguments its closure was invoked with, in
  order. So "the transform is never invoked (never awaited)" becomes
  `calls == []`. `Fold` threads the caller's world through whichever handler
  it runs. The JSON codec is a parameter, a function into `Attempt`.
  `FlatMapChain` is a pipeline of `asyncFlatMap` calls.
- `result_laws.dfy` (module `ResultLaws`): laws that relate the extensions.
  Each error-side combinator mirrors its success-side partner through `Swap`.
  Each map equals a bind of a re-wrapped transform. `decode` and `encode`
  equal a bind of the caught codec. `fold` runs exactly one handler. The
  functor and monad laws hold. A chain of binds splits at any point, and it
  stops at its first failure.

Both error sides share one type parameter. Swift widens `Failure` to the
`Error` existential at ResultExtensions.swift lines 8, 21 and 35: `decode` and
`encode` return `Result<_, Error>`, merging the incoming failure with the
codec's thrown error, and `fold`'s failure handler takes `Error`.

## Model

| member | source | states |
|---|---|---|
| ResultExtensions.AsyncMap | Sources/ResultExtensions/ResultExtensions.swift:53-60 | the result is a success iff the input is; a failure comes back unchanged and the transform is never invoked; a success `v` gives `Success(transform(v))` after exactly one invocation, with `v` |
| ResultExtensions.AsyncMapError | Sources/ResultExtensions/ResultExtensions.swift:62-69 | the result is a success iff the input is; a success comes back unchanged and the transform is never invoked; a failure `e` gives `Failure(transform(e))` after exactly one invocation, with `e` |
| ResultExtensions.AsyncFlatMap | Sources/ResultExtensions/ResultExtensions.swift:73-80 | at most one invocation; a failure passes through without invoking the transform; a success `v` yields exactly `transform(v)`, with no re-wrapping, so the transform's own failure is the result |
| ResultExtensions.AsyncFlatMapError | Sources/ResultExtensions/ResultExtensions.swift:82-89 | at most one invocation; a success passes through without invoking the transform; a failure `e` yields exactly `transform(e)` |
| ResultExtensions.Decode | Sources/ResultExtensions/ResultExtensions.swift:8-17 | an incoming failure is returned as it is and the decoder is not run; on a success the decoder runs once on the bytes; a decoded model becomes `Success(model)` and a decoder throw becomes `Failure(error)`; no input faults |
| ResultExtensions.Encode | Sources/ResultExtensions/ResultExtensions.swift:21-30 | an incoming failure is returned as it is and the encoder is not run; on a success the encoder runs once on the value; encoded bytes become `Success(bytes)` and an encoder throw becomes `Failure(error)` |
| ResultExtensions.FlatMapChain | Sources/ResultExtensions/ResultExtensions.swift:73-80 | composition of `asyncFlatMap` calls (not itself in the source): a pipeline of `asyncFlatMap` calls makes at most one call per step; a failing input invokes no step and is the outcome; a successful outcome means every step ran; the first step receives the input's payload |
| ResultExtensions.Fold | Sources/ResultExtensions/ResultExtensions.swift:34-43 | a success `v` leaves the caller's world as the success handler makes it from `v`, and a failure `e` as the failure handler makes it from `e`; the other handler contributes nothing |
| ResultLaws.FoldRunsExactlyOneHandler | Sources/ResultExtensions/ResultExtensions.swift:34-43 | with recording handlers, `fold` records exactly one invocation, of the handler matching the variant, and the recorded payload gives back the input |
| ResultLaws.FoldIgnoresUnchosenHandler | Sources/ResultExtensions/ResultExtensions.swift:34-43 | replacing the handler for the other variant does not change what `fold` does, so that handler is never run |
| ResultLaws.MapIsFlatMapOfSuccess | Sources/ResultExtensions/ResultExtensions.swift:53-80 | `asyncMap(f)` equals `asyncFlatMap` of `f` wrapped in `.success`, including the transform's calls |
| ResultLaws.MapErrorIsFlatMapErrorOfFailure | Sources/ResultExtensions/ResultExtensions.swift:62-89 | `asyncMapError(g)` equals `asyncFlatMapError` of `g` wrapped in `.failure`, including the transform's calls |
| ResultLaws.MapErrorMirrorsMap | Sources/ResultExtensions/ResultExtensions.swift:53-69 | `asyncMapError` is `asyncMap` applied with the variants swapped, in both value and calls |
| ResultLaws.FlatMapErrorMirrorsFlatMap | Sources/ResultExtensions/ResultExtensions.swift:73-89 | `asyncFlatMapError` is `asyncFlatMap` applied with the variants swapped, in both value and calls |
| ResultLaws.DecodeIsFlatMap | Sources/ResultExtensions/ResultExtensions.swift:8-17 | `decode`'s do/catch block equals `asyncFlatMap` of the decoder with its throw caught |
| ResultLaws.EncodeIsFlatMap | Sources/ResultExtensions/ResultExtensions.swift:21-30 | `encode`'s do/catch block equals `asyncFlatMap` of the encoder with its throw caught |
| ResultLaws.MapIdentity | Sources/ResultExtensions/ResultExtensions.swift:53-60 | mapping the identity returns the input |
| ResultLaws.MapComposition | Sources/ResultExtensions/ResultExtensions.swift:53-60 | two `asyncMap` calls give the same result as one `asyncMap` of the composed transform |
| ResultLaws.FlatMapRightIdentity | Sources/ResultExtensions/ResultExtensions.swift:73-80 | binding `.success` returns the input |
| ResultLaws.FlatMapAssociative | Sources/ResultExtensions/ResultExtensions.swift:73-80 | two `asyncFlatMap` calls give the same result as one bind of the composed transform |
| ResultLaws.FlatMapChainSingle | Sources/ResultExtensions/ResultExtensions.swift:73-80 | a one-step pipeline is a single `asyncFlatMap` call, in value and calls |
| ResultLaws.FlatMapChainAppend | Sources/ResultExtensions/ResultExtensions.swift:73-80 | running steps `a + b` is running `a`, then `b` on its outcome; the calls are those of `a` followed by those of `b` |
| ResultLaws.FlatMapChainShortCircuits | Sources/ResultExtensions/ResultExtensions.swift:73-80 | once a prefix of the pipeline has failed, no later step is invoked and that failure is the outcome |

## Left out

- `send(through:)` (ResultExtensions.swift:47-49): a one-line forward to Combine's `PassthroughSubject`, an external publish/subscribe library outside this model.
- Foundation's `JSONDecoder`/`JSONEncoder`: the codec is a parameter, so no claim is made that decoding an encoding gives back the value. That round trip is a property of the codec, and this code does not promise it.
- Swift `async` suspension, scheduling and cancellation: the combinators add no concurrency of their own. An await of the transform appears only as an entry in `calls`.
- Swift's `Error` existential and the upcast of `Failure` to it in `fold`, `decode` and `encode`: one type parameter stands for both.
- Access modifiers (`public` or internal) and `Package.swift`: no behaviour.
