/** The extensions on `Result` declared in ResultExtensions.swift.

    A caller-supplied closure may have effects, so every combinator that takes
    a transform or a codec returns a `Run`: its value together with the
    arguments the closure was invoked with, in call order. An empty `calls`
    means the closure was neither invoked nor awaited. `async` adds nothing
    else observable here, so `await transform(x)` is plain application. */
module ResultExtensions {
  import opened Results

  /** The value a combinator returns, and the arguments its closure received. */
  datatype Run<T, A> = Run(out: T, calls: seq<A>)

  /** `asyncMap(_:)`: transforms a success payload; a failure passes through. */
  function AsyncMap<S, F, S2>(r: Result<S, F>, transform: S -> S2): (m: Run<Result<S2, F>, S>)
    ensures m.out.Success? <==> r.Success?
    ensures r.Failure? ==> m.out == Failure(r.error) && m.calls == []
    ensures r.Success? ==> m.out.value == transform(r.value) && m.calls == [r.value]
  {
    match r
    case Success(v) => Run(Success(transform(v)), [v])
    case Failure(e) => Run(Failure(e), [])
  }

  /** `asyncMapError(_:)`: transforms a failure payload; a success passes through. */
  function AsyncMapError<S, F>(r: Result<S, F>, transform: F -> F): (m: Run<Result<S, F>, F>)
    ensures m.out.Success? <==> r.Success?
    ensures r.Success? ==> m.out == r && m.calls == []
    ensures r.Failure? ==> m.out.error == transform(r.error) && m.calls == [r.error]
  {
    match r
    case Success(v) => Run(Success(v), [])
    case Failure(e) => Run(Failure(transform(e)), [e])
  }

  /** `asyncFlatMap(_:)`: monadic bind on the success side. The transform's
      own result is returned as it is, so a transform may itself fail. */
  function AsyncFlatMap<S, F, S2>(r: Result<S, F>, transform: S -> Result<S2, F>): (m: Run<Result<S2, F>, S>)
    ensures |m.calls| <= 1
    ensures r.Failure? ==> m.out == Failure(r.error) && m.calls == []
    ensures r.Success? ==> m.out == transform(r.value) && m.calls == [r.value]
  {
    match r
    case Success(v) => Run(transform(v), [v])
    case Failure(e) => Run(Failure(e), [])
  }

  /** `asyncFlatMapError(_:)`: the mirror of `AsyncFlatMap` on the failure side. */
  function AsyncFlatMapError<S, F>(r: Result<S, F>, transform: F -> Result<S, F>): (m: Run<Result<S, F>, F>)
    ensures |m.calls| <= 1
    ensures r.Success? ==> m.out == r && m.calls == []
    ensures r.Failure? ==> m.out == transform(r.error) && m.calls == [r.error]
  {
    match r
    case Success(v) => Run(Success(v), [])
    case Failure(e) => Run(transform(e), [e])
  }

  /** The `do`/`catch` block that `decode` and `encode` share: `try get()`
      rethrows an incoming failure, `try codec(payload)` may throw its own
      error, and the `catch` turns whichever error was thrown into a failure. */
  function Catching<A, B, E>(r: Result<A, E>, codec: A -> Attempt<B, E>): Run<Result<B, E>, A>
  {
    match Get(r)
    case Threw(e) => Run(Failure(e), [])
    case Returned(payload) =>
      match codec(payload)
      case Returned(model) => Run(Success(model), [payload])
      case Threw(err) => Run(Failure(err), [payload])
  }

  /** `decode(decoder:)` on a `Result` of `Data`, with the JSON decoder as a
      parameter. It never faults: every outcome is a `Result`. */
  function Decode<T, E>(r: Result<Bytes, E>, decoder: Bytes -> Attempt<T, E>): (d: Run<Result<T, E>, Bytes>)
    ensures r.Failure? ==> d.out == Failure(r.error) && d.calls == []
    ensures r.Success? ==> d.calls == [r.value]
    ensures r.Success? && decoder(r.value).Returned? ==> d.out == Success(decoder(r.value).value)
    ensures r.Success? && decoder(r.value).Threw? ==> d.out == Failure(decoder(r.value).error)
  {
    Catching(r, decoder)
  }

  /** `encode()` on a `Result` of an encodable value, with the JSON encoder as
      a parameter. It never faults: every outcome is a `Result`. */
  function Encode<S, E>(r: Result<S, E>, encoder: S -> Attempt<Bytes, E>): (d: Run<Result<Bytes, E>, S>)
    ensures r.Failure? ==> d.out == Failure(r.error) && d.calls == []
    ensures r.Success? ==> d.calls == [r.value]
    ensures r.Success? && encoder(r.value).Returned? ==> d.out == Success(encoder(r.value).value)
    ensures r.Success? && encoder(r.value).Threw? ==> d.out == Failure(encoder(r.value).error)
  {
    Catching(r, encoder)
  }

  /** `fold(success:failure:)`: the handlers return nothing, so each is
      modelled by its effect on the caller's world `w`; exactly one of them
      is run. */
  function Fold<S, F, W>(r: Result<S, F>, onSuccess: (W, S) -> W, onFailure: (W, F) -> W, w: W): (w': W)
    ensures r.Success? ==> w' == onSuccess(w, r.value)
    ensures r.Failure? ==> w' == onFailure(w, r.error)
  {
    match r
    case Success(v) => onSuccess(w, v)
    case Failure(e) => onFailure(w, e)
  }

  /** A pipeline of `asyncFlatMap` calls, `r.asyncFlatMap(f1)
      .asyncFlatMap(f2)...`, all on one success and failure type. */
  function FlatMapChain<S, F>(r: Result<S, F>, steps: seq<S -> Result<S, F>>): (c: Run<Result<S, F>, S>)
    ensures |c.calls| <= |steps|
    ensures r.Failure? ==> c.out == r && c.calls == []
    ensures c.out.Success? ==> |c.calls| == |steps|
    ensures r.Success? && 0 < |steps| ==> 0 < |c.calls| && c.calls[0] == r.value
    decreases |steps|
  {
    if steps == [] then Run(r, [])
    else
      var first := AsyncFlatMap(r, steps[0]);
      var rest := FlatMapChain(first.out, steps[1..]);
      Run(rest.out, first.calls + rest.calls)
  }
}
