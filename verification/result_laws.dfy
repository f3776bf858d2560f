/** Laws relating the extensions to each other: each error-side combinator
    mirrors its success-side partner, each map is a bind of a re-wrapping
    transform, `decode` and `encode` are binds of the caught codec, `fold`
    runs exactly one handler, and a chain of binds stops at its first
    failure. */
module ResultLaws {
  import opened Results
  import opened ResultExtensions

  /** One invocation of a `fold` handler, with the payload it received. */
  datatype Handled<S, F> = SuccessHandled(value: S) | FailureHandled(error: F)

  /** The result a handler invocation was made for. */
  function HandledResult<S, F>(h: Handled<S, F>): Result<S, F>
  {
    match h
    case SuccessHandled(v) => Success(v)
    case FailureHandled(e) => Failure(e)
  }

  /** `fold` with handlers that only record their invocation: it appends
      exactly one entry to the log, for the handler matching the variant and
      with the variant's payload. */
  lemma FoldRunsExactlyOneHandler<S, F>(r: Result<S, F>, log: seq<Handled<S, F>>)
    ensures var log' := Fold(r, (t: seq<Handled<S, F>>, v: S) => t + [SuccessHandled(v)],
                                (t: seq<Handled<S, F>>, e: F) => t + [FailureHandled(e)], log);
            && |log'| == |log| + 1
            && log'[..|log|] == log
            && (log'[|log|].SuccessHandled? <==> r.Success?)
            && HandledResult(log'[|log|]) == r
  {
  }

  /** The handler `fold` does not choose has no influence on the outcome. */
  lemma FoldIgnoresUnchosenHandler<S, F, W>(r: Result<S, F>, onSuccess: (W, S) -> W, onSuccess': (W, S) -> W,
                                            onFailure: (W, F) -> W, onFailure': (W, F) -> W, w: W)
    ensures r.Success? ==> Fold(r, onSuccess, onFailure, w) == Fold(r, onSuccess, onFailure', w)
    ensures r.Failure? ==> Fold(r, onSuccess, onFailure, w) == Fold(r, onSuccess', onFailure, w)
  {
  }

  /** `asyncMap` is `asyncFlatMap` of a transform re-wrapped as a success,
      down to the calls the transform receives. */
  lemma MapIsFlatMapOfSuccess<S, F, S2>(r: Result<S, F>, transform: S -> S2)
    ensures AsyncMap(r, transform) == AsyncFlatMap(r, (v: S) => Success(transform(v)))
  {
  }

  /** `asyncMapError` is `asyncFlatMapError` of a transform re-wrapped as a failure. */
  lemma MapErrorIsFlatMapErrorOfFailure<S, F>(r: Result<S, F>, transform: F -> F)
    ensures AsyncMapError(r, transform) == AsyncFlatMapError(r, (e: F) => Failure(transform(e)))
  {
  }

  /** `asyncMapError` is `asyncMap` seen through `Swap`. */
  lemma MapErrorMirrorsMap<S, F>(r: Result<S, F>, transform: F -> F)
    ensures AsyncMapError(r, transform).out == Swap(AsyncMap(Swap(r), transform).out)
    ensures AsyncMapError(r, transform).calls == AsyncMap(Swap(r), transform).calls
  {
  }

  /** `asyncFlatMapError` is `asyncFlatMap` seen through `Swap`. */
  lemma FlatMapErrorMirrorsFlatMap<S, F>(r: Result<S, F>, transform: F -> Result<S, F>)
    ensures AsyncFlatMapError(r, transform).out
         == Swap(AsyncFlatMap(Swap(r), (e: F) => Swap(transform(e))).out)
    ensures AsyncFlatMapError(r, transform).calls
         == AsyncFlatMap(Swap(r), (e: F) => Swap(transform(e))).calls
  {
  }

  /** `decode` is `asyncFlatMap` of the decoder with its throw caught. */
  lemma DecodeIsFlatMap<T, E>(r: Result<Bytes, E>, decoder: Bytes -> Attempt<T, E>)
    ensures Decode(r, decoder) == AsyncFlatMap(r, (b: Bytes) => Catch(decoder(b)))
  {
  }

  /** `encode` is `asyncFlatMap` of the encoder with its throw caught. */
  lemma EncodeIsFlatMap<S, E>(r: Result<S, E>, encoder: S -> Attempt<Bytes, E>)
    ensures Encode(r, encoder) == AsyncFlatMap(r, (v: S) => Catch(encoder(v)))
  {
  }

  /** Mapping the identity gives back the input. */
  lemma MapIdentity<S, F>(r: Result<S, F>)
    ensures AsyncMap(r, (v: S) => v).out == r
  {
  }

  /** Two maps in sequence are one map of the composed transform. */
  lemma MapComposition<S, F, S2, S3>(r: Result<S, F>, f: S -> S2, g: S2 -> S3)
    ensures AsyncMap(AsyncMap(r, f).out, g).out == AsyncMap(r, (v: S) => g(f(v))).out
  {
  }

  /** Binding a transform that re-wraps its argument gives back the input. */
  lemma FlatMapRightIdentity<S, F>(r: Result<S, F>)
    ensures AsyncFlatMap(r, (v: S) => Success(v)).out == r
  {
  }

  /** Two binds in sequence are one bind of the composed transform. */
  lemma FlatMapAssociative<S, F, S2, S3>(r: Result<S, F>, f: S -> Result<S2, F>, g: S2 -> Result<S3, F>)
    ensures AsyncFlatMap(AsyncFlatMap(r, f).out, g).out
         == AsyncFlatMap(r, (v: S) => AsyncFlatMap(f(v), g).out).out
  {
  }

  /** A chain of one step is a single `asyncFlatMap`. */
  lemma FlatMapChainSingle<S, F>(r: Result<S, F>, step: S -> Result<S, F>)
    ensures FlatMapChain(r, [step]) == AsyncFlatMap(r, step)
  {
  }

  /** Running the chain `a + b` is running `a` and then `b` on its outcome,
      with the calls of both in order. */
  lemma {:induction false} FlatMapChainAppend<S, F>(r: Result<S, F>, a: seq<S -> Result<S, F>>, b: seq<S -> Result<S, F>>)
    ensures FlatMapChain(r, a + b).out == FlatMapChain(FlatMapChain(r, a).out, b).out
    ensures FlatMapChain(r, a + b).calls == FlatMapChain(r, a).calls + FlatMapChain(FlatMapChain(r, a).out, b).calls
    decreases |a|
  {
    if a == [] {
      assert a + b == b;
    } else {
      assert (a + b)[0] == a[0];
      assert (a + b)[1..] == a[1..] + b;
      var first := AsyncFlatMap(r, a[0]);
      FlatMapChainAppend(first.out, a[1..], b);
    }
  }

  /** Once a prefix of the chain has failed, the remaining steps are never
      invoked and that failure is the chain's outcome. */
  lemma FlatMapChainShortCircuits<S, F>(r: Result<S, F>, a: seq<S -> Result<S, F>>, b: seq<S -> Result<S, F>>)
    requires FlatMapChain(r, a).out.Failure?
    ensures FlatMapChain(r, a + b) == FlatMapChain(r, a)
  {
    FlatMapChainAppend(r, a, b);
  }
}
