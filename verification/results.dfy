/** The host types the extensions work on: Swift's `Result`, the throwing
    form `Result.get()` turns it into, and Foundation's `Data`. */
module Results {

  /** Swift's two-variant outcome type: exactly one of the payloads is present. */
  datatype Result<S, F> = Success(value: S) | Failure(error: F)

  /** The outcome of a Swift expression that may `throw`: it either returns a
      value or throws an error. A throwing codec is modelled as a function
      into this type. */
  datatype Attempt<T, E> = Returned(value: T) | Threw(error: E)

  /** `Result.get()`: returns the success payload, or throws the failure. */
  function Get<S, F>(r: Result<S, F>): (a: Attempt<S, F>)
    ensures a.Returned? <==> r.Success?
    ensures a.Returned? ==> a.value == r.value
    ensures a.Threw? ==> a.error == r.error
  {
    match r
    case Success(v) => Returned(v)
    case Failure(e) => Threw(e)
  }

  /** `Result(catching:)`: the inverse of `Get`, re-wrapping a returned value
      as a success and a thrown error as a failure. */
  function Catch<T, E>(a: Attempt<T, E>): (r: Result<T, E>)
    ensures Get(r) == a
  {
    match a
    case Returned(v) => Success(v)
    case Threw(e) => Failure(e)
  }

  /** Exchanges the two variants. Used to state that each error-side
      combinator mirrors its success-side partner. */
  function Swap<S, F>(r: Result<S, F>): (m: Result<F, S>)
    ensures m.Success? <==> r.Failure?
  {
    match r
    case Success(v) => Failure(v)
    case Failure(e) => Success(e)
  }

  lemma SwapInvolutive<S, F>(r: Result<S, F>)
    ensures Swap(Swap(r)) == r
  {
  }

  lemma CatchGetRoundTrip<S, F>(r: Result<S, F>)
    ensures Catch(Get(r)) == r
  {
  }

  /** An octet of Foundation's `Data`. */
  newtype byte = x: int | 0 <= x < 256

  /** Foundation's `Data`: the raw bytes a JSON codec reads and writes. */
  type Bytes = seq<byte>
}
