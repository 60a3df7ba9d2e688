/** The two error values of the balancer package, and the Option/Result
    wrappers used to model Go's `(value, error)` returns. */
module Errors {

  /** `NoHostError` and `AlgorithmNotSupportedError`: two distinct sentinel values. */
  datatype Error = NoHost | AlgorithmNotSupported

  /** The text each sentinel was created with by `errors.New`. */
  function Message(e: Error): (m: string)
    ensures e == NoHost ==> m == "no host"
    ensures e == AlgorithmNotSupported ==> m == "algorithm not supported"
  {
    match e
    case NoHost => "no host"
    case AlgorithmNotSupported => "algorithm not supported"
  }

  /** The two sentinels are different values with different texts, so a caller
      comparing against either one can tell which failure happened. */
  lemma ErrorsDistinct()
    ensures NoHost != AlgorithmNotSupported
    ensures Message(NoHost) != Message(AlgorithmNotSupported)
  {
  }

  /** Go's `error` result: nil or some error. */
  datatype Option<+T> = None | Some(value: T)

  /** A value, or the error that took its place. */
  datatype Result<+T> = Success(value: T) | Failure(error: Error)
}
