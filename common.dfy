/** Values shared by the Kotlin wrappers and the native layer: the outcome of a call
    that may throw, and the exceptions the core raises. */
module Outcomes {

  /** An exception as the core raises it: its kind and its message. */
  datatype Error =
    | IllegalState(message: string)      // kotlin IllegalStateException
    | RuntimeError(message: string)      // C++ std::runtime_error
    | InvalidArgument(message: string)   // C++ std::invalid_argument
    | IndexOutOfBounds(index: int)       // an array read past the end (JVM)
    | NegativeArraySize(size: int)       // allocating an array of negative length (JVM)
    | OrtException(message: string)     // Ort::Exception from ONNX Runtime

  /** Either the value a call returns or the exception it throws. */
  datatype Result<+T> = Success(value: T) | Failure(error: Error) {
    predicate IsFailure() { Failure? }

    function PropagateFailure<U>(): Result<U>
      requires Failure?
    {
      Failure(error)
    }

    function Extract(): T
      requires Success?
    {
      value
    }
  }

  /** A value that may be null on the Kotlin side (`Long?`). */
  datatype Option<+T> = None | Some(value: T)

  /** The message `close()`d wrappers throw with. */
  const LibraryClosed: string := "Library closed"
}

/** Sums over vectors of reals, shared by the Kotlin comparison and the native template
    code. */
module Vectors {

  /** The squared Euclidean norm, summed from the first entry on. */
  function SumSquares(v: seq<real>): (s: real)
    ensures s >= 0.0
    decreases |v|
  {
    if v == [] then 0.0 else SumSquares(v[..|v| - 1]) + v[|v| - 1] * v[|v| - 1]
  }

  /** One more entry adds its square. */
  lemma SumSquaresAppend(v: seq<real>, x: real)
    ensures SumSquares(v + [x]) == SumSquares(v) + x * x
  {
    assert (v + [x])[..|v|] == v;
  }
}
