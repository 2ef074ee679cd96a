/** Failure values shared by every module: the exceptions the Kotlin code throws
    become the `Err` side of a `Result`, instead of a precondition that forbids them. */
module Wrappers {

  /** The JVM exceptions (and host failures) the modelled code can end in. */
  datatype Error =
    | IndexOutOfBounds                  // embeddings[0] on an empty list
    | NegativeArraySize                 // an array allocated with a negative length
    | DivisionByZero                    // ArithmeticException of an integer `/`
    | OutOfMemory                       // an array of Int.MAX_VALUE floats
    | UnsupportedFormat(extension: string)
    | NoAudioTrack
    | NoModelLoaded                     // IllegalStateException("No model loaded")
    | EnvironmentNotInitialized         // lateinit ortEnvironment read before initialisation
    | ModelLoadFailure(path: string)    // createSession refused the model file
    | StageFailure(stage: string)       // an inference stage threw
    | AudioReadFailure                  // the audio loader or metadata probe threw

  datatype Result<T> = Ok(value: T) | Err(error: Error) {
    predicate IsFailure() { Err? }

    function PropagateFailure<U>(): Result<U>
      requires Err?
    {
      Err(error)
    }

    function Extract(): T
      requires Ok?
    {
      value
    }
  }

  datatype Option<T> = None | Some(value: T)

  /** Kotlin's integer `/`, which truncates toward zero (Dafny's `/` is Euclidean). */
  function TruncDiv(a: int, b: int): (q: int)
    requires b > 0
  {
    if a >= 0 then a / b else -((-a) / b)
  }
}
