/** Success and failure values used throughout the model. */
module Results {

  datatype Option<+T> = None | Some(value: T)

  /** Why a request ended without a response of its own: a JavaScript
      `TypeError` raised by the handler code, or a rejected platform call. */
  datatype Failure = TypeError | PlatformFailure

  /** The outcome of a step that may throw. Usable with `:-`. */
  datatype Result<+T> = Ok(value: T) | Thrown(failure: Failure) {

    predicate IsFailure() {
      Thrown?
    }

    function PropagateFailure<U>(): Result<U>
      requires Thrown?
    {
      Thrown(failure)
    }

    function Extract(): T
      requires Ok?
    {
      value
    }
  }

  /** An awaited platform call: a missing answer is a rejected promise. */
  function Await<T>(answer: Option<T>): (r: Result<T>)
    ensures r.Ok? <==> answer.Some?
    ensures r.Thrown? ==> r.failure == PlatformFailure
  {
    match answer
    case Some(v) => Ok(v)
    case None => Thrown(PlatformFailure)
  }
}
