/** Option and Result values used for Kotlin's nullable types and for the
    exceptions the plugin catches and turns into `call.reject(message)`. */
module Results {

  datatype Option<+T> = None | Some(value: T)

  /** A computation that either yields a value or fails with the message
      the plugin would pass to `reject`. Usable with `:-`. */
  datatype Result<+T> = Success(value: T) | Failure(error: string) {

    predicate IsFailure() {
      Failure?
    }

    function PropagateFailure<U>(): Result<U>
      requires Failure?
    {
      Failure(error)
    }

    function Extract(): T
      requires Success?
    {
      value
    }
  }
}
