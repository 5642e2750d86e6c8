/** Failure-compatible wrappers and the ways one invocation of the notifier can fail. */
module Results {

  datatype Option<+T> = None | Some(value: T)

  datatype Result<+T, +E> = Success(value: T) | Failure(error: E) {
    predicate IsFailure() { Failure? }

    function PropagateFailure<U>(): Result<U, E>
      requires Failure?
    {
      Failure(error)
    }

    function Extract(): T
      requires Success?
    {
      value
    }
  }

  /** Every local failure of the handler; all of them propagate to the caller of the handler. */
  datatype Error =
    | MalformedToken(token: string)   // a body token without '=': dict() rejects the one-element split
    | MissingKey(key: string)         // a KeyError on the parsed notification body
    | NoRecord                        // the event carries no notification record
    | UnknownStack(name: string)      // the cloud API cannot list the resources of this stack
    | MalformedStackId(id: string)    // the region pattern does not match the stack identifier
}
