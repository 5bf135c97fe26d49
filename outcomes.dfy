/** Optional values and the two shapes a route handler's answer takes. */
module Outcomes {

  datatype Option<T> = None | Some(value: T)

  /** What a handler sends back: success, or a 400/500 body carrying one message. */
  datatype Outcome = Ok | Err(msg: string)

  /** A computed value, or the rejection message that stopped the computation. */
  datatype Result<T> = Success(value: T) | Failure(msg: string) {

    function ToOutcome(): Outcome {
      if Success? then Ok else Err(msg)
    }

    function GetOr(default: T): T {
      if Success? then value else default
    }
  }
}
