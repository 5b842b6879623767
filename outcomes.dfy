/** Values that stand in for JavaScript's `undefined` arguments and thrown errors. */
module Outcomes {

  /** An optional argument: `None` is an omitted (undefined) argument. */
  datatype Option<T> = None | Some(value: T) {
    /** The value, or the parameter's default when the argument was omitted. */
    function GetOr(default: T): (v: T) {
      if Some? then value else default
    }
  }

  /** The two error classes the core throws, with the message each carries. */
  datatype Error = TypeError(message: string) | ReferenceError(message: string)

  /** A value, or the error the operation threw instead of returning it. */
  datatype Result<T> = Ok(value: T) | Err(error: Error)

  /** The outcome of an operation that returns nothing but may throw. */
  datatype Outcome = Done | Failed(error: Error)

  /** What a caller of a throwing `void` operation observes: completion, or the error. */
  function OutcomeOf<T>(res: Result<T>): (o: Outcome) {
    if res.Ok? then Done else Failed(res.error)
  }
}
