/** Failure-carrying values shared by every module of the model.

    - `Option<T>` stands for a JavaScript value that may be `undefined`.
    - `Result<T>` is the outcome of a pure computation that may throw.
    - `Completion<S>` is the outcome of a state-changing operation: a JavaScript
      exception does not roll back what was mutated before it was thrown, so
      both alternatives carry the state that is left behind.
 */
module Common {

  datatype Option<+T> = None | Some(value: T) {
    function GetOr(default: T): T {
      match this
      case Some(v) => v
      case None => default
    }
  }

  datatype Result<+T> = Ok(value: T) | Err(error: string) {
    predicate IsFailure() {
      Err?
    }

    function PropagateFailure<U>(): Result<U>
      requires Err?
    {
      Err(error)
    }

    function Extract(): T
      requires Ok?
    {
      value
    }
  }

  /** The state an operation leaves behind, and whether it threw. */
  datatype Completion<+S> = Normal(state: S) | Thrown(state: S, error: string)

  /** The message JavaScript gives when a property of `undefined` is read or written. */
  const UNDEFINED_PROPERTY: string := "TypeError: property access on undefined"
}
