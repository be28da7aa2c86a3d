/** Failure-carrying datatypes shared by every module of the model.

    The service reports every failure by raising a Python exception whose text
    (`str(e)`) is what eventually reaches the user through the chat state's
    `error` field, so a failure is represented here by that text. */
module Results {

  /** `None` stands for Python's `None` wherever a field or lookup is optional. */
  datatype Option<+T> = None | Some(value: T) {
    function GetOr(default: T): T {
      match this
      case Some(v) => v
      case None => default
    }
  }

  /** The outcome of a call that either returns a value or raises an exception
      whose text is `message`. */
  datatype Result<+T> = Ok(value: T) | Err(message: string) {
    predicate IsFailure() {
      Err?
    }

    function PropagateFailure<U>(): Result<U>
      requires Err?
    {
      Err(message)
    }

    function Extract(): T
      requires Ok?
    {
      value
    }
  }

  /** The outcome of a check that returns nothing useful or raises. */
  datatype Outcome = Pass | Fail(message: string)

  /** Python truthiness of an optional string: `None` and `""` are false. */
  predicate Truthy(s: Option<string>) {
    s.Some? && s.value != ""
  }
}
