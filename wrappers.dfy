/** Option and Result values shared by every module of the model.
    `Result` stands for a JavaScript computation that either returns a value
    or throws; `Err` carries the thrown error's message. */
module Wrappers {

  datatype Option<+T> = None | Some(value: T) {
    function GetOr(default: T): T {
      match this
      case Some(v) => v
      case None => default
    }
  }

  datatype Result<+T> = Ok(value: T) | Err(error: string) {
    predicate IsFailure() {
      Err?
    }

    function PropagateFailure<U>(): Result<U>
      requires Err?
    {
      Err(error)
    }

    function Extract(): T
      requires Ok?
    {
      value
    }
  }

  /** The message of the TypeError JavaScript throws on a property access or
      method call that the value does not support. */
  const TypeError: string := "TypeError"
}
