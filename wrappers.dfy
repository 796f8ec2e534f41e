/** Optional values and fallible results, as the Rust sources use `Option` and
    `Result<_, Box<dyn Error>>`. Every error of the modelled code is reduced to
    its message (`e.to_string()`), so the error side of a result is a string. */
module Wrappers {

  datatype Option<+T> = None | Some(value: T) {
    function GetOr(default: T): T {
      match this
      case Some(v) => v
      case None => default
    }
  }

  datatype Result<+T> = Ok(value: T) | Err(error: string) {
    predicate IsFailure() {
      Err?
    }

    function PropagateFailure<U>(): Result<U>
      requires Err?
    {
      Err(error)
    }

    function Extract(): T
      requires Ok?
    {
      value
    }
  }
}
