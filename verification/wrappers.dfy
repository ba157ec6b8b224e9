/** Option and Result values shared by every module of the model.
  * `Result` stands for a C++ exception or error return: `Err` carries the message. */
module Wrappers {

  datatype Option<T> = None | Some(value: T)
  {
    predicate IsSome() { this.Some? }

    function GetOr(default: T): T
    {
      match this
      case None => default
      case Some(v) => v
    }
  }

  datatype Result<T> = Ok(value: T) | Err(msg: string)
  {
    predicate IsOk() { this.Ok? }
  }
}
