/** Optional values and success-or-error results shared by every module of the model.
    `None` stands for JavaScript's `null`/`undefined`; `Err` carries the message of a thrown `Error`. */
module Wrappers {

  datatype Option<+T> = None | Some(value: T) {
    function GetOr(default: T): T {
      match this
      case Some(v) => v
      case None => default
    }
  }

  datatype Result<+T> = Ok(value: T) | Err(message: string)
}
