/** Values shared by every module: an optional value, a result that is either a value or an error message, and
    counting. */
module Base {

  datatype Option<+T> = None | Some(value: T)

  datatype Result<+T> = Ok(value: T) | Err(message: string)

  function One(b: bool): nat {
    if b then 1 else 0
  }
}
