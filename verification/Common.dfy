/** Result types shared by the components. */
module Common {
  datatype Option<+T> = None | Some(value: T)

  /** The value of a call, or the code of the error it raised. */
  datatype Result<+T> = Ok(value: T) | Err(code: string)
}
