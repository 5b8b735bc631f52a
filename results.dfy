/** Success-or-error values shared by the validators and the handlers. */
module Results {

  /** A value that may be absent (a form field that was left out, a GET request). */
  datatype Option<+T> = None | Some(value: T)

  /** The outcome of one `clean_*` validator: the cleaned value, or the message of the
      validation error it raises. */
  datatype Result<+T> = Ok(value: T) | Err(message: string)
}
