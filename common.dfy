/** Small value wrappers shared by the other modules. */
module Common {

  /** An optional value: Go's nil map / nil pointer versus a present one. */
  datatype Option<+T> = None | Some(value: T)

  /** The outcome of a library parser (strconv, uuid.FromString, a JSON decoder):
      a parsed value, or the text of the error the library reports. */
  datatype Result<+T> = Ok(value: T) | Fail(reason: string)
}
