/** Small failure-compatible wrappers shared by the whole model. */
module Base {

  /** A value that may be absent: an optional JSON field, `null`, or "no match". */
  datatype Option<T> = None | Some(value: T)

  /** The result of a JavaScript call that either returns a value or throws. */
  datatype Result<T> = Ok(value: T) | Thrown(error: string)

  /** The completion of a JavaScript statement sequence that returns nothing. */
  datatype Outcome = Completed | Threw(error: string)
}
