/** Go's `(value, error)` returns and nil pointers, as datatypes. An error is
    modelled by its message, since every error the core creates is an
    `errors.New` with a fixed text. */
module Results {

  /** A pointer that may be nil. */
  datatype Option<+T> = None | Some(value: T)

  /** A `(value, error)` pair where exactly one side is meaningful. */
  datatype Result<+T> = Ok(value: T) | Err(msg: string)

  /** A lone `error` return: nil (`Pass`) or an error. */
  datatype Outcome = Pass | Fail(msg: string)
}
