/** Identifiers and the small wrapper types shared by every module.  Identifiers are the
    validated strings of the wire contract; timestamps are integers on an abstract clock. */
module Base {
  type JobId = string
  type ProjectId = string
  type WorkerId = string
  type LeaseId = string
  type Time = int

  datatype Option<+T> = None | Some(value: T)

  datatype Result<+T, +E> = Ok(value: T) | Err(error: E)

  function Max(a: int, b: int): int {
    if a < b then b else a
  }
}
