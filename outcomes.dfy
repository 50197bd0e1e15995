/** Success/failure of an archive request, and optional record fields. */
module Outcomes {

  /** The outcome of one or more archive requests. A failed request carries no
      detail: the callers of the archive client treat every failure alike. */
  datatype Result<+T> = Success(value: T) | Failure

  /** An optional value, as for the optional fields of the archive's records. */
  datatype Option<+T> = None | Some(value: T)
}
