/** The `{message, status}` dictionaries every lending operation returns, reduced to their status,
    and the `None`-or-value answer of a dictionary lookup. */
module Outcomes {

  /** Status of a successful operation. */
  const OK: int := 200
  /** Status of a refused operation. */
  const ERROR: int := 500

  /** The reply of an operation; the human-readable message is not modelled. */
  datatype Result = Result(status: int)

  datatype Option<T> = None | Some(value: T)
}
