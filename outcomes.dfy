/** Values and failures as the Python code passes them around: `None` or a
    value, and a call that either returns or raises an exception whose text
    (`str(e)`) is all that later code looks at. */
module Outcomes {

  datatype Option<+T> = None | Some(value: T)

  /** A call that returns a value, or raises an exception with message `msg`. */
  datatype Result<+T> = Ok(value: T) | Err(msg: string)

  /** A call that returns nothing (Python `-> None`), or raises with message `msg`. */
  datatype Status = Pass | Fail(msg: string)
}
