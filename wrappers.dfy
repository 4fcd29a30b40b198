/** The success-or-error value used wherever src/similarity.py raises an exception. */
module Wrappers {

  /** `Ok` carries the value a call returns; `Err` carries what it raises instead. */
  datatype Result<+R, +E> = Ok(value: R) | Err(error: E)
}
