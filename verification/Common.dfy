/** Small datatypes shared by every part of the model. */
module Common {

  /** A panel transaction, setup, deployment or baseline identifier (a UUID). */
  type Uuid = nat

  datatype Option<+T> = None | Some(value: T)

  datatype Result<+T, +E> = Ok(value: T) | Err(error: E)
}
