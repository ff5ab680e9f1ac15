/** The two result shapes every other module uses. */
module Common {

  datatype Option<+T> = None | Some(value: T)

  /** `Err` carries no text: which error message is rendered is not modelled. */
  datatype Result<+T> = Ok(value: T) | Err
}
