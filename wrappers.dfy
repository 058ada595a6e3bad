/** Option and Result, used for the source's null values and thrown exceptions. */
module Wrappers {

  datatype Option<+T> = None | Some(value: T)

  /** `Err` stands for an exception the source throws; the message is the source's. */
  datatype Result<+T> = Ok(value: T) | Err(message: string)
}
