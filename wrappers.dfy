/** Option and Result values for lookups that can miss and decoders that can fail. */
module Wrappers {

  datatype Option<+T> = None | Some(value: T)

  /** Err carries the name of the exception the source would raise. */
  datatype Result<+T> = Ok(value: T) | Err(error: string)
}
