/** Optional values and results with an error message, standing for Python's
    `None` and for raised exceptions. */
module Wrappers {

  datatype Option<+T> = None | Some(value: T) {
    function GetOr(default: T): T {
      match this
      case Some(v) => v
      case None => default
    }
  }

  /** `Err` stands for an exception the modelled code raises or lets through. */
  datatype Result<+T> = Ok(value: T) | Err(error: string)
}
