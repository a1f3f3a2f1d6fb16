/** Option and Result, used wherever the program may find nothing or fail. */
module Wrappers {

  datatype Option<+T> = None | Some(value: T)
  {
    /** dict.get(key, default): the value when present, else the default. */
    function GetOr(default: T): T
    {
      if Some? then value else default
    }
  }

  datatype Result<+R, +E> = Success(value: R) | Failure(error: E)
}
