/** Option and Result, the two wrappers the model uses for Python's `None`
    and for the exceptions an operation may raise. */
module Results {

  datatype Option<+T> = None | Some(value: T)
  {
    function GetOr(default: T): T
    {
      match this
      case Some(v) => v
      case None => default
    }
  }

  datatype Result<+T, +E> = Ok(value: T) | Err(error: E)
}
