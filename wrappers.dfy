// Option and Result: the shapes used throughout the model for Java's
// nullable references and for operations that can throw.
module Wrappers {
  datatype Option<T> = None | Some(value: T)
  {
    function GetOr(default: T): T
    {
      match this
      case None => default
      case Some(v) => v
    }
  }

  datatype Result<T, E> = Success(value: T) | Failure(error: E)
}
