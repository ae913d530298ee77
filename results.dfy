// Option and Result values shared by every module of the model: the source's
// `None`/`undefined` returns and its raised exceptions are modelled as values.
module Results {

  datatype Option<T> = None | Some(value: T)
  {
    function GetOr(default: T): T
    {
      match this
      case None => default
      case Some(v) => v
    }
  }

  datatype Result<T, E> = Ok(value: T) | Err(error: E)
  {
    predicate IsOk() { Ok? }
  }
}
