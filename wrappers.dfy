// The optional value used wherever the Go code passes a nilable pointer or map.

module Wrappers {

  datatype Option<T> = None | Some(value: T)
  {
    predicate IsNone()
    {
      None?
    }

    function GetOr(default: T): T
    {
      match this
      case Some(v) => v
      case None => default
    }
  }
}
