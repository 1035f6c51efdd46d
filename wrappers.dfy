/** Optional values, standing for the nullable references and `Nullable<T>` fields of the source. */
module Wrappers {

  datatype Option<+T> = None | Some(value: T) {

    /** The `??` operator of C#: the value if there is one, else the fallback. */
    function GetOr(fallback: T): T
    {
      match this
      case Some(v) => v
      case None => fallback
    }
  }
}
