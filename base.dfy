/** Small failure-carrying datatypes shared by every module. */
module Base {

  datatype Option<+T> = None | Some(value: T) {
    function GetOr(default: T): T {
      match this
      case Some(v) => v
      case None => default
    }
  }

  /** The outcome of a Python call that may raise: the value it returned,
      or the text of the exception (`str(e)`) it raised. */
  datatype Raises<+T> = Value(value: T) | Raised(error: string)
}
