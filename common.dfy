/** Small shared datatypes. */
module Common {
  /** JavaScript's `undefined`/`null` versus a present value. */
  datatype Option<T> = None | Some(value: T) {
    function GetOr(default: T): T {
      match this
      case Some(v) => v
      case None => default
    }
  }
}
