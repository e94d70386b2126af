/** Optional values and fallible results shared by every module of the model. */
module Wrappers {

  /** A value that may be absent (JavaScript `null`/`undefined`, Rust `Option`). */
  datatype Option<+T> = None | Some(value: T) {
    function GetOr(default: T): T {
      match this
      case Some(v) => v
      case None => default
    }
  }

  /**
   * The outcome of a Rust function returning `Result<T, String>`.
   * `Panic` marks the inputs on which the Rust code aborts instead of
   * returning (an index outside a slice, a division by zero); `reason`
   * names the failing operation.
   */
  datatype Result<+T> = Ok(value: T) | Err(msg: string) | Panic(reason: string)
}
