/** Optional values and fallible results, as the Rust code uses `Option` and `anyhow::Result`. */
module Wrappers {

  datatype Option<+T> = None | Some(value: T) {
    function GetOr(default: T): T {
      match this
      case Some(v) => v
      case None => default
    }
  }

  /** A fallible value: `Ok(value)` or `Err(cause)` with a human-readable cause. */
  datatype Outcome<+T> = Ok(value: T) | Err(cause: string)

  /** `anyhow::Result<()>`, the return type of every phase and every check item. */
  type Status = Outcome<()>

  const Done: Status := Ok(())
}
