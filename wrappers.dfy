/** Option and "field present in a partial object" wrappers shared by every module. */
module Wrappers {

  /** A value that may be missing (`undefined` / `null` in the source). */
  datatype Option<+T> = None | Some(value: T) {
    /** The value, or `default` when missing: the source's `x || default` for non-falsy values. */
    function GetOr(default: T): T {
      match this
      case Some(v) => v
      case None => default
    }
  }

  /**
   * One property of a `Partial<T>` update object: `Absent` when the object does not
   * mention the property, `Present(v)` when it sets it (possibly to `undefined`,
   * which is `Present(None)` for an optional property).  Object spread
   * `{ ...old, ...updates }` keeps the old value exactly for the absent ones.
   */
  datatype Field<+T> = Absent | Present(value: T) {
    function Over(previous: T): T {
      match this
      case Present(v) => v
      case Absent => previous
    }
  }
}
