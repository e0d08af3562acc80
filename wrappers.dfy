/** Small value wrappers shared by the other modules. */
module Wrappers {

  /** A value that may be missing. */
  datatype Option<+T> = None | Some(value: T)

  /**
   * One key of a parsed JSON object, read with Python's `obj.get(key, default)`.
   * Absent: the key is not there, so `get` yields the default.
   * Null: the key is there with JSON `null`, so `get` yields `None`, not the default.
   * Present: the key is there with a value of the expected shape.
   */
  datatype Field<+T> = Absent | Null | Present(value: T)
}
