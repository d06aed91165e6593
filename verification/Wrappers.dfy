/** Small shared types: optional values and the row limit of a table query. */
module Wrappers {

  datatype Option<+T> = None | Some(value: T)

  /** `LIMIT ?` on rows already in that order: the first rows; a negative limit is no limit. */
  function Limit<T>(rows: seq<T>, limit: int): seq<T>
  {
    if limit < 0 || limit >= |rows| then rows else rows[..limit]
  }
}
