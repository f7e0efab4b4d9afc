/** Optional values, for JSON fields that may be absent. */
module Opt {

  datatype Option<+T> = None | Some(value: T)

  /** The text of an optional string field, or "" when it is absent: what `field || ''` yields. */
  function OrEmpty(o: Option<string>): string
  {
    match o
    case Some(v) => v
    case None => ""
  }
}
