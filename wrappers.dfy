/** Option and Result values, used where the plugin returns null or throws. */
module Wrappers {

  /** A value that may be missing: the plugin's nullable `T?`. */
  datatype Option<+T> = None | Some(value: T) {

    /** The C# `a ?? b` operator: this value if present, otherwise `other`. */
    function OrElse(other: Option<T>): Option<T> {
      if Some? then this else other
    }

    /** `a ?? d` for a value type: this value if present, otherwise `default`. */
    function ValueOr(default: T): T {
      if Some? then value else default
    }

    /** The value as a list of at most one element. */
    function ToSeq(): (s: seq<T>)
      ensures |s| <= 1 && (Some? <==> |s| == 1) && (Some? ==> s[0] == value)
    {
      if Some? then [value] else []
    }
  }

  /** Either a value or the error the plugin would have thrown. */
  datatype Result<+T, +E> = Success(value: T) | Failure(error: E) {

    /** The `Try*` wrappers of the plugin: any failure becomes null. */
    function ToOption(): Option<T> {
      if Success? then Some(value) else None
    }
  }
}
