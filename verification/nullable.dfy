/** Nullable cells of a data frame. A missing value (null, NaN, NaT) is `None`. */
module Nullable {

  /** A value that may be missing. Comparing `None` with any string is false,
      as an equality test against a missing cell is false in a data frame. */
  datatype Option<+T> = None | Some(value: T)
}
