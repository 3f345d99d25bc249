/** Shared value types: optional values, results, and calendar dates. */
module Base {

  /** A value that may be absent (Python's `None`). */
  datatype Option<+T> = None | Some(value: T)

  /** The outcome of an operation that may raise instead of returning. */
  datatype Result<+T, +E> = Ok(value: T) | Err(error: E)

  /** Proleptic Gregorian ordinal of the first representable date, 0001-01-01. */
  const MinOrdinal: int := 1
  /** Proleptic Gregorian ordinal of the last representable date, 9999-12-31. */
  const MaxOrdinal: int := 3652059

  /**
   * A calendar date, represented by its proleptic Gregorian ordinal
   * (day 1 is 0001-01-01, as in Python's `date.toordinal()`).
   * Comparing two dates is comparing their ordinals, and adding one day
   * is adding one to the ordinal.
   */
  newtype Date = d: int | MinOrdinal <= d <= MaxOrdinal witness MinOrdinal
}
