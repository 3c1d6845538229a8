/** Two ranges that show where `IntRange`'s guards and Java's `int` width
    leave the documented meaning of its counts. */
module RangeScenarios {
  import opened Common
  import opened Refs

  /** The guards do not order `low` and `high`: a low value above the high
      value is accepted, and `valueRange()` is then -1, not a count. */
  method LowMayPassHigh() returns (range: IntRange, r: Outcome)
    ensures range.Valid() && r == Pass
    ensures range.low == 9 && range.high == 7
    ensures range.ValueRange() == -1 && |IntsBetween(range.low, range.high)| == 0
  {
    range := new IntRange(0, 10, 5, 7);
    r := range.SetLow(9);
  }

  /** The widest range, `[MIN_INT, MAX_INT]`, holds 2^32 integers, and
      `maxValueRange()` wraps that to 0. */
  method WidestRangeWraps() returns (range: IntRange)
    ensures range.Valid() && range.min == MIN_INT && range.max == MAX_INT
    ensures range.MaxValueRange() == 0
  {
    range := new IntRange(MIN_INT, MAX_INT, 0, 0);
  }
}
