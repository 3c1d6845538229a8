/** `utils.refs`: the mutable integer range and the refs it is built from.

    An `IntRange` has fixed bounds `min` and `max` and two adjustable values,
    `low` (held by its low ref) and `high` (held by its high ref). The only
    guards are `min <= max` at construction, `low >= min` and `high <= max`;
    nothing keeps `low <= high`. */
module Refs {
  import opened Common

  /** A `Runnable` change action. Java compares these by identity, and each
      evaluation of a method reference makes a new one; here an action is
      the object whose method it invokes together with a serial number that
      object gives it, so two actions made by two evaluations differ. */
  datatype ChangeAction = ChangeAction(owner: object, serial: nat)

  /** `MutableBooleanRef`: a boolean value with a list of change actions. */
  class BoolRef {
    var value: bool
    var actions: seq<ChangeAction>

    constructor (value: bool)
      ensures this.value == value && actions == []
    {
      this.value := value;
      actions := [];
    }

    method AddChangeAction(action: ChangeAction)
      modifies this`actions
      ensures actions == old(actions) + [action]
    {
      actions := actions + [action];
    }
  }

  const MIN_ABOVE_MAX := "min > max"
  const LOW_BELOW_MIN := "Low value must be greater than or equal to min value."
  const HIGH_ABOVE_MAX := "High value must be less than or equal to max value."
  const SET_LOW_BELOW_MIN := "Low value cannot be lower than min value."
  const SET_HIGH_ABOVE_MAX := "High value cannot be greater than max value."

  /** `IntRange.verify`: the three checks, in the order `verify` makes them. */
  function Verify(min: Int32, max: Int32, low: Int32, high: Int32): (r: Outcome)
    ensures r.Pass? <==> min <= max && low >= min && high <= max
    ensures min > max ==> r == Fail(IllegalArgument(MIN_ABOVE_MAX))
    ensures min <= max && low < min ==> r == Fail(IllegalArgument(LOW_BELOW_MIN))
    ensures min <= max && low >= min && high > max ==> r == Fail(IllegalArgument(HIGH_ABOVE_MAX))
  {
    if min > max then Fail(IllegalArgument(MIN_ABOVE_MAX))
    else if low < min then Fail(IllegalArgument(LOW_BELOW_MIN))
    else if high > max then Fail(IllegalArgument(HIGH_ABOVE_MAX))
    else Pass
  }

  /** `List.remove(Object)`: drop the first occurrence of `x`, if any. */
  function RemoveFirst<T(==)>(s: seq<T>, x: T): (r: seq<T>)
    ensures x !in s ==> r == s
    ensures x in s ==> |r| == |s| - 1 && multiset(r) == multiset(s) - multiset{x}
    decreases |s|
  {
    if s == [] then []
    else
      assert s == [s[0]] + s[1..];
      if s[0] == x then s[1..]
      else [s[0]] + RemoveFirst(s[1..], x)
  }

  class IntRange {
    const min: Int32
    const max: Int32
    var low: Int32
    var high: Int32
    /** The change actions of the low ref and of the high ref. */
    var lowActions: seq<ChangeAction>
    var highActions: seq<ChangeAction>

    /** What the guards keep, and that the two refs carry the same actions. */
    ghost predicate Valid()
      reads this
    {
      min <= max && low >= min && high <= max && lowActions == highActions
    }

    /** The body of `new IntRange(min, max, low, high)` once `verify` passed. */
    constructor (min: Int32, max: Int32, low: Int32, high: Int32)
      requires Verify(min, max, low, high).Pass?
      ensures Valid()
      ensures this.min == min && this.max == max && this.low == low && this.high == high
      ensures lowActions == [] && highActions == []
    {
      this.min := min;
      this.max := max;
      this.low := low;
      this.high := high;
      lowActions := [];
      highActions := [];
    }

    /** `new IntRange(min, max, low, high)`: `verify` runs before any field is
        set, so a failed check builds nothing. */
    static method Create(min: Int32, max: Int32, low: Int32, high: Int32) returns (r: Result<IntRange>)
      ensures r.Ok? <==> Verify(min, max, low, high).Pass?
      ensures r.Err? ==> Verify(min, max, low, high) == Fail(r.error)
      ensures r.Ok? ==> fresh(r.value) && r.value.Valid()
      ensures r.Ok? ==> r.value.min == min && r.value.max == max && r.value.low == low && r.value.high == high
      ensures r.Ok? ==> r.value.lowActions == []
    {
      var check := Verify(min, max, low, high);
      if check.Fail? {
        return Err(check.error);
      }
      var range := new IntRange(min, max, low, high);
      r := Ok(range);
    }

    function GetMin(): (r: Int32)
      reads this
      ensures Valid() ==> r <= max && r <= low
    {
      min
    }

    function GetMax(): (r: Int32)
      reads this
      ensures Valid() ==> r >= min && r >= high
    {
      max
    }

    function GetLow(): (r: Int32)
      reads this
      ensures Valid() ==> min <= r
    {
      low
    }

    function GetHigh(): (r: Int32)
      reads this
      ensures Valid() ==> r <= max
    {
      high
    }

    /** `setLow`, that is the low ref's guarded `set`: below `min` it throws
        and nothing changes; otherwise only `low` changes. */
    method SetLow(newLow: Int32) returns (r: Outcome)
      requires Valid()
      modifies this`low
      ensures Valid()
      ensures r.Pass? <==> newLow >= min
      ensures r.Fail? ==> r.error == IllegalArgument(SET_LOW_BELOW_MIN) && low == old(low)
      ensures r.Pass? ==> low == newLow
    {
      if newLow < min {
        return Fail(IllegalArgument(SET_LOW_BELOW_MIN));
      }
      low := newLow;
      r := Pass;
    }

    /** `setHigh`, that is the high ref's guarded `set`: above `max` it throws
        and nothing changes; otherwise only `high` changes. */
    method SetHigh(newHigh: Int32) returns (r: Outcome)
      requires Valid()
      modifies this`high
      ensures Valid()
      ensures r.Pass? <==> newHigh <= max
      ensures r.Fail? ==> r.error == IllegalArgument(SET_HIGH_ABOVE_MAX) && high == old(high)
      ensures r.Pass? ==> high == newHigh
    {
      if newHigh > max {
        return Fail(IllegalArgument(SET_HIGH_ABOVE_MAX));
      }
      high := newHigh;
      r := Pass;
    }

    /** `valueRange()`: `high - low + 1` in Java `int` arithmetic. Without
        overflow it is the number of integers from `low` to `high` as long as
        `low <= high + 1`; once `low` has passed `high + 1` it is negative. */
    function ValueRange(): (r: Int32)
      reads this
      ensures low <= high + 1 && high - low + 1 <= MAX_INT ==> r == |IntsBetween(low, high)|
      ensures low > high + 1 && high - low + 1 >= MIN_INT ==> r < 0 && r == high - low + 1
    {
      if low <= high + 1 then CardIntsBetween(low, high); Wrap32(high - low + 1)
      else Wrap32(high - low + 1)
    }

    /** `maxValueRange()`: `max - min + 1` in Java `int` arithmetic; without
        overflow, the number of integers from `min` to `max`. */
    function MaxValueRange(): (r: Int32)
      reads this
      ensures Valid() && max - min + 1 <= MAX_INT ==> r == |IntsBetween(min, max)|
    {
      if min <= max then CardIntsBetween(min, max); Wrap32(max - min + 1)
      else Wrap32(max - min + 1)
    }

    /** `addChangeAction`: registered on the low ref and on the high ref. */
    method AddChangeAction(action: ChangeAction)
      requires Valid()
      modifies this`lowActions, this`highActions
      ensures Valid()
      ensures lowActions == old(lowActions) + [action]
      ensures highActions == old(highActions) + [action]
    {
      lowActions := lowActions + [action];
      highActions := highActions + [action];
    }

    /** `removeChangeAction`: removed from both refs; the low ref's answer is
        returned, and the two refs always give the same answer. */
    method RemoveChangeAction(action: ChangeAction) returns (removed: bool)
      requires Valid()
      modifies this`lowActions, this`highActions
      ensures Valid()
      ensures removed <==> action in old(lowActions)
      ensures lowActions == RemoveFirst(old(lowActions), action)
      ensures highActions == RemoveFirst(old(highActions), action)
    {
      var lowResult := action in lowActions;
      lowActions := RemoveFirst(lowActions, action);
      var highResult := action in highActions;
      highActions := RemoveFirst(highActions, action);
      assert lowResult == highResult;
      removed := lowResult;
    }

    /** `getChangeActionsUnmodifiable`: the low ref's list, which is also the
        high ref's. */
    function GetChangeActionsUnmodifiable(): (r: seq<ChangeAction>)
      reads this
      ensures Valid() ==> r == highActions
    {
      lowActions
    }
  }

}

