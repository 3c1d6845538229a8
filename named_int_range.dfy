/** `suppliers.NamedIntRange`: an `IntRange` with a fixed display name. Both
    fields are final; the getters read the range's current values. */
module NamedRanges {
  import opened Common
  import opened Refs

  /** `RangeStore`: the four numbers a supplier keeps for one of its ranges. */
  datatype RangeStore = RangeStore(min: Int32, max: Int32, low: Int32, high: Int32)

  class NamedIntRange {
    const range: IntRange
    const name: string

    constructor (range: IntRange, name: string)
      ensures this.range == range && this.name == name
    {
      this.range := range;
      this.name := name;
    }

    /** `new NamedIntRange(range, name)`, with `Objects.requireNonNull` on
        both arguments; `name` is None for a null `String`. */
    static method New(range: IntRange?, name: Option<string>) returns (r: Result<NamedIntRange>)
      ensures r.Ok? <==> range != null && name.Some?
      ensures r.Err? ==> r.error == NullArgument
      ensures r.Ok? ==> fresh(r.value) && r.value.range == range && r.value.name == name.value
    {
      if range == null || name.None? {
        return Err(NullArgument);
      }
      var named := new NamedIntRange(range, name.value);
      r := Ok(named);
    }

    /** `of(range, name)`, equivalent to the constructor. */
    static method Of(range: IntRange?, name: Option<string>) returns (r: Result<NamedIntRange>)
      ensures r.Ok? <==> range != null && name.Some?
      ensures r.Err? ==> r.error == NullArgument
      ensures r.Ok? ==> fresh(r.value) && r.value.range == range && r.value.name == name.value
    {
      r := New(range, name);
    }

    /** `of(min, max, low, high, name)`: fails exactly when the `IntRange`
        constructor does, with its error. */
    static method OfBounds(min: Int32, max: Int32, low: Int32, high: Int32, name: string)
      returns (r: Result<NamedIntRange>)
      ensures r.Ok? <==> Verify(min, max, low, high).Pass?
      ensures r.Err? ==> Verify(min, max, low, high) == Fail(r.error)
      ensures r.Ok? ==> fresh(r.value) && fresh(r.value.range) && r.value.range.Valid()
      ensures r.Ok? ==> r.value.name == name && r.value.range.lowActions == []
      ensures r.Ok? ==> r.value.Min() == min && r.value.Max() == max
      ensures r.Ok? ==> r.value.Low() == low && r.value.High() == high
    {
      var range := IntRange.Create(min, max, low, high);
      if range.Err? {
        return Err(range.error);
      }
      r := Of(range.value, Some(name));
    }

    /** `of(store, name)`: the store's min, max, low and high, in that order. */
    static method OfStore(store: RangeStore, name: string) returns (r: Result<NamedIntRange>)
      ensures r.Ok? <==> Verify(store.min, store.max, store.low, store.high).Pass?
      ensures r.Err? ==> Verify(store.min, store.max, store.low, store.high) == Fail(r.error)
      ensures r.Ok? ==> fresh(r.value) && fresh(r.value.range) && r.value.range.Valid()
      ensures r.Ok? ==> r.value.name == name && r.value.range.lowActions == []
      ensures r.Ok? ==> r.value.Min() == store.min && r.value.Max() == store.max
      ensures r.Ok? ==> r.value.Low() == store.low && r.value.High() == store.high
    {
      r := OfBounds(store.min, store.max, store.low, store.high, name);
    }

    function GetName(): (r: string)
      ensures r == name
    {
      name
    }

    /** `ref()`: always the range given at construction. */
    function Ref(): (r: IntRange)
      ensures r == range
    {
      range
    }

    function Low(): (r: Int32)
      reads range
      ensures r == range.GetLow()
      ensures range.Valid() ==> r >= Min()
    {
      Ref().GetLow()
    }

    function High(): (r: Int32)
      reads range
      ensures r == range.GetHigh()
      ensures range.Valid() ==> r <= Max()
    {
      Ref().GetHigh()
    }

    function Min(): (r: Int32)
      ensures r == range.GetMin()
    {
      Ref().min
    }

    function Max(): (r: Int32)
      ensures r == range.GetMax()
      ensures range.Valid() ==> r >= Min()
    {
      Ref().max
    }
  }
}
