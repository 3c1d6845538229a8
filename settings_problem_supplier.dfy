/** `suppliers.SettingsProblemSupplier`: the settings part every supplier
    shares. The list of settings is created on the first `addAllSettings`,
    and each setting added gets a change action that calls back into the
    supplier. The concrete suppliers hold one of these instead of extending it. */
module Settings {
  import opened Common
  import opened Refs
  import opened NamedRanges

  /** The ref object that a setting's change actions go to. */
  datatype RefTarget = RangeRef(range: IntRange) | FlagRef(flag: BoolRef)
  {
    function Object(): object
    {
      match this
      case RangeRef(r) => r
      case FlagRef(f) => f
    }

    /** `getChangeActionsUnmodifiable()`: for an `IntRange` the low ref's
        list, which its high ref shares. */
    ghost function Actions(): seq<ChangeAction>
      reads Object()
    {
      match this
      case RangeRef(r) => r.lowActions
      case FlagRef(f) => f.actions
    }

    /** The value held, which registering actions leaves alone. */
    ghost function Value(): RefValue
      reads Object()
    {
      match this
      case RangeRef(r) => RangeValue(r.low, r.high)
      case FlagRef(f) => FlagValue(f.value)
    }

    ghost predicate Valid()
      reads Object()
    {
      match this
      case RangeRef(r) => r.Valid()
      case FlagRef(_) => true
    }
  }

  datatype RefValue = RangeValue(low: int, high: int) | FlagValue(value: bool)

  /** Two different refs are two different objects. */
  lemma ObjectInjective(t: RefTarget, u: RefTarget)
    requires t != u
    ensures t.Object() != u.Object()
  {
    if t.RangeRef? && u.FlagRef? {
      assert t.range is IntRange && u.flag is BoolRef;
    } else if t.FlagRef? && u.RangeRef? {
      assert u.range is IntRange && t.flag is BoolRef;
    }
  }

  /** A `Ref` that a supplier registers as a setting. */
  datatype Setting =
    | RangeSetting(named: NamedIntRange)          // a NamedIntRange
    | NamedRange(name: string, range: IntRange)  // NamedSetting.of(IntRange, name)
    | NamedFlag(name: string, flag: BoolRef)     // NamedSetting.of(MutableBooleanRef, name)
  {
    function Name(): string
    {
      match this
      case RangeSetting(n) => n.name
      case NamedRange(name, _) => name
      case NamedFlag(name, _) => name
    }

    /** A named setting passes change actions on to the ref it names. */
    function Ref(): RefTarget
    {
      match this
      case RangeSetting(n) => RangeRef(n.range)
      case NamedRange(_, r) => RangeRef(r)
      case NamedFlag(_, f) => FlagRef(f)
    }
  }

  /** `ref.addChangeAction(action)`. */
  method Register(t: RefTarget, action: ChangeAction)
    requires t.Valid()
    modifies t.Object()
    ensures t.Valid()
    ensures t.Actions() == old(t.Actions()) + [action]
    ensures t.Value() == old(t.Value())
  {
    match t
    case RangeRef(r) => r.AddChangeAction(action);
    case FlagRef(f) => f.AddChangeAction(action);
  }

  ghost function Objects(ss: seq<Setting>): set<object>
  {
    set i | 0 <= i < |ss| :: ss[i].Ref().Object()
  }

  /** How many of `ss` name the ref `t`. */
  ghost function Occurrences(ss: seq<Setting>, t: RefTarget): nat
    decreases |ss|
  {
    if ss == [] then 0
    else Occurrences(ss[..|ss| - 1], t) + (if ss[|ss| - 1].Ref() == t then 1 else 0)
  }

  /** `n` copies of `action`. */
  function Repeat(action: ChangeAction, n: nat): (r: seq<ChangeAction>)
    ensures |r| == n && forall i :: 0 <= i < n ==> r[i] == action
  {
    if n == 0 then [] else Repeat(action, n - 1) + [action]
  }

  /** After the first `k` settings of `ss` were handled: each ref is still
      valid, holds the value it held at the start, and carries one more
      copy of `action` for each of those settings that names it. */
  ghost predicate RegisteredUpTo(ss: seq<Setting>, k: nat, action: ChangeAction,
                                 values: seq<RefValue>, actions: seq<seq<ChangeAction>>)
    requires k <= |ss| == |values| == |actions|
    reads Objects(ss)
  {
    forall i :: 0 <= i < |ss| ==> Handled(ss, i, k, action, values[i], actions[i])
  }

  /** The ref of setting `i` after the first `k` settings were handled. */
  ghost predicate Handled(ss: seq<Setting>, i: nat, k: nat, action: ChangeAction,
                          value: RefValue, actions: seq<ChangeAction>)
    requires i < |ss| && k <= |ss|
    reads Objects(ss)
  {
    var t := ss[i].Ref();
    assert t.Object() in Objects(ss);
    t.Valid() && t.Value() == value && t.Actions() == actions + Repeat(action, Occurrences(ss[..k], t))
  }

  /** The value of every setting's ref, in order. */
  ghost function ValuesOf(ss: seq<Setting>): (r: seq<RefValue>)
    reads Objects(ss)
    ensures |r| == |ss| && forall i :: 0 <= i < |ss| ==> r[i] == ss[i].Ref().Value()
    decreases |ss|
  {
    if ss == [] then []
    else
      assert ss[|ss| - 1].Ref().Object() in Objects(ss);
      assert Objects(ss[..|ss| - 1]) <= Objects(ss) by {
        forall o | o in Objects(ss[..|ss| - 1]) ensures o in Objects(ss) {
          var j :| 0 <= j < |ss| - 1 && ss[j].Ref().Object() == o;
          assert ss[..|ss| - 1][j] == ss[j];
        }
      }
      ValuesOf(ss[..|ss| - 1]) + [ss[|ss| - 1].Ref().Value()]
  }

  /** The change actions of every setting's ref, in order. */
  ghost function ActionsOf(ss: seq<Setting>): (r: seq<seq<ChangeAction>>)
    reads Objects(ss)
    ensures |r| == |ss| && forall i :: 0 <= i < |ss| ==> r[i] == ss[i].Ref().Actions()
    decreases |ss|
  {
    if ss == [] then []
    else
      assert ss[|ss| - 1].Ref().Object() in Objects(ss);
      assert Objects(ss[..|ss| - 1]) <= Objects(ss) by {
        forall o | o in Objects(ss[..|ss| - 1]) ensures o in Objects(ss) {
          var j :| 0 <= j < |ss| - 1 && ss[j].Ref().Object() == o;
          assert ss[..|ss| - 1][j] == ss[j];
        }
      }
      ActionsOf(ss[..|ss| - 1]) + [ss[|ss| - 1].Ref().Actions()]
  }

  /** One pass of the loop of `addAllSettings`. */
  method RegisterNext(ss: seq<Setting>, k: nat, action: ChangeAction,
                      ghost values: seq<RefValue>, ghost actions: seq<seq<ChangeAction>>)
    requires k < |ss| == |values| == |actions|
    requires RegisteredUpTo(ss, k, action, values, actions)
    modifies ss[k].Ref().Object()
    ensures RegisteredUpTo(ss, k + 1, action, values, actions)
  {
    var s := ss[k].Ref();
    assert s.Object() in Objects(ss);
    assert Handled(ss, k, k, action, values[k], actions[k]);
    Register(s, action);
    forall i | 0 <= i < |ss|
      ensures Handled(ss, i, k + 1, action, values[i], actions[i])
    {
      var t := ss[i].Ref();
      OccurrencesStep(ss, k, t);
      if t != s {
        ObjectInjective(t, s);
      }
    }
  }

  /** The loop of `addAllSettings`: `action` registered on every setting in turn. */
  method RegisterAll(ss: seq<Setting>, action: ChangeAction,
                     ghost values: seq<RefValue>, ghost actions: seq<seq<ChangeAction>>)
    requires forall i :: 0 <= i < |ss| ==> ss[i].Ref().Valid()
    requires values == ValuesOf(ss) && actions == ActionsOf(ss)
    modifies Objects(ss)
    ensures RegisteredUpTo(ss, |ss|, action, values, actions)
  {
    for k := 0 to |ss|
      invariant RegisteredUpTo(ss, k, action, values, actions)
    {
      RegisterNext(ss, k, action, values, actions);
    }
  }

  /** `RegisteredUpTo` once every setting was handled, spelled out. */
  lemma AllRegistered(ss: seq<Setting>, action: ChangeAction,
                      values: seq<RefValue>, actions: seq<seq<ChangeAction>>)
    requires |ss| == |values| == |actions|
    requires RegisteredUpTo(ss, |ss|, action, values, actions)
    ensures forall i :: 0 <= i < |ss| ==>
      var t := ss[i].Ref();
      t.Valid() && t.Value() == values[i] && t.Actions() == actions[i] + Repeat(action, Occurrences(ss, t))
  {
    assert ss[..|ss|] == ss;
    forall i | 0 <= i < |ss|
      ensures var t := ss[i].Ref();
        t.Valid() && t.Value() == values[i] && t.Actions() == actions[i] + Repeat(action, Occurrences(ss, t))
    {
      assert Handled(ss, i, |ss|, action, values[i], actions[i]);
    }
  }

  lemma OccurrencesStep(ss: seq<Setting>, k: nat, t: RefTarget)
    requires k < |ss|
    ensures Occurrences(ss[..k + 1], t) == Occurrences(ss[..k], t) + (if ss[k].Ref() == t then 1 else 0)
  {
    assert ss[..k + 1][..k] == ss[..k];
  }

  ghost predicate DistinctRefs(ss: seq<Setting>)
  {
    forall i, j :: 0 <= i < j < |ss| ==> ss[i].Ref() != ss[j].Ref()
  }

  /** When no two settings share a ref, every setting's ref gets exactly one
      action from a call of `addAllSettings`. */
  lemma {:induction false} DistinctRefsOccurOnce(ss: seq<Setting>, k: nat)
    requires DistinctRefs(ss) && k < |ss|
    ensures Occurrences(ss, ss[k].Ref()) == 1
    decreases |ss|
  {
    var init := ss[..|ss| - 1];
    if k < |ss| - 1 {
      assert init[k] == ss[k];
      DistinctRefsOccurOnce(init, k);
    } else {
      NoOccurrences(init, ss[k].Ref());
    }
  }

  lemma {:induction false} NoOccurrences(ss: seq<Setting>, t: RefTarget)
    requires forall i :: 0 <= i < |ss| ==> ss[i].Ref() != t
    ensures Occurrences(ss, t) == 0
    decreases |ss|
  {
    if ss != [] {
      NoOccurrences(ss[..|ss| - 1], t);
    }
  }

  /** Every setting's ref keeps its own invariant. */
  ghost predicate AllValid(ss: seq<Setting>)
    reads Objects(ss)
  {
    forall i :: 0 <= i < |ss| ==> assert ss[i].Ref().Object() in Objects(ss); ss[i].Ref().Valid()
  }

  /** No setting's ref has a change action yet. */
  ghost predicate NoActions(ss: seq<Setting>)
    reads Objects(ss)
  {
    forall i :: 0 <= i < |ss| ==> assert ss[i].Ref().Object() in Objects(ss); ss[i].Ref().Actions() == []
  }

  /** Every setting's ref has `action` as its one change action. */
  ghost predicate OnlyAction(ss: seq<Setting>, action: ChangeAction)
    reads Objects(ss)
  {
    forall i :: 0 <= i < |ss| ==> assert ss[i].Ref().Object() in Objects(ss); ss[i].Ref().Actions() == [action]
  }

  class SettingsProblemSupplier {
    /** The settings list; None until the first `addAllSettings`. */
    var list: Option<seq<Setting>>
    /** How many change actions this supplier has made so far; the serial
        number of the next one. */
    var made: nat

    constructor ()
      ensures list == None && made == 0
    {
      list := None;
      made := 0;
    }

    /** `settings()`: the empty list before any `addAllSettings`, otherwise a
        read-only view of the list (a value, so callers cannot change it). */
    function Settings(): (r: seq<Setting>)
      reads this
      ensures list.None? ==> r == []
      ensures list.Some? ==> r == list.value
    {
      match list
      case None => []
      case Some(l) => l
    }

    /** `addAllSettings(newSettings)`: registers one new action (which calls
        this supplier's `settingsChanged`) on every setting passed, in order,
        then appends the settings to the list, creating it if there is none.
        The new action is returned so that callers can name it. */
    method AddAllSettings(newSettings: seq<Setting>) returns (action: ChangeAction)
      requires forall i :: 0 <= i < |newSettings| ==> newSettings[i].Ref().Valid()
      modifies this`list, this`made, Objects(newSettings)
      ensures list.Some?
      ensures Settings() == old(Settings()) + newSettings
      ensures action == ChangeAction(this, old(made)) && made == old(made) + 1
      ensures forall i :: 0 <= i < |newSettings| ==>
        var t := newSettings[i].Ref();
        t.Valid() && t.Value() == old(t.Value())
        && t.Actions() == old(t.Actions()) + Repeat(action, Occurrences(newSettings, t))
      ensures AllValid(newSettings) && ValuesOf(newSettings) == old(ValuesOf(newSettings))
      ensures DistinctRefs(newSettings) && old(NoActions(newSettings)) ==> OnlyAction(newSettings, action)
    {
      ghost var values := ValuesOf(newSettings);
      ghost var actions := ActionsOf(newSettings);
      action := ChangeAction(this, made);
      made := made + 1;
      // Appending first is the same as appending last: nothing runs the
      // actions in between, and the list is not one of the refs.
      NotARef(newSettings);
      list := Some(Settings() + newSettings);
      RegisterAll(newSettings, action, values, actions);
      AllRegistered(newSettings, action, values, actions);
      assert ValuesOf(newSettings) == values;
      if DistinctRefs(newSettings) && old(NoActions(newSettings)) {
        assert Repeat(action, 1) == [action];
        forall i | 0 <= i < |newSettings|
          ensures newSettings[i].Ref().Actions() == [action]
        {
          DistinctRefsOccurOnce(newSettings, i);
        }
      }
    }

    /** The supplier is never one of its settings' refs, so appending to its
        list leaves every ref alone. */
    lemma NotARef(ss: seq<Setting>)
      ensures this !in Objects(ss)
    {
      forall i | 0 <= i < |ss|
        ensures ss[i].Ref().Object() != this
      {
        match ss[i].Ref()
        case RangeRef(r) => assert r is IntRange;
        case FlagRef(f) => assert f is BoolRef;
      }
    }
  }

  /** A constructor's `addAllSettings(s)` with a single setting, on a
      registry that holds none yet: the list becomes `[s]` and `s` carries
      exactly the one new action. */
  method AddFirstSetting(registry: SettingsProblemSupplier, s: Setting) returns (action: ChangeAction)
    requires registry.list == None
    requires s.Ref().Valid() && s.Ref().Actions() == []
    modifies registry, s.Ref().Object()
    ensures registry.Settings() == [s]
    ensures action == ChangeAction(registry, old(registry.made)) && registry.made == old(registry.made) + 1
    ensures s.Ref().Valid() && s.Ref().Value() == old(s.Ref().Value()) && s.Ref().Actions() == [action]
  {
    var settings := [s];
    assert s.Ref().Object() in Objects(settings);
    assert Objects(settings) == {s.Ref().Object()};
    ghost var before := ValuesOf(settings);
    assert before[0] == s.Ref().Value();
    action := registry.AddAllSettings(settings);
    assert [] + settings == settings;
    assert ValuesOf(settings)[0] == before[0];
    assert Occurrences(settings, s.Ref()) == 1;
  }
}
