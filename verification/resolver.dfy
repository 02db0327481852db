/**
 * Reading and writing one (group, setting) key of a configuration step,
 * with inheritance from the configuration steps that precede it in the
 * fitter's sequence of steps.
 *
 * The fitter's lookup of the nearest earlier configuration step lives in the
 * fitter itself, which is not part of this model: here the steps before the
 * one being read are passed in as `prior`, first step first, and the lookup
 * is a backward scan for the last configuration step among them.
 */
module SettingResolver {
  import opened GroupSettingsStore

  /** Whether this step holds the key: a value (Python True), a reset (None) or nothing (False). */
  datatype LocalState = SetValue | Reset | NotSet

  /** The triple a read returns: value, setLocally, inheritable. */
  datatype Resolution = Resolution(value: Option<real>, setLocally: LocalState, inheritable: bool)

  /**
   * A step the fitter holds before the step being read. Only configuration
   * steps take part in inheritance; the others are skipped over.
   */
  datatype PriorStep = ConfigStep(groupSettings: GroupSettings) | OtherStep

  /** The setting names used by the configuration step. */
  const DataProportion: string := "dataProportion"
  const DataWeight: string := "dataWeight"

  /** The index of the nearest configuration step in `prior`, if there is one. */
  function InheritConfigIndex(prior: seq<PriorStep>): (r: Option<nat>)
    ensures r.Some? ==> r.value < |prior| && prior[r.value].ConfigStep?
    ensures r.Some? ==> forall k :: r.value < k < |prior| ==> !prior[k].ConfigStep?
    ensures r.None? ==> forall k :: 0 <= k < |prior| ==> !prior[k].ConfigStep?
  {
    if |prior| == 0 then None
    else if prior[|prior| - 1].ConfigStep? then Some(|prior| - 1)
    else InheritConfigIndex(prior[..|prior| - 1])
  }

  /**
   * Reads (groupName, settingName) of the configuration step whose store is
   * `local` and whose predecessors are `prior`. A local value wins; a local
   * reset gives `defaultValue`; an unset key takes the value the nearest
   * earlier configuration step resolves to, or `defaultValue` when that is None.
   * `inheritable` says whether the earlier step resolves to a value at all.
   */
  function Resolve(local: GroupSettings, prior: seq<PriorStep>, groupName: string, settingName: string,
                   defaultValue: Option<real>): (r: Resolution)
    ensures defaultValue.Some? ==> r.value.Some?
    decreases |prior|, 1
  {
    var stored := Lookup(local, groupName, settingName);
    var setLocally := match stored
      case None => NotSet
      case Some(None) => Reset
      case Some(Some(_)) => SetValue;
    var localValue := if stored.Some? then stored.value else None;
    var inherited := InheritedValue(prior, groupName, settingName);
    var value := if inherited.Some? && setLocally == NotSet then inherited else localValue;
    Resolution(if value.Some? then value else defaultValue, setLocally, inherited.Some?)
  }

  /**
   * What the nearest earlier configuration step resolves (groupName,
   * settingName) to with no default: None when there is no such step.
   */
  function InheritedValue(prior: seq<PriorStep>, groupName: string, settingName: string): (r: Option<real>)
    ensures r.Some? ==>
      exists k :: 0 <= k < |prior| && prior[k].ConfigStep? &&
        Lookup(prior[k].groupSettings, groupName, settingName) == Some(r)
    decreases |prior|, 0
  {
    match InheritConfigIndex(prior)
    case None => None
    case Some(j) => Resolve(prior[j].groupSettings, prior[..j], groupName, settingName, None).value
  }

  /**
   * Stores `value` for (groupName, settingName). A None value is kept as a
   * reset marker only when an earlier configuration step resolves the key to
   * a value; otherwise the key is cleared.
   */
  function AssignSetting(local: GroupSettings, prior: seq<PriorStep>, groupName: string, settingName: string,
                         value: StoredValue): (r: GroupSettings)
    ensures value.Some? ==> Lookup(r, groupName, settingName) == Some(value)
    ensures value.None? ==>
      Lookup(r, groupName, settingName) ==
        (if InheritedValue(prior, groupName, settingName).Some? then Some(None) else None)
    ensures forall g, s :: (g != groupName || s != settingName) ==> Lookup(r, g, s) == Lookup(local, g, s)
    ensures NoEmptyGroups(local) ==> NoEmptyGroups(r)
  {
    var stored := Put(local, groupName, settingName, value);
    if value.None? && InheritedValue(prior, groupName, settingName).None? then
      Remove(stored, groupName, settingName)
    else
      stored
  }

  /** The argument of a public setter: None, a float, or a value of any other type. */
  datatype SettingInput = NoneInput | FloatInput(x: real) | NonFloatInput

  /**
   * The value the data proportion setter stores: None stays None, a float is
   * clamped into [0, 1], anything else is replaced by `current`, the
   * proportion the step resolves to at the time.
   */
  function ProportionArgument(input: SettingInput, current: real): (r: StoredValue)
    ensures r.None? <==> input.NoneInput?
    ensures input.FloatInput? ==> 0.0 <= r.value <= 1.0
    ensures input.FloatInput? && 0.0 <= input.x <= 1.0 ==> r.value == input.x
    ensures input.FloatInput? && input.x < 0.0 ==> r.value == 0.0
    ensures input.FloatInput? && input.x > 1.0 ==> r.value == 1.0
    ensures input.NonFloatInput? ==> r == Some(current)
  {
    match input
    case NoneInput => None
    case FloatInput(x) => Some(if x < 0.0 then 0.0 else if x > 1.0 then 1.0 else x)
    case NonFloatInput => Some(current)
  }

  /**
   * The value the data weight setter stores: None stays None, a negative
   * float becomes 0, anything else that is not a float is replaced by `current`.
   */
  function WeightArgument(input: SettingInput, current: real): (r: StoredValue)
    ensures r.None? <==> input.NoneInput?
    ensures input.FloatInput? ==> 0.0 <= r.value
    ensures input.FloatInput? && 0.0 <= input.x ==> r.value == input.x
    ensures input.FloatInput? && input.x < 0.0 ==> r.value == 0.0
    ensures input.NonFloatInput? ==> r == Some(current)
  {
    match input
    case NoneInput => None
    case FloatInput(x) => Some(if x < 0.0 then 0.0 else x)
    case NonFloatInput => Some(current)
  }

  // ---------------------------------------------------------------------
  // Reading
  // ---------------------------------------------------------------------

  /** A read with a default gives the value of the read without one, or else the default. */
  lemma DefaultOnlyFillsAbsentValue(local: GroupSettings, prior: seq<PriorStep>, groupName: string,
                                    settingName: string, defaultValue: real)
    ensures var r := Resolve(local, prior, groupName, settingName, Some(defaultValue));
            var n := Resolve(local, prior, groupName, settingName, None);
            r.value == Some(n.value.GetOr(defaultValue)) &&
            r.setLocally == n.setLocally && r.inheritable == n.inheritable
  {
  }

  /** A local value overrides whatever earlier steps hold. */
  lemma LocalValueWins(local: GroupSettings, prior: seq<PriorStep>, groupName: string, settingName: string,
                       defaultValue: Option<real>, v: real)
    requires Lookup(local, groupName, settingName) == Some(Some(v))
    ensures Resolve(local, prior, groupName, settingName, defaultValue) ==
      Resolution(Some(v), SetValue, InheritedValue(prior, groupName, settingName).Some?)
  {
  }

  /** A local reset gives the default and ignores any inherited value. */
  lemma ResetGivesDefault(local: GroupSettings, prior: seq<PriorStep>, groupName: string, settingName: string,
                          defaultValue: Option<real>)
    requires Lookup(local, groupName, settingName) == Some(None)
    ensures Resolve(local, prior, groupName, settingName, defaultValue) ==
      Resolution(defaultValue, Reset, InheritedValue(prior, groupName, settingName).Some?)
  {
  }

  /** An unset key takes the inherited value when there is one, else the default. */
  lemma UnsetInherits(local: GroupSettings, prior: seq<PriorStep>, groupName: string, settingName: string,
                      defaultValue: Option<real>)
    requires Lookup(local, groupName, settingName) == None
    ensures var inherited := InheritedValue(prior, groupName, settingName);
            Resolve(local, prior, groupName, settingName, defaultValue) ==
            Resolution(if inherited.Some? then inherited else defaultValue, NotSet, inherited.Some?)
  {
  }

  /** With no earlier configuration step an unset key reads as (default, NotSet, false). */
  lemma NoEarlierConfig(local: GroupSettings, prior: seq<PriorStep>, groupName: string, settingName: string,
                        defaultValue: Option<real>)
    requires forall k :: 0 <= k < |prior| ==> !prior[k].ConfigStep?
    requires Lookup(local, groupName, settingName) == None
    ensures Resolve(local, prior, groupName, settingName, defaultValue) == Resolution(defaultValue, NotSet, false)
  {
  }

  /** Step k is the nearest configuration step in `prior` holding any entry (value or reset) for the key. */
  ghost predicate IsNearestEntry(prior: seq<PriorStep>, groupName: string, settingName: string, k: int) {
    && 0 <= k < |prior|
    && prior[k].ConfigStep?
    && Lookup(prior[k].groupSettings, groupName, settingName).Some?
    && forall m :: k < m < |prior| && prior[m].ConfigStep? ==>
         Lookup(prior[m].groupSettings, groupName, settingName).None?
  }

  /** No configuration step in `prior` holds an entry for the key. */
  ghost predicate NoEntry(prior: seq<PriorStep>, groupName: string, settingName: string) {
    forall m :: 0 <= m < |prior| && prior[m].ConfigStep? ==>
      Lookup(prior[m].groupSettings, groupName, settingName).None?
  }

  /**
   * Inheritance passes through every earlier configuration step that leaves
   * the key unset and stops at the nearest one that holds a value or a reset:
   * the inherited value is that entry (None for a reset).
   */
  lemma {:induction false} InheritedFromNearestEntry(prior: seq<PriorStep>, groupName: string,
                                                     settingName: string, k: int)
    requires IsNearestEntry(prior, groupName, settingName, k)
    ensures InheritedValue(prior, groupName, settingName) ==
      Lookup(prior[k].groupSettings, groupName, settingName).value
    decreases |prior|
  {
    var j := InheritConfigIndex(prior).value;
    if j != k {
      assert k < j;
      var earlier := prior[..j];
      assert forall m :: 0 <= m < j ==> earlier[m] == prior[m];
      assert IsNearestEntry(earlier, groupName, settingName, k);
      InheritedFromNearestEntry(earlier, groupName, settingName, k);
    }
  }

  /** When no earlier configuration step holds the key, nothing is inherited. */
  lemma {:induction false} InheritedWithoutEntry(prior: seq<PriorStep>, groupName: string, settingName: string)
    requires NoEntry(prior, groupName, settingName)
    ensures InheritedValue(prior, groupName, settingName) == None
    decreases |prior|
  {
    var index := InheritConfigIndex(prior);
    if index.Some? {
      var j := index.value;
      var earlier := prior[..j];
      assert forall m :: 0 <= m < j ==> earlier[m] == prior[m];
      InheritedWithoutEntry(earlier, groupName, settingName);
    }
  }

  /**
   * The three configuration steps of the group settings scenario: the first
   * holds proportions for "sides" and "top", the second resets "top" and
   * the third holds nothing. The second step's reset hides "top" from the
   * third, while "sides" reaches the third through the second.
   */
  lemma {:induction false} ThreeConfigScenario()
    ensures var config1 := map["sides" := map[DataProportion := Some(0.25)], "top" := map[DataProportion := Some(0.4)]];
            var config2 := AssignSetting(map[], [ConfigStep(config1)], "top", DataProportion, None);
            && config2 == map["top" := map[DataProportion := None]]
            && Resolve(config1, [], "sides", DataProportion, Some(1.0)) == Resolution(Some(0.25), SetValue, false)
            && Resolve(config2, [ConfigStep(config1)], "sides", DataProportion, Some(1.0)) ==
               Resolution(Some(0.25), NotSet, true)
            && Resolve(config2, [ConfigStep(config1)], "top", DataProportion, Some(1.0)) ==
               Resolution(Some(1.0), Reset, true)
            && Resolve(map[], [ConfigStep(config1), ConfigStep(config2)], "sides", DataProportion, Some(1.0)) ==
               Resolution(Some(0.25), NotSet, true)
            && Resolve(map[], [ConfigStep(config1), ConfigStep(config2)], "top", DataProportion, Some(1.0)) ==
               Resolution(Some(1.0), NotSet, false)
  {
    var config1 := map["sides" := map[DataProportion := Some(0.25)], "top" := map[DataProportion := Some(0.4)]];
    var prior1 := [ConfigStep(config1)];
    assert Lookup(config1, "top", DataProportion) == Some(Some(0.4));
    assert Lookup(config1, "sides", DataProportion) == Some(Some(0.25));
    assert IsNearestEntry(prior1, "top", DataProportion, 0);
    InheritedFromNearestEntry(prior1, "top", DataProportion, 0);
    var config2 := AssignSetting(map[], prior1, "top", DataProportion, None);
    assert config2 == map["top" := map[DataProportion := None]];
    var prior2 := [ConfigStep(config1), ConfigStep(config2)];
    assert Lookup(config2, "sides", DataProportion) == None;
    assert IsNearestEntry(prior1, "sides", DataProportion, 0);
    InheritedFromNearestEntry(prior1, "sides", DataProportion, 0);
    assert IsNearestEntry(prior2, "sides", DataProportion, 0);
    InheritedFromNearestEntry(prior2, "sides", DataProportion, 0);
    assert IsNearestEntry(prior2, "top", DataProportion, 1);
    InheritedFromNearestEntry(prior2, "top", DataProportion, 1);
  }

  // ---------------------------------------------------------------------
  // Writing
  // ---------------------------------------------------------------------

  /** After storing a value the key reads back as that value, set locally, and its group is listed. */
  lemma AssignedValueReadsBack(local: GroupSettings, prior: seq<PriorStep>, groupName: string,
                               settingName: string, defaultValue: Option<real>, v: real)
    ensures var r := AssignSetting(local, prior, groupName, settingName, Some(v));
            && Resolve(r, prior, groupName, settingName, defaultValue) ==
               Resolution(Some(v), SetValue, InheritedValue(prior, groupName, settingName).Some?)
            && groupName in GroupNames(r)
  {
    var r := AssignSetting(local, prior, groupName, settingName, Some(v));
    LocalValueWins(r, prior, groupName, settingName, defaultValue, v);
  }

  /**
   * Resetting a key that an earlier step resolves to a value stores the
   * reset marker: the key reads as (default, Reset, true).
   */
  lemma ResetOverInheritedValue(local: GroupSettings, prior: seq<PriorStep>, groupName: string,
                                settingName: string, defaultValue: Option<real>)
    requires InheritedValue(prior, groupName, settingName).Some?
    ensures var r := AssignSetting(local, prior, groupName, settingName, None);
            && Lookup(r, groupName, settingName) == Some(None)
            && Resolve(r, prior, groupName, settingName, defaultValue) == Resolution(defaultValue, Reset, true)
            && groupName in GroupNames(r)
  {
    var r := AssignSetting(local, prior, groupName, settingName, None);
    ResetGivesDefault(r, prior, groupName, settingName, defaultValue);
  }

  /**
   * Resetting a key that nothing earlier resolves to a value is the same as
   * clearing it: the key ends up absent and reads as (default, NotSet, false).
   */
  lemma ResetWithNothingInheritedClears(local: GroupSettings, prior: seq<PriorStep>, groupName: string,
                                        settingName: string, defaultValue: Option<real>)
    requires NoEmptyGroups(local)
    requires InheritedValue(prior, groupName, settingName).None?
    ensures var r := AssignSetting(local, prior, groupName, settingName, None);
            && r == Remove(local, groupName, settingName)
            && Resolve(r, prior, groupName, settingName, defaultValue) == Resolution(defaultValue, NotSet, false)
  {
    var r := AssignSetting(local, prior, groupName, settingName, None);
    var expected := Remove(local, groupName, settingName);
    assert r.Keys == expected.Keys;
    forall g | g in r
      ensures r[g] == expected[g]
    {
      forall s
        ensures (s in r[g]) == (s in expected[g]) && (s in r[g] ==> r[g][s] == expected[g][s])
      {
        assert Lookup(r, g, s) == Lookup(expected, g, s);
      }
    }
  }

  /** Clearing a key leaves it to inheritance and the default. */
  lemma ClearedKeyInherits(local: GroupSettings, prior: seq<PriorStep>, groupName: string, settingName: string,
                           defaultValue: Option<real>)
    ensures var inherited := InheritedValue(prior, groupName, settingName);
            Resolve(Remove(local, groupName, settingName), prior, groupName, settingName, defaultValue) ==
            Resolution(if inherited.Some? then inherited else defaultValue, NotSet, inherited.Some?)
  {
    UnsetInherits(Remove(local, groupName, settingName), prior, groupName, settingName, defaultValue);
  }

  /** Writing one key changes the reading of no other key of the same step. */
  lemma AssignLeavesOtherKeys(local: GroupSettings, prior: seq<PriorStep>, groupName: string, settingName: string,
                              value: StoredValue, g: string, s: string, defaultValue: Option<real>)
    requires g != groupName || s != settingName
    ensures Resolve(AssignSetting(local, prior, groupName, settingName, value), prior, g, s, defaultValue) ==
            Resolve(local, prior, g, s, defaultValue)
  {
  }

  /**
   * Passing something other than a float to a setter pins the value the key
   * currently resolves to as a local value: the value read does not change.
   */
  lemma NonFloatPinsResolvedValue(local: GroupSettings, prior: seq<PriorStep>, groupName: string,
                                  settingName: string, defaultValue: real)
    ensures var before := Resolve(local, prior, groupName, settingName, Some(defaultValue));
            var r := AssignSetting(local, prior, groupName, settingName, Some(before.value.value));
            Resolve(r, prior, groupName, settingName, Some(defaultValue)) ==
            Resolution(before.value, SetValue, before.inheritable)
  {
    var before := Resolve(local, prior, groupName, settingName, Some(defaultValue));
    AssignedValueReadsBack(local, prior, groupName, settingName, Some(defaultValue), before.value.value);
  }

  // ---------------------------------------------------------------------
  // Ranges kept by the public setters
  // ---------------------------------------------------------------------

  /** lo <= x, and x <= hi when there is an upper bound. */
  predicate InRange(x: real, lo: real, hi: Option<real>) {
    lo <= x && (hi.Some? ==> x <= hi.value)
  }

  /** Every value stored for settingName in this store lies in the range. */
  ghost predicate StoredInRange(store: GroupSettings, settingName: string, lo: real, hi: Option<real>) {
    forall g :: g in store && settingName in store[g] && store[g][settingName].Some? ==>
      InRange(store[g][settingName].value, lo, hi)
  }

  /** Every configuration step in `prior` stores values for settingName in the range only. */
  ghost predicate PriorInRange(prior: seq<PriorStep>, settingName: string, lo: real, hi: Option<real>) {
    forall k :: 0 <= k < |prior| && prior[k].ConfigStep? ==> StoredInRange(prior[k].groupSettings, settingName, lo, hi)
  }

  /** An inherited value comes from some earlier store, so it lies in their common range. */
  lemma {:induction false} InheritedInRange(prior: seq<PriorStep>, groupName: string, settingName: string,
                                            lo: real, hi: Option<real>)
    requires PriorInRange(prior, settingName, lo, hi)
    ensures var v := InheritedValue(prior, groupName, settingName); v.Some? ==> InRange(v.value, lo, hi)
    decreases |prior|
  {
    var index := InheritConfigIndex(prior);
    if index.Some? {
      var j := index.value;
      var earlier := prior[..j];
      assert forall m :: 0 <= m < j ==> earlier[m] == prior[m];
      InheritedInRange(earlier, groupName, settingName, lo, hi);
    }
  }

  /** With every store and the default in range, the value read is in range. */
  lemma ResolvedInRange(local: GroupSettings, prior: seq<PriorStep>, groupName: string, settingName: string,
                        defaultValue: real, lo: real, hi: Option<real>)
    requires StoredInRange(local, settingName, lo, hi)
    requires PriorInRange(prior, settingName, lo, hi)
    requires InRange(defaultValue, lo, hi)
    ensures InRange(Resolve(local, prior, groupName, settingName, Some(defaultValue)).value.value, lo, hi)
  {
    InheritedInRange(prior, groupName, settingName, lo, hi);
  }

  /** Storing an in-range value or a reset keeps the store's values for that setting in range. */
  lemma AssignKeepsRange(local: GroupSettings, prior: seq<PriorStep>, groupName: string, settingName: string,
                         value: StoredValue, lo: real, hi: Option<real>)
    requires StoredInRange(local, settingName, lo, hi)
    requires value.Some? ==> InRange(value.value, lo, hi)
    ensures StoredInRange(AssignSetting(local, prior, groupName, settingName, value), settingName, lo, hi)
  {
    var r: GroupSettings := AssignSetting(local, prior, groupName, settingName, value);
    forall g: string | g in r && settingName in r[g] && r[g][settingName].Some?
      ensures InRange(r[g][settingName].value, lo, hi)
    {
      assert Lookup(r, g, settingName) == Some(r[g][settingName]);
      if g != groupName {
        assert Lookup(local, g, settingName) == Some(r[g][settingName]);
      }
    }
  }

  /**
   * The data proportion setter keeps every stored proportion in [0, 1] when
   * earlier steps do, whatever argument it is given.
   */
  lemma ProportionSetterKeepsRange(local: GroupSettings, prior: seq<PriorStep>, groupName: string,
                                   input: SettingInput)
    requires StoredInRange(local, DataProportion, 0.0, Some(1.0))
    requires PriorInRange(prior, DataProportion, 0.0, Some(1.0))
    ensures var current := Resolve(local, prior, groupName, DataProportion, Some(1.0)).value.value;
            var r := AssignSetting(local, prior, groupName, DataProportion, ProportionArgument(input, current));
            StoredInRange(r, DataProportion, 0.0, Some(1.0))
  {
    var current := Resolve(local, prior, groupName, DataProportion, Some(1.0)).value.value;
    ResolvedInRange(local, prior, groupName, DataProportion, 1.0, 0.0, Some(1.0));
    AssignKeepsRange(local, prior, groupName, DataProportion, ProportionArgument(input, current), 0.0, Some(1.0));
  }

  /**
   * The data weight setter keeps every stored weight non-negative when
   * earlier steps do, whatever argument it is given.
   */
  lemma WeightSetterKeepsRange(local: GroupSettings, prior: seq<PriorStep>, groupName: string,
                               input: SettingInput)
    requires StoredInRange(local, DataWeight, 0.0, None)
    requires PriorInRange(prior, DataWeight, 0.0, None)
    ensures var current := Resolve(local, prior, groupName, DataWeight, Some(1.0)).value.value;
            var r := AssignSetting(local, prior, groupName, DataWeight, WeightArgument(input, current));
            StoredInRange(r, DataWeight, 0.0, None)
  {
    var current := Resolve(local, prior, groupName, DataWeight, Some(1.0)).value.value;
    ResolvedInRange(local, prior, groupName, DataWeight, 1.0, 0.0, None);
    AssignKeepsRange(local, prior, groupName, DataWeight, WeightArgument(input, current), 0.0, None);
  }
}
