/**
 * The configuration step: per-group data proportion and data weight
 * settings that later configuration steps inherit, and the flag asking for
 * group data to be projected about the centre of the group.
 */
module StepConfig {
  import opened GroupSettingsStore
  import opened SettingResolver
  import opened SettingsDict
  import opened FitterSteps

  const ConfigTypeId: string := "_FitterStepConfig"
  const GroupSettingsKey: string := "groupSettings"
  const ProjectionCentreGroupsKey: string := "projectionCentreGroups"

  /** The defaults a public getter falls back to when nothing is set. */
  const DefaultDataProportion: real := 1.0
  const DefaultDataWeight: real := 1.0

  /** Everything a configuration step encodes. */
  datatype ConfigSettings = ConfigSettings(groupSettings: GroupSettings, projectionCentreGroups: bool)

  /** The settings dict of a configuration step, marked with its type id. */
  function EncodeConfig(settings: ConfigSettings): (d: Dict)
    ensures d.Keys == {ConfigTypeId, GroupSettingsKey, ProjectionCentreGroupsKey}
    ensures d[ConfigTypeId] == Bool(true)
    ensures d[GroupSettingsKey].Groups? && d[ProjectionCentreGroupsKey].Bool?
  {
    map[
      ConfigTypeId := Bool(true),
      GroupSettingsKey := Groups(settings.groupSettings),
      ProjectionCentreGroupsKey := Bool(settings.projectionCentreGroups)
    ]
  }

  /**
   * Decodes `dctIn` over the current settings: the type id must be present,
   * keys missing from the input keep their current values.
   */
  function DecodeConfig(current: ConfigSettings, dctIn: Dict): (r: Result<ConfigSettings>)
    ensures r.Failure? <==>
      || ConfigTypeId !in dctIn
      || (GroupSettingsKey in dctIn && !dctIn[GroupSettingsKey].Groups?)
      || (ProjectionCentreGroupsKey in dctIn && !dctIn[ProjectionCentreGroupsKey].Bool?)
    ensures ConfigTypeId !in dctIn ==> r == Failure(MissingTypeId(ConfigTypeId))
    ensures r.Success? ==>
      r.value.groupSettings ==
        if GroupSettingsKey in dctIn then dctIn[GroupSettingsKey].groups else current.groupSettings
    ensures r.Success? ==>
      r.value.projectionCentreGroups ==
        if ProjectionCentreGroupsKey in dctIn then dctIn[ProjectionCentreGroupsKey].b
        else current.projectionCentreGroups
  {
    if ConfigTypeId !in dctIn then
      Failure(MissingTypeId(ConfigTypeId))
    else
      var dct := Overlay(EncodeConfig(current), dctIn);
      if !dct[GroupSettingsKey].Groups? then
        Failure(WrongType(GroupSettingsKey))
      else if !dct[ProjectionCentreGroupsKey].Bool? then
        Failure(WrongType(ProjectionCentreGroupsKey))
      else
        Success(ConfigSettings(dct[GroupSettingsKey].groups, dct[ProjectionCentreGroupsKey].b))
  }

  /**
   * Decoding a configuration step's encoding into any configuration step
   * reproduces the encoded settings, reset markers included.
   */
  lemma DecodeEncodeConfig(current: ConfigSettings, settings: ConfigSettings)
    ensures DecodeConfig(current, EncodeConfig(settings)) == Success(settings)
  {
  }

  class FitterStepConfig {
    /** The state shared with every fitter step. */
    const base: FitterStep
    var groupSettings: GroupSettings
    var projectionCentreGroups: bool

    /** A new configuration step holds no group settings and does not centre groups. */
    constructor ()
      ensures fresh(base) && base.fitter == null && !base.hasRun
      ensures groupSettings == map[] && !projectionCentreGroups
    {
      base := new FitterStep();
      groupSettings := map[];
      projectionCentreGroups := false;
    }

    function Settings(): ConfigSettings
      reads this
    {
      ConfigSettings(groupSettings, projectionCentreGroups)
    }

    method Encode() returns (dct: Dict)
      ensures dct == EncodeConfig(Settings())
      ensures dct[ConfigTypeId] == Bool(true)
    {
      dct := EncodeConfig(Settings());
    }

    /** Decodes `dctIn` over the current settings; on an error nothing changes. */
    method Decode(dctIn: Dict) returns (error: Option<DecodeError>)
      modifies this`groupSettings, this`projectionCentreGroups
      ensures var r := DecodeConfig(old(Settings()), dctIn);
              && (r.Success? ==> error.None? && Settings() == r.value)
              && (r.Failure? ==> error == Some(r.error) && Settings() == old(Settings()))
    {
      if ConfigTypeId !in dctIn {
        return Some(MissingTypeId(ConfigTypeId));
      }
      var dct := Encode();
      dct := Overlay(dct, dctIn);
      if !dct[GroupSettingsKey].Groups? {
        return Some(WrongType(GroupSettingsKey));
      }
      if !dct[ProjectionCentreGroupsKey].Bool? {
        return Some(WrongType(ProjectionCentreGroupsKey));
      }
      groupSettings := dct[GroupSettingsKey].groups;
      projectionCentreGroups := dct[ProjectionCentreGroupsKey].b;
      error := None;
    }

    /**
     * The names of the groups this step holds settings for: the groups of
     * the store, which are the groups holding some setting while no group
     * entry is empty.
     */
    function GetGroupSettingsNames(): (names: set<string>)
      reads this
      ensures forall g :: g in names <==> g in groupSettings
      ensures NoEmptyGroups(groupSettings) ==>
        forall g :: g in names <==> exists s :: Lookup(groupSettings, g, s).Some?
    {
      assert NoEmptyGroups(groupSettings) ==>
        forall g :: g in GroupNames(groupSettings) <==> exists s :: Lookup(groupSettings, g, s).Some?
      by {
        if NoEmptyGroups(groupSettings) {
          forall g {
            ListedGroupHoldsASetting(groupSettings, g);
          }
        }
      }
      GroupNames(groupSettings)
    }

    /** Clears all local settings of one group. */
    method ClearGroupSettings(groupName: string)
      modifies this`groupSettings
      ensures groupSettings == RemoveGroup(old(groupSettings), groupName)
      ensures NoEmptyGroups(old(groupSettings)) ==> NoEmptyGroups(groupSettings)
    {
      if groupName in groupSettings {
        groupSettings := groupSettings - {groupName};
      }
    }

    /** Clears one setting of a group, dropping the group once it holds nothing. */
    method ClearGroupSetting(groupName: string, settingName: string)
      modifies this`groupSettings
      ensures groupSettings == Remove(old(groupSettings), groupName, settingName)
      ensures NoEmptyGroups(old(groupSettings)) ==> NoEmptyGroups(groupSettings)
    {
      if groupName in groupSettings && groupSettings[groupName] != map[] {
        var groupMap := groupSettings[groupName];
        groupMap := groupMap - {settingName};
        if |groupMap| == 0 {
          groupSettings := groupSettings - {groupName};
        } else {
          groupSettings := groupSettings[groupName := groupMap];
        }
      }
    }

    /**
     * Stores a value, or None to reset. The reset marker is kept only when
     * the nearest earlier configuration step resolves the key to a value;
     * otherwise the key is cleared.
     */
    method SetGroupSetting(prior: seq<PriorStep>, groupName: string, settingName: string, value: StoredValue)
      requires value.None? ==> base.fitter != null
      modifies this`groupSettings
      ensures groupSettings == AssignSetting(old(groupSettings), prior, groupName, settingName, value)
      ensures NoEmptyGroups(old(groupSettings)) ==> NoEmptyGroups(groupSettings)
    {
      var groupMap := if groupName in groupSettings && groupSettings[groupName] != map[]
        then groupSettings[groupName] else map[];
      groupSettings := groupSettings[groupName := groupMap[settingName := value]];
      if value.None? {
        var inherit := InheritConfigIndex(prior);
        if inherit.None? ||
           Resolve(prior[inherit.value].groupSettings, prior[..inherit.value], groupName, settingName, None).value.None?
        {
          ClearGroupSetting(groupName, settingName);
        }
      }
    }

    method ClearGroupDataProportion(groupName: string)
      modifies this`groupSettings
      ensures groupSettings == Remove(old(groupSettings), groupName, DataProportion)
    {
      ClearGroupSetting(groupName, DataProportion);
    }

    /**
     * The proportion of the group's data points to include, with the flags
     * saying where it is set. It lies in [0, 1] whenever every stored
     * proportion does.
     */
    function GetGroupDataProportion(prior: seq<PriorStep>, groupName: string): (r: Resolution)
      requires base.fitter != null
      reads this, base
      ensures r.value.Some?
      ensures StoredInRange(groupSettings, DataProportion, 0.0, Some(1.0)) &&
              PriorInRange(prior, DataProportion, 0.0, Some(1.0)) ==>
              0.0 <= r.value.value <= 1.0
    {
      var r := Resolve(groupSettings, prior, groupName, DataProportion, Some(DefaultDataProportion));
      assert StoredInRange(groupSettings, DataProportion, 0.0, Some(1.0)) &&
             PriorInRange(prior, DataProportion, 0.0, Some(1.0)) ==>
             InRange(r.value.value, 0.0, Some(1.0))
      by {
        if StoredInRange(groupSettings, DataProportion, 0.0, Some(1.0)) &&
           PriorInRange(prior, DataProportion, 0.0, Some(1.0)) {
          ResolvedInRange(groupSettings, prior, groupName, DataProportion, DefaultDataProportion, 0.0, Some(1.0));
        }
      }
      r
    }

    /**
     * Sets the group's data proportion: a float is clamped into [0, 1], None
     * resets, anything else stores the proportion currently read.
     */
    method SetGroupDataProportion(prior: seq<PriorStep>, groupName: string, proportion: SettingInput)
      requires !proportion.FloatInput? ==> base.fitter != null
      modifies this`groupSettings
      ensures groupSettings == AssignSetting(old(groupSettings), prior, groupName, DataProportion,
        ProportionArgument(proportion,
          Resolve(old(groupSettings), prior, groupName, DataProportion, Some(DefaultDataProportion)).value.value))
      ensures StoredInRange(old(groupSettings), DataProportion, 0.0, Some(1.0)) &&
              PriorInRange(prior, DataProportion, 0.0, Some(1.0)) ==>
              StoredInRange(groupSettings, DataProportion, 0.0, Some(1.0))
    {
      // Only a non-float argument reads the current proportion.
      var current := if proportion.NonFloatInput? then GetGroupDataProportion(prior, groupName).value.value else 0.0;
      SetGroupSetting(prior, groupName, DataProportion, ProportionArgument(proportion, current));
      if StoredInRange(old(groupSettings), DataProportion, 0.0, Some(1.0)) &&
         PriorInRange(prior, DataProportion, 0.0, Some(1.0)) {
        ProportionSetterKeepsRange(old(groupSettings), prior, groupName, proportion);
      }
    }

    method ClearGroupDataWeight(groupName: string)
      modifies this`groupSettings
      ensures groupSettings == Remove(old(groupSettings), groupName, DataWeight)
    {
      ClearGroupSetting(groupName, DataWeight);
    }

    /**
     * The weight of the group's data points, with the flags saying where it
     * is set. It is non-negative whenever every stored weight and the
     * default are.
     */
    function GetGroupDataWeight(prior: seq<PriorStep>, groupName: string, defaultDataWeight: real): (r: Resolution)
      requires base.fitter != null
      reads this, base
      ensures r.value.Some?
      ensures StoredInRange(groupSettings, DataWeight, 0.0, None) &&
              PriorInRange(prior, DataWeight, 0.0, None) && 0.0 <= defaultDataWeight ==>
              0.0 <= r.value.value
    {
      var r := Resolve(groupSettings, prior, groupName, DataWeight, Some(defaultDataWeight));
      assert StoredInRange(groupSettings, DataWeight, 0.0, None) && PriorInRange(prior, DataWeight, 0.0, None) &&
             0.0 <= defaultDataWeight ==>
             InRange(r.value.value, 0.0, None)
      by {
        if StoredInRange(groupSettings, DataWeight, 0.0, None) && PriorInRange(prior, DataWeight, 0.0, None) &&
           0.0 <= defaultDataWeight {
          ResolvedInRange(groupSettings, prior, groupName, DataWeight, defaultDataWeight, 0.0, None);
        }
      }
      r
    }

    /**
     * Sets the group's data weight: a negative float becomes 0, None resets,
     * anything else stores the weight currently read with the default 1.0.
     */
    method SetGroupDataWeight(prior: seq<PriorStep>, groupName: string, weight: SettingInput)
      requires !weight.FloatInput? ==> base.fitter != null
      modifies this`groupSettings
      ensures groupSettings == AssignSetting(old(groupSettings), prior, groupName, DataWeight,
        WeightArgument(weight,
          Resolve(old(groupSettings), prior, groupName, DataWeight, Some(DefaultDataWeight)).value.value))
      ensures StoredInRange(old(groupSettings), DataWeight, 0.0, None) &&
              PriorInRange(prior, DataWeight, 0.0, None) ==>
              StoredInRange(groupSettings, DataWeight, 0.0, None)
    {
      // Only a non-float argument reads the current weight.
      var current := if weight.NonFloatInput? then GetGroupDataWeight(prior, groupName, DefaultDataWeight).value.value else 0.0;
      SetGroupSetting(prior, groupName, DataWeight, WeightArgument(weight, current));
      if StoredInRange(old(groupSettings), DataWeight, 0.0, None) && PriorInRange(prior, DataWeight, 0.0, None) {
        WeightSetterKeepsRange(old(groupSettings), prior, groupName, weight);
      }
    }

    /** Whether group data is projected about the group's centre, as the step encodes it. */
    function IsProjectionCentreGroups(): (b: bool)
      reads this
      ensures EncodeConfig(Settings())[ProjectionCentreGroupsKey] == Bool(b)
    {
      projectionCentreGroups
    }

    /** Sets the flag and reports whether it changed. */
    method SetProjectionCentreGroups(b: bool) returns (changed: bool)
      modifies this`projectionCentreGroups
      ensures changed == (b != old(projectionCentreGroups))
      ensures IsProjectionCentreGroups() == b
    {
      if b != projectionCentreGroups {
        projectionCentreGroups := b;
        return true;
      }
      return false;
    }

    /** Running the step marks it as run; the projections it computes are not modelled. */
    method Run()
      requires base.fitter != null
      modifies base`hasRun
      ensures base.HasRun()
    {
      base.SetHasRun(true);
    }
  }
}
