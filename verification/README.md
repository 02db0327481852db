# scaffoldfitter step settings, modelled in Dafny

scaffoldfitter fits a scaffold model to scanned data through an ordered
sequence of fitter steps. This project models the settings those steps hold.

The core is the configuration step (`FitterStepConfig`). It holds per-group
settings, the data proportion and the data weight. The group settings are a
map from group name to a map from setting name to a stored value. A key is in
one of three states:

- unset;
- holding a value;
- holding an explicit reset (None).

Reading a key gives the triple (value, setLocally, inheritable):

- A local value wins.
- A local reset gives the caller's default.
- An unset key takes the value that the nearest earlier configuration step
  resolves to, or else the default. That earlier step applies the same rule,
  so inheritance passes through unset steps and stops at a value or a reset.

Writing None keeps a reset marker only where something would otherwise be
inherited. In every other case it clears the key.

Beside the configuration step the project models two smaller pieces:

- the fit step (`FitterStepFit`): eight scalar settings, setters that report
  whether anything changed, and encode/decode to a settings dict;
- the state every step shares (`FitterStep`): the owning fitter and the
  "has run" flag.

Modules, one per file:

- `store.dfy`, `GroupSettingsStore`: the nested map, with lookup, store,
  remove-key and remove-group.
- `resolver.dfy`, `SettingResolver`: the inheritance lookup, the recursive
  read, the write with its reset-or-clear rule, the input checks of the
  public setters, and the lemmas about them.
- `codec.dfy`, `SettingsDict`: the settings dict that steps encode to and
  decode from.
- `fitter_step.dfy`, `FitterSteps`: the `FitterStep` class and an opaque
  `Fitter`.
- `fitter_step_config.dfy`, `StepConfig`: the `FitterStepConfig` class,
  whose methods update `groupSettings` and `projectionCentreGroups` in place.
- `fitter_step_fit.dfy`, `StepFit`: the `FitterStepFit` class.

Modelling choices:

- The fitter is not part of this model. It owns the step list and has
  `getInheritFitterStepConfig`. Each read or write of a configuration step
  takes the steps before it as a parameter `prior`, a sequence of values
  tagged `ConfigStep(groupSettings)` or `OtherStep`. The inheritance lookup
  is a backward scan for the nearest `ConfigStep`, so the recursive read
  terminates on the length of `prior`.
- Python's `isinstance(x, float)` test on setter arguments becomes the
  datatype `SettingInput = NoneInput | FloatInput(x) | NonFloatInput`.
- `FitterStepConfig` and `FitterStepFit` extend `FitterStep` in the source.
  Here each holds its shared step state as a `const base: FitterStep`.
- Decoding a dict that lacks the step's type id is an error result, and the
  state is left unchanged.

Two points about the code's behaviour are easy to get wrong:

- Inheritance is transitive. `_getGroupSetting` calls itself on the earlier
  configuration step (`src/scaffoldfitter/fitterstepconfig.py:105-107`), and
  the test at `tests/test_fitcube.py:527` reads a value through two steps.
  The code does not stop after one hop at the earlier step's raw store.
- This code has no default-group fallback and no list-valued settings, so
  neither is modelled.

## Model

| member | source | states |
|---|---|---|
| GroupSettingsStore.Lookup | src/scaffoldfitter/fitterstepconfig.py:100-104 | a key is present exactly when its group holds the setting, and the entry is the stored value, with a reset read as None |
| GroupSettingsStore.Put | src/scaffoldfitter/fitterstepconfig.py:124-127 | the key reads back as the stored value; every other key is unchanged; the group is listed; no empty group is created |
| GroupSettingsStore.Remove | src/scaffoldfitter/fitterstepconfig.py:73-83 | the key is absent afterwards and every other key is unchanged; it is a no-op when the key is absent; the group entry goes exactly when it held only this key; no empty group is left behind |
| GroupSettingsStore.RemoveGroup | src/scaffoldfitter/fitterstepconfig.py:65-71 | the group and all of its keys are gone, and every other group is unchanged |
| GroupSettingsStore.GroupNames | src/scaffoldfitter/fitterstepconfig.py:59-63 | the names listed are the groups with an entry in the store; that these are the groups holding a setting is `ListedGroupHoldsASetting` |
| GroupSettingsStore.ListedGroupHoldsASetting | src/scaffoldfitter/fitterstepconfig.py:59-63 | when no group is empty, a group is listed by name exactly when it holds some setting |
| SettingResolver.InheritConfigIndex | src/scaffoldfitter/fitterstepconfig.py:105-106 | the step inherited from is the last configuration step before this one; when there is none, no earlier step is a configuration step |
| SettingResolver.Resolve | src/scaffoldfitter/fitterstepconfig.py:85-114 | a read with a default always yields a value |
| SettingResolver.InheritedValue | src/scaffoldfitter/fitterstepconfig.py:105-107 | a value is inherited only when some earlier configuration step stores exactly that value under the key; `InheritedFromNearestEntry` pins down which step |
| SettingResolver.DefaultOnlyFillsAbsentValue | src/scaffoldfitter/fitterstepconfig.py:112-113 | a read with default d gives the no-default read's value, or d when that value is None; the two flags do not depend on the default |
| SettingResolver.LocalValueWins | src/scaffoldfitter/fitterstepconfig.py:100-110 | a locally stored v reads as (v, SetValue, inheritable), whatever earlier steps hold |
| SettingResolver.ResetGivesDefault | src/scaffoldfitter/fitterstepconfig.py:102-113 | a local reset reads as (default, Reset, inheritable); the inherited value is ignored |
| SettingResolver.UnsetInherits | src/scaffoldfitter/fitterstepconfig.py:105-113 | an unset key reads as the inherited value, or the default when nothing is inherited, with NotSet; inheritable holds exactly when the nearest earlier configuration step resolves to a value |
| SettingResolver.NoEarlierConfig | src/scaffoldfitter/fitterstepconfig.py:105-113 | with no earlier configuration step, an unset key reads as (default, NotSet, false) |
| SettingResolver.InheritedFromNearestEntry | src/scaffoldfitter/fitterstepconfig.py:105-107 | the inherited value is the entry of the nearest earlier configuration step that holds the key; steps that leave it unset are passed through; a reset there blocks inheritance |
| SettingResolver.InheritedWithoutEntry | src/scaffoldfitter/fitterstepconfig.py:105-107 | when no earlier configuration step holds the key, nothing is inherited |
| SettingResolver.ThreeConfigScenario | tests/test_fitcube.py:453-528 | the test's three steps: "sides" reaches step 3 through step 2; step 2's reset of "top" reads (1.0, Reset, true); step 3 then reads "top" as (1.0, NotSet, false) |
| SettingResolver.AssignSetting | src/scaffoldfitter/fitterstepconfig.py:116-132 | a value is stored under the key; None becomes a reset marker when something is inherited and leaves the key absent otherwise; every other key is unchanged; no empty group is left |
| SettingResolver.AssignedValueReadsBack | src/scaffoldfitter/fitterstepconfig.py:116-127 | after storing v, the key reads as (v, SetValue, inheritable) and its group is listed |
| SettingResolver.ResetOverInheritedValue | src/scaffoldfitter/fitterstepconfig.py:128-132 | setting None over an inherited value stores the reset marker, and the key reads as (default, Reset, true) |
| SettingResolver.ResetWithNothingInheritedClears | src/scaffoldfitter/fitterstepconfig.py:128-132 | setting None when nothing is inherited is the same as clearing the key, and it then reads as (default, NotSet, false) |
| SettingResolver.ClearedKeyInherits | src/scaffoldfitter/fitterstepconfig.py:73-83 | a cleared key falls back to the inherited value or the default, with NotSet |
| SettingResolver.AssignLeavesOtherKeys | src/scaffoldfitter/fitterstepconfig.py:116-132 | writing one key changes how no other key of the step reads |
| SettingResolver.ProportionArgument | src/scaffoldfitter/fitterstepconfig.py:162-168 | a float proportion is clamped into [0, 1] and kept when already inside it; None stays a reset; any other argument becomes the proportion currently read |
| SettingResolver.WeightArgument | src/scaffoldfitter/fitterstepconfig.py:200-204 | a negative float weight becomes 0 and any other float is kept; None stays a reset; any other argument becomes the weight currently read |
| SettingResolver.NonFloatPinsResolvedValue | src/scaffoldfitter/fitterstepconfig.py:162-163 | storing the current value for a non-float argument leaves the value read unchanged and makes it SetValue |
| SettingResolver.InheritedInRange | src/scaffoldfitter/fitterstepconfig.py:105-107 | when every earlier store keeps a setting in a range, any inherited value lies in that range |
| SettingResolver.ResolvedInRange | src/scaffoldfitter/fitterstepconfig.py:85-114 | when the stores and the default lie in a range, so does the value read |
| SettingResolver.AssignKeepsRange | src/scaffoldfitter/fitterstepconfig.py:116-132 | storing an in-range value or a reset keeps the store's values for that setting in range |
| SettingResolver.ProportionSetterKeepsRange | src/scaffoldfitter/fitterstepconfig.py:154-169 | whatever its argument, the proportion setter keeps every stored proportion in [0, 1], given that earlier steps do too |
| SettingResolver.WeightSetterKeepsRange | src/scaffoldfitter/fitterstepconfig.py:192-205 | whatever its argument, the weight setter keeps every stored weight non-negative, given that earlier steps do too |
| SettingsDict.Overlay | src/scaffoldfitter/fitterstepconfig.py:43-44 | keys of the input win; keys missing from it keep their current values |
| StepConfig.EncodeConfig | src/scaffoldfitter/fitterstepconfig.py:48-57 | the dict has exactly the type id, set to true, the group settings and the projection flag; `DecodeEncodeConfig` inverts it |
| StepConfig.DecodeConfig | src/scaffoldfitter/fitterstepconfig.py:37-46 | decoding fails exactly when the type id is missing or a value has the wrong type; otherwise each setting takes the input's value when present, else keeps its current value |
| StepConfig.DecodeEncodeConfig | src/scaffoldfitter/fitterstepconfig.py:37-57 | decoding an encoding reproduces the group settings, reset markers included, and the projection flag |
| StepConfig.FitterStepConfig.constructor | src/scaffoldfitter/fitterstepconfig.py:12-31 | a new step has no group settings, does not centre groups, belongs to no fitter and has not run |
| StepConfig.FitterStepConfig.Encode | src/scaffoldfitter/fitterstepconfig.py:48-57 | the dict holds the type id set to true, the group settings and the projection flag |
| StepConfig.FitterStepConfig.Decode | src/scaffoldfitter/fitterstepconfig.py:37-46 | the new state is the decoded settings; on an error, the error is returned and nothing changes |
| StepConfig.FitterStepConfig.GetGroupSettingsNames | src/scaffoldfitter/fitterstepconfig.py:59-63 | the names are the groups of the store; when no group entry is empty, exactly the groups that hold some setting |
| StepConfig.FitterStepConfig.ClearGroupSettings | src/scaffoldfitter/fitterstepconfig.py:65-71 | the group's entry is dropped; no empty group is left |
| StepConfig.FitterStepConfig.ClearGroupSetting | src/scaffoldfitter/fitterstepconfig.py:73-83 | the store becomes `Remove` of the old store; no empty group is left |
| StepConfig.FitterStepConfig.SetGroupSetting | src/scaffoldfitter/fitterstepconfig.py:116-132 | the store becomes `AssignSetting` of the old store; no empty group is left |
| StepConfig.FitterStepConfig.ClearGroupDataProportion | src/scaffoldfitter/fitterstepconfig.py:134-139 | the dataProportion key of the group is removed |
| StepConfig.FitterStepConfig.GetGroupDataProportion | src/scaffoldfitter/fitterstepconfig.py:141-152 | the read always has a value, and it lies in [0, 1] when every stored proportion does |
| StepConfig.FitterStepConfig.SetGroupDataProportion | src/scaffoldfitter/fitterstepconfig.py:154-169 | stores the checked argument through `AssignSetting` and keeps every stored proportion in [0, 1] |
| StepConfig.FitterStepConfig.ClearGroupDataWeight | src/scaffoldfitter/fitterstepconfig.py:171-176 | the dataWeight key of the group is removed |
| StepConfig.FitterStepConfig.GetGroupDataWeight | src/scaffoldfitter/fitterstepconfig.py:178-190 | the read always has a value, and it is non-negative when every stored weight and the default are |
| StepConfig.FitterStepConfig.SetGroupDataWeight | src/scaffoldfitter/fitterstepconfig.py:192-205 | stores the checked argument through `AssignSetting` and keeps every stored weight non-negative |
| StepConfig.FitterStepConfig.IsProjectionCentreGroups | src/scaffoldfitter/fitterstepconfig.py:207-208 | the flag read is the one the step encodes |
| StepConfig.FitterStepConfig.SetProjectionCentreGroups | src/scaffoldfitter/fitterstepconfig.py:210-220 | returns true exactly when the flag changes, and the flag is then the argument |
| StepConfig.FitterStepConfig.Run | src/scaffoldfitter/fitterstepconfig.py:222-230 | the step is marked as run |
| StepFit.EncodeFit | src/scaffoldfitter/fitterstepfit.py:48-63 | the dict holds the type id set to true plus exactly the eight setting keys |
| StepFit.DecodeFit | src/scaffoldfitter/fitterstepfit.py:31-46 | a missing type id is an error; any other error names a setting key |
| StepFit.DecodeFitFailsOnlyOnBadInput | src/scaffoldfitter/fitterstepfit.py:35-46 | decoding succeeds exactly when the type id is present and every setting key in the input holds a value of its setting's type |
| StepFit.DecodeFitOverlays | src/scaffoldfitter/fitterstepfit.py:37-46 | each decoded setting takes the input's value when present, else keeps its current value |
| StepFit.DecodeEncodeFit | src/scaffoldfitter/fitterstepfit.py:31-63 | decoding an encoding reproduces all eight settings |
| StepFit.FitterStepFit.constructor | src/scaffoldfitter/fitterstepfit.py:16-25 | defaults: line weight 10.0, marker weight 1.0, strain, curvature and edge penalties 0.0, one iteration, one sub-iteration, no reference-state update |
| StepFit.FitterStepFit.Encode | src/scaffoldfitter/fitterstepfit.py:48-63 | the dict is the encoding of the current eight settings |
| StepFit.FitterStepFit.Decode | src/scaffoldfitter/fitterstepfit.py:31-46 | the new settings are the decoded ones; on an error, the error is returned and nothing changes |
| StepFit.FitterStepFit.GetLineWeight | src/scaffoldfitter/fitterstepfit.py:65-66 | the line weight read is the one the step encodes |
| StepFit.FitterStepFit.SetLineWeight | src/scaffoldfitter/fitterstepfit.py:68-73 | requires weight >= 0; returns true exactly when the value changes; afterwards the getter gives the weight; only this field may change |
| StepFit.FitterStepFit.GetMarkerWeight | src/scaffoldfitter/fitterstepfit.py:75-76 | the marker weight read is the one the step encodes |
| StepFit.FitterStepFit.SetMarkerWeight | src/scaffoldfitter/fitterstepfit.py:78-83 | same as the line weight setter, for the marker weight |
| StepFit.FitterStepFit.GetStrainPenaltyWeight | src/scaffoldfitter/fitterstepfit.py:85-86 | the strain penalty weight read is the one the step encodes |
| StepFit.FitterStepFit.SetStrainPenaltyWeight | src/scaffoldfitter/fitterstepfit.py:88-93 | same as the line weight setter, for the strain penalty |
| StepFit.FitterStepFit.GetCurvaturePenaltyWeight | src/scaffoldfitter/fitterstepfit.py:95-96 | the curvature penalty weight read is the one the step encodes |
| StepFit.FitterStepFit.SetCurvaturePenaltyWeight | src/scaffoldfitter/fitterstepfit.py:98-103 | same as the line weight setter, for the curvature penalty |
| StepFit.FitterStepFit.GetEdgeDiscontinuityPenaltyWeight | src/scaffoldfitter/fitterstepfit.py:105-106 | the edge discontinuity penalty weight read is the one the step encodes |
| StepFit.FitterStepFit.SetEdgeDiscontinuityPenaltyWeight | src/scaffoldfitter/fitterstepfit.py:108-113 | same as the line weight setter, for the edge discontinuity penalty |
| StepFit.FitterStepFit.GetNumberOfIterations | src/scaffoldfitter/fitterstepfit.py:115-116 | the number of iterations read is the one the step encodes |
| StepFit.FitterStepFit.SetNumberOfIterations | src/scaffoldfitter/fitterstepfit.py:118-123 | requires a count > 0; returns true exactly when the value changes; only this field may change |
| StepFit.FitterStepFit.GetMaximumSubIterations | src/scaffoldfitter/fitterstepfit.py:125-126 | the maximum number of sub-iterations read is the one the step encodes |
| StepFit.FitterStepFit.SetMaximumSubIterations | src/scaffoldfitter/fitterstepfit.py:128-133 | requires a count > 0; returns true exactly when the value changes; only this field may change |
| StepFit.FitterStepFit.IsUpdateReferenceState | src/scaffoldfitter/fitterstepfit.py:135-136 | the reference-state update flag read is the one the step encodes |
| StepFit.FitterStepFit.SetUpdateReferenceState | src/scaffoldfitter/fitterstepfit.py:138-142 | no precondition; returns true exactly when the flag changes; only this field may change |
| FitterSteps.FitterStep.constructor | src/scaffoldfitter/fitterstep.py:11-16 | a new step belongs to no fitter and has not run |
| FitterSteps.FitterStep.GetFitter | src/scaffoldfitter/fitterstep.py:18-19 | the fitter the step was last given; `SetFitter` states the link |
| FitterSteps.FitterStep.SetFitter | src/scaffoldfitter/fitterstep.py:21-25 | the getter then gives the fitter; only that field may change |
| FitterSteps.FitterStep.HasRun | src/scaffoldfitter/fitterstep.py:27-28 | the flag last set; `SetHasRun` states the link |
| FitterSteps.FitterStep.SetHasRun | src/scaffoldfitter/fitterstep.py:30-31 | the flag is then the argument; only that field may change |
| FitterSteps.FitterStep.Run | src/scaffoldfitter/fitterstep.py:36-40 | the base run changes nothing |

## Left out

- `fitter.py` is not part of this model. Its `getInheritFitterStepConfig` is
  replaced by the `prior` parameter and a scan for the nearest configuration
  step. `getDiagnosticLevel` and the diagnostics it drives are omitted.
- `FitterStepConfig.run`: the model only sets the "has run" flag. The data
  projections and model output that run asks the fitter for are external.
- `FitterStepFit.run` and the `create*ObjectiveField` methods are omitted.
  They build fields and drive the Zinc optimiser in floating point.
- Floating point: values are Dafny reals, so NaN and rounding are not
  modelled.
- `getGroupSettingsNames` returns a list in insertion order. The model
  returns a set, so the order is lost.
- JSON text (`json.dump`/`json.load`) is omitted. Only the dict is modelled.
- Aliasing: `encode` hands out the live group settings dict, and `decode`
  adopts the caller's dict. The model copies values instead.
- StepConfig.FitterStepConfig.Decode: a dict value of the wrong type is an
  error in the model. Python would store it without checking.
- StepFit.FitterStepFit.Decode: the same applies, including an integer given
  for a weight.
- StepConfig.FitterStepConfig.Decode: unlike the other mutators, it does not
  keep the no-empty-group property. An empty group dict in the input is
  stored as it is, as in Python. Reads and writes then treat that group as
  absent.
- A configuration step that has not been added to a fitter raises in the
  source wherever it asks the fitter for the earlier configuration step.
  The model requires a fitter at those points instead, so the raise and any
  partial write before it are not modelled:
- StepConfig.FitterStepConfig.SetGroupSetting: requires a fitter when the
  value is None. The source stores the None marker first and then raises.
- StepConfig.FitterStepConfig.GetGroupDataProportion: requires a fitter. The
  source raises on a read without one.
- StepConfig.FitterStepConfig.SetGroupDataProportion: requires a fitter for a
  None or non-float argument. The source raises, after storing None for a
  None argument and before storing anything for a non-float one.
- StepConfig.FitterStepConfig.GetGroupDataWeight: requires a fitter, as for
  the proportion read.
- StepConfig.FitterStepConfig.SetGroupDataWeight: requires a fitter for a
  None or non-float argument, as for the proportion setter.
- StepConfig.FitterStepConfig.Run: requires a fitter. The source raises
  without one before marking the step as run.
- `getJsonTypeId` is modelled by the constants `ConfigTypeId` and
  `FitTypeId`.
