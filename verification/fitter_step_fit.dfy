/**
 * The scalar settings of the fit step: the weights of the line data,
 * marker and penalty terms, the iteration counts and whether the reference
 * state is updated after each iteration.
 */
module StepFit {
  import opened GroupSettingsStore
  import opened SettingsDict
  import opened FitterSteps

  const FitTypeId: string := "_FitterStepFit"
  const LineWeightKey: string := "lineWeight"
  const MarkerWeightKey: string := "markerWeight"
  const StrainPenaltyWeightKey: string := "strainPenaltyWeight"
  const CurvaturePenaltyWeightKey: string := "curvaturePenaltyWeight"
  const EdgeDiscontinuityPenaltyWeightKey: string := "edgeDiscontinuityPenaltyWeight"
  const NumberOfIterationsKey: string := "numberOfIterations"
  const MaximumSubIterationsKey: string := "maximumSubIterations"
  const UpdateReferenceStateKey: string := "updateReferenceState"

  /** The eight setting keys of a fit step's dict. */
  const FitKeys: set<string> := {
    LineWeightKey, MarkerWeightKey, StrainPenaltyWeightKey, CurvaturePenaltyWeightKey,
    EdgeDiscontinuityPenaltyWeightKey, NumberOfIterationsKey, MaximumSubIterationsKey, UpdateReferenceStateKey
  }

  datatype FitSettings = FitSettings(
    lineWeight: real,
    markerWeight: real,
    strainPenaltyWeight: real,
    curvaturePenaltyWeight: real,
    edgeDiscontinuityPenaltyWeight: real,
    numberOfIterations: int,
    maximumSubIterations: int,
    updateReferenceState: bool)

  /** The settings of a new fit step. */
  const DefaultFitSettings: FitSettings := FitSettings(10.0, 1.0, 0.0, 0.0, 0.0, 1, 1, false)

  /** The settings dict of a fit step: its type id set to true plus exactly the eight settings. */
  function EncodeFit(s: FitSettings): (d: Dict)
    ensures d.Keys == FitKeys + {FitTypeId}
    ensures d[FitTypeId] == Bool(true)
  {
    map[
      FitTypeId := Bool(true),
      LineWeightKey := Real(s.lineWeight),
      MarkerWeightKey := Real(s.markerWeight),
      StrainPenaltyWeightKey := Real(s.strainPenaltyWeight),
      CurvaturePenaltyWeightKey := Real(s.curvaturePenaltyWeight),
      EdgeDiscontinuityPenaltyWeightKey := Real(s.edgeDiscontinuityPenaltyWeight),
      NumberOfIterationsKey := Int(s.numberOfIterations),
      MaximumSubIterationsKey := Int(s.maximumSubIterations),
      UpdateReferenceStateKey := Bool(s.updateReferenceState)
    ]
  }

  /** Every setting key of `dct` holds a value of its setting's type. */
  predicate WellTyped(dct: Dict)
    requires FitKeys <= dct.Keys
  {
    && dct[LineWeightKey].Real?
    && dct[MarkerWeightKey].Real?
    && dct[StrainPenaltyWeightKey].Real?
    && dct[CurvaturePenaltyWeightKey].Real?
    && dct[EdgeDiscontinuityPenaltyWeightKey].Real?
    && dct[NumberOfIterationsKey].Int?
    && dct[MaximumSubIterationsKey].Int?
    && dct[UpdateReferenceStateKey].Bool?
  }

  /** The first setting key, in encoding order, whose value has the wrong type. */
  function WrongTypeKey(dct: Dict): string
    requires FitKeys <= dct.Keys
  {
    if !dct[LineWeightKey].Real? then LineWeightKey
    else if !dct[MarkerWeightKey].Real? then MarkerWeightKey
    else if !dct[StrainPenaltyWeightKey].Real? then StrainPenaltyWeightKey
    else if !dct[CurvaturePenaltyWeightKey].Real? then CurvaturePenaltyWeightKey
    else if !dct[EdgeDiscontinuityPenaltyWeightKey].Real? then EdgeDiscontinuityPenaltyWeightKey
    else if !dct[NumberOfIterationsKey].Int? then NumberOfIterationsKey
    else if !dct[MaximumSubIterationsKey].Int? then MaximumSubIterationsKey
    else UpdateReferenceStateKey
  }

  /**
   * Decodes `dctIn` over the current settings: the type id must be present,
   * and the input laid over the current encoding must hold a value of the
   * right type under every setting key.
   */
  function DecodeFit(current: FitSettings, dctIn: Dict): (r: Result<FitSettings>)
    ensures FitTypeId !in dctIn ==> r == Failure(MissingTypeId(FitTypeId))
    ensures r.Failure? && FitTypeId in dctIn ==> r.error.WrongType? && r.error.key in FitKeys
  {
    if FitTypeId !in dctIn then
      Failure(MissingTypeId(FitTypeId))
    else
      var dct := Overlay(EncodeFit(current), dctIn);
      if WellTyped(dct) then
        Success(FitSettings(
          dct[LineWeightKey].r,
          dct[MarkerWeightKey].r,
          dct[StrainPenaltyWeightKey].r,
          dct[CurvaturePenaltyWeightKey].r,
          dct[EdgeDiscontinuityPenaltyWeightKey].r,
          dct[NumberOfIterationsKey].i,
          dct[MaximumSubIterationsKey].i,
          dct[UpdateReferenceStateKey].b))
      else
        Failure(WrongType(WrongTypeKey(dct)))
  }

  /**
   * Decoding fails exactly when the type id is missing or the input holds a
   * value of the wrong type under some setting key: reals for the weights,
   * integers for the iteration counts, a boolean for the reference state flag.
   */
  lemma DecodeFitFailsOnlyOnBadInput(current: FitSettings, dctIn: Dict)
    ensures DecodeFit(current, dctIn).Success? <==>
      && FitTypeId in dctIn
      && (LineWeightKey in dctIn ==> dctIn[LineWeightKey].Real?)
      && (MarkerWeightKey in dctIn ==> dctIn[MarkerWeightKey].Real?)
      && (StrainPenaltyWeightKey in dctIn ==> dctIn[StrainPenaltyWeightKey].Real?)
      && (CurvaturePenaltyWeightKey in dctIn ==> dctIn[CurvaturePenaltyWeightKey].Real?)
      && (EdgeDiscontinuityPenaltyWeightKey in dctIn ==> dctIn[EdgeDiscontinuityPenaltyWeightKey].Real?)
      && (NumberOfIterationsKey in dctIn ==> dctIn[NumberOfIterationsKey].Int?)
      && (MaximumSubIterationsKey in dctIn ==> dctIn[MaximumSubIterationsKey].Int?)
      && (UpdateReferenceStateKey in dctIn ==> dctIn[UpdateReferenceStateKey].Bool?)
  {
  }

  /**
   * A successful decode yields the settings whose encoding is the input
   * laid over the current encoding: every setting the input names takes the
   * input's value, every other keeps its current value.
   */
  lemma DecodeFitOverlays(current: FitSettings, dctIn: Dict)
    requires DecodeFit(current, dctIn).Success?
    ensures var enc := EncodeFit(DecodeFit(current, dctIn).value);
            var dct := Overlay(EncodeFit(current), dctIn);
            && enc[LineWeightKey] == dct[LineWeightKey]
            && enc[MarkerWeightKey] == dct[MarkerWeightKey]
            && enc[StrainPenaltyWeightKey] == dct[StrainPenaltyWeightKey]
            && enc[CurvaturePenaltyWeightKey] == dct[CurvaturePenaltyWeightKey]
            && enc[EdgeDiscontinuityPenaltyWeightKey] == dct[EdgeDiscontinuityPenaltyWeightKey]
            && enc[NumberOfIterationsKey] == dct[NumberOfIterationsKey]
            && enc[MaximumSubIterationsKey] == dct[MaximumSubIterationsKey]
            && enc[UpdateReferenceStateKey] == dct[UpdateReferenceStateKey]
  {
  }

  /** Decoding a fit step's encoding into any fit step reproduces its settings. */
  lemma DecodeEncodeFit(current: FitSettings, settings: FitSettings)
    ensures DecodeFit(current, EncodeFit(settings)) == Success(settings)
  {
  }

  class FitterStepFit {
    /** The state shared with every fitter step. */
    const base: FitterStep
    var lineWeight: real
    var markerWeight: real
    var strainPenaltyWeight: real
    var curvaturePenaltyWeight: real
    var edgeDiscontinuityPenaltyWeight: real
    var numberOfIterations: int
    var maximumSubIterations: int
    var updateReferenceState: bool

    /** A new fit step has the default settings, belongs to no fitter and has not run. */
    constructor ()
      ensures fresh(base) && base.fitter == null && !base.hasRun
      ensures Settings() == DefaultFitSettings
    {
      base := new FitterStep();
      lineWeight := 10.0;
      markerWeight := 1.0;
      strainPenaltyWeight := 0.0;
      curvaturePenaltyWeight := 0.0;
      edgeDiscontinuityPenaltyWeight := 0.0;
      numberOfIterations := 1;
      maximumSubIterations := 1;
      updateReferenceState := false;
    }

    function Settings(): FitSettings
      reads this
    {
      FitSettings(lineWeight, markerWeight, strainPenaltyWeight, curvaturePenaltyWeight,
                  edgeDiscontinuityPenaltyWeight, numberOfIterations, maximumSubIterations, updateReferenceState)
    }

    method Encode() returns (dct: Dict)
      ensures dct == EncodeFit(Settings())
    {
      dct := EncodeFit(Settings());
    }

    /** Decodes `dctIn` over the current settings; on an error nothing changes. */
    method Decode(dctIn: Dict) returns (error: Option<DecodeError>)
      modifies this
      ensures var r := DecodeFit(old(Settings()), dctIn);
              && (r.Success? ==> error.None? && Settings() == r.value)
              && (r.Failure? ==> error == Some(r.error) && Settings() == old(Settings()))
    {
      var result := DecodeFit(Settings(), dctIn);
      match result {
        case Failure(e) =>
          error := Some(e);
        case Success(s) =>
          lineWeight := s.lineWeight;
          markerWeight := s.markerWeight;
          strainPenaltyWeight := s.strainPenaltyWeight;
          curvaturePenaltyWeight := s.curvaturePenaltyWeight;
          edgeDiscontinuityPenaltyWeight := s.edgeDiscontinuityPenaltyWeight;
          numberOfIterations := s.numberOfIterations;
          maximumSubIterations := s.maximumSubIterations;
          updateReferenceState := s.updateReferenceState;
          error := None;
      }
    }

    /** The value the step encodes under its key. */
    function GetLineWeight(): (x: real)
      reads this
      ensures EncodeFit(Settings())[LineWeightKey] == Real(x)
    {
      lineWeight
    }

    method SetLineWeight(weight: real) returns (changed: bool)
      requires weight >= 0.0
      modifies this`lineWeight
      ensures changed == (weight != old(lineWeight))
      ensures GetLineWeight() == weight
    {
      changed := weight != lineWeight;
      if changed {
        lineWeight := weight;
      }
    }

    /** The value the step encodes under its key. */
    function GetMarkerWeight(): (x: real)
      reads this
      ensures EncodeFit(Settings())[MarkerWeightKey] == Real(x)
    {
      markerWeight
    }

    method SetMarkerWeight(weight: real) returns (changed: bool)
      requires weight >= 0.0
      modifies this`markerWeight
      ensures changed == (weight != old(markerWeight))
      ensures GetMarkerWeight() == weight
    {
      changed := weight != markerWeight;
      if changed {
        markerWeight := weight;
      }
    }

    /** The value the step encodes under its key. */
    function GetStrainPenaltyWeight(): (x: real)
      reads this
      ensures EncodeFit(Settings())[StrainPenaltyWeightKey] == Real(x)
    {
      strainPenaltyWeight
    }

    method SetStrainPenaltyWeight(weight: real) returns (changed: bool)
      requires weight >= 0.0
      modifies this`strainPenaltyWeight
      ensures changed == (weight != old(strainPenaltyWeight))
      ensures GetStrainPenaltyWeight() == weight
    {
      changed := weight != strainPenaltyWeight;
      if changed {
        strainPenaltyWeight := weight;
      }
    }

    /** The value the step encodes under its key. */
    function GetCurvaturePenaltyWeight(): (x: real)
      reads this
      ensures EncodeFit(Settings())[CurvaturePenaltyWeightKey] == Real(x)
    {
      curvaturePenaltyWeight
    }

    method SetCurvaturePenaltyWeight(weight: real) returns (changed: bool)
      requires weight >= 0.0
      modifies this`curvaturePenaltyWeight
      ensures changed == (weight != old(curvaturePenaltyWeight))
      ensures GetCurvaturePenaltyWeight() == weight
    {
      changed := weight != curvaturePenaltyWeight;
      if changed {
        curvaturePenaltyWeight := weight;
      }
    }

    /** The value the step encodes under its key. */
    function GetEdgeDiscontinuityPenaltyWeight(): (x: real)
      reads this
      ensures EncodeFit(Settings())[EdgeDiscontinuityPenaltyWeightKey] == Real(x)
    {
      edgeDiscontinuityPenaltyWeight
    }

    method SetEdgeDiscontinuityPenaltyWeight(weight: real) returns (changed: bool)
      requires weight >= 0.0
      modifies this`edgeDiscontinuityPenaltyWeight
      ensures changed == (weight != old(edgeDiscontinuityPenaltyWeight))
      ensures GetEdgeDiscontinuityPenaltyWeight() == weight
    {
      changed := weight != edgeDiscontinuityPenaltyWeight;
      if changed {
        edgeDiscontinuityPenaltyWeight := weight;
      }
    }

    /** The value the step encodes under its key. */
    function GetNumberOfIterations(): (x: int)
      reads this
      ensures EncodeFit(Settings())[NumberOfIterationsKey] == Int(x)
    {
      numberOfIterations
    }

    method SetNumberOfIterations(iterations: int) returns (changed: bool)
      requires iterations > 0
      modifies this`numberOfIterations
      ensures changed == (iterations != old(numberOfIterations))
      ensures GetNumberOfIterations() == iterations
    {
      changed := iterations != numberOfIterations;
      if changed {
        numberOfIterations := iterations;
      }
    }

    /** The value the step encodes under its key. */
    function GetMaximumSubIterations(): (x: int)
      reads this
      ensures EncodeFit(Settings())[MaximumSubIterationsKey] == Int(x)
    {
      maximumSubIterations
    }

    method SetMaximumSubIterations(subIterations: int) returns (changed: bool)
      requires subIterations > 0
      modifies this`maximumSubIterations
      ensures changed == (subIterations != old(maximumSubIterations))
      ensures GetMaximumSubIterations() == subIterations
    {
      changed := subIterations != maximumSubIterations;
      if changed {
        maximumSubIterations := subIterations;
      }
    }

    /** The value the step encodes under its key. */
    function IsUpdateReferenceState(): (x: bool)
      reads this
      ensures EncodeFit(Settings())[UpdateReferenceStateKey] == Bool(x)
    {
      updateReferenceState
    }

    method SetUpdateReferenceState(update: bool) returns (changed: bool)
      modifies this`updateReferenceState
      ensures changed == (update != old(updateReferenceState))
      ensures IsUpdateReferenceState() == update
    {
      changed := update != updateReferenceState;
      if changed {
        updateReferenceState := update;
      }
    }
  }
}
