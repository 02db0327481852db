/**
 * The state every fitter step shares: the fitter it has been added to and
 * whether it has run.
 */
module FitterSteps {

  /**
   * The fitter that owns the steps. Its own state and operations (loading
   * the model and data, the list of steps, projections, writing the model)
   * are not part of this model; a step only holds a reference to it.
   */
  class Fitter {
  }

  class FitterStep {
    var fitter: Fitter?
    var hasRun: bool

    /** A new step belongs to no fitter and has not run. */
    constructor ()
      ensures fitter == null && !hasRun
    {
      fitter := null;
      hasRun := false;
    }

    function GetFitter(): Fitter?
      reads this
    {
      fitter
    }

    /** Called by the fitter when the step is added to or removed from it. */
    method SetFitter(f: Fitter?)
      modifies this`fitter
      ensures GetFitter() == f
    {
      fitter := f;
    }

    function HasRun(): bool
      reads this
    {
      hasRun
    }

    method SetHasRun(b: bool)
      modifies this`hasRun
      ensures HasRun() == b
    {
      hasRun := b;
    }

    /** The base step does nothing when run. */
    method Run()
      ensures unchanged(this)
    {
    }
  }
}
