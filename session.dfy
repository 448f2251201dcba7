/**
 * A RIIGID session: the structure to optimize, the three component slots
 * the user fills (or leaves to the defaults), and the artifacts a run
 * leaves behind (the pickled history, the trajectory, the final geometry
 * and the summary table).
 */
module Session {
  import opened Wrappers
  import opened Components
  import opened History
  import opened Summary

  /** Everything `run` and the saving steps can raise. */
  datatype RunError =
    | Config(error: ConfigError)
    | OptimizerFailed(reason: string)
    | EmptyHistory
    | NoMagnitudes(step: nat)

  /**
   * The optimizer's `run`: from the optimizer, the start structure, the
   * calculator and the criterion, the history it leaves behind, or the
   * error it raises.
   */
  type Optimize = (Optimizer, Atoms, Calculator, Criterion) -> Result<seq<Step>, string>

  class Riigid {
    const startStructure: Atoms
    var calculator: Option<Calculator>
    var optimizer: Option<Optimizer>
    var criterion: Option<Criterion>

    /** The artifact files; None while a file has not been written. */
    var historyFile: Option<seq<Step>>
    var trajectoryFile: Option<seq<Frame>>
    var geometryFile: Option<Atoms>
    var summaryFile: Option<seq<string>>

    /** A fresh session: the structure is kept, no component is chosen, no file written. */
    constructor (atoms: Atoms)
      ensures startStructure == atoms
      ensures calculator == None && optimizer == None && criterion == None
      ensures historyFile == None && trajectoryFile == None
      ensures geometryFile == None && summaryFile == None
    {
      startStructure := atoms;
      calculator := None;
      optimizer := None;
      criterion := None;
      historyFile := None;
      trajectoryFile := None;
      geometryFile := None;
      summaryFile := None;
    }

    /**
     * `set_calculator`: a given calculator is stored as it is; a name is
     * resolved with the settings, and an unknown one raises and leaves the
     * slot as it was.
     */
    method SetCalculator(choice: Choice<Calculator>, settings: Settings) returns (r: Outcome<ConfigError>)
      modifies this`calculator
      ensures ChooseCalculator(choice, settings).Success? ==>
        r == Pass && calculator == Some(ChooseCalculator(choice, settings).value)
      ensures ChooseCalculator(choice, settings).Failure? ==>
        r == Fail(ChooseCalculator(choice, settings).error) && calculator == old(calculator)
    {
      var c := ChooseCalculator(choice, settings);
      if c.Failure? {
        return Fail(c.error);
      }
      calculator := Some(c.value);
      r := Pass;
    }

    /** `set_optimizer`, with the same rules as `set_calculator`. */
    method SetOptimizer(choice: Choice<Optimizer>, settings: Settings) returns (r: Outcome<ConfigError>)
      modifies this`optimizer
      ensures ChooseOptimizer(choice, settings).Success? ==>
        r == Pass && optimizer == Some(ChooseOptimizer(choice, settings).value)
      ensures ChooseOptimizer(choice, settings).Failure? ==>
        r == Fail(ChooseOptimizer(choice, settings).error) && optimizer == old(optimizer)
    {
      var o := ChooseOptimizer(choice, settings);
      if o.Failure? {
        return Fail(o.error);
      }
      optimizer := Some(o.value);
      r := Pass;
    }

    /** `set_convergence_criterion`, with the same rules as `set_calculator`. */
    method SetConvergenceCriterion(choice: Choice<Criterion>, settings: Settings) returns (r: Outcome<ConfigError>)
      modifies this`criterion
      ensures ChooseCriterion(choice, settings).Success? ==>
        r == Pass && criterion == Some(ChooseCriterion(choice, settings).value)
      ensures ChooseCriterion(choice, settings).Failure? ==>
        r == Fail(ChooseCriterion(choice, settings).error) && criterion == old(criterion)
    {
      var k := ChooseCriterion(choice, settings);
      if k.Failure? {
        return Fail(k.error);
      }
      criterion := Some(k.value);
      r := Pass;
    }

    /**
     * `run`: without a calculator it raises and changes nothing. Otherwise
     * an unset optimizer becomes GDWAS and an unset criterion
     * Criterion_Force_Torque, both with empty settings, while slots the
     * user filled are kept; the optimizer runs, and its history is saved.
     */
    method Run(optimize: Optimize, fmt: real -> string) returns (r: Outcome<RunError>)
      modifies this
      ensures old(calculator).None? ==> r == Fail(Config(NoCalculator)) && unchanged(this)
      ensures old(calculator).Some? ==>
        && calculator == old(calculator)
        && optimizer == Some(old(optimizer).GetOr(GDWAS(map[])))
        && criterion == Some(old(criterion).GetOr(CriterionForceTorque(map[])))
      ensures old(calculator).Some? ==>
        var res := optimize(optimizer.value, startStructure, calculator.value, criterion.value);
        && (res.Failure? ==>
              && r == Fail(OptimizerFailed(res.error))
              && historyFile == old(historyFile) && trajectoryFile == old(trajectoryFile)
              && geometryFile == old(geometryFile) && summaryFile == old(summaryFile))
        && (res.Success? ==> Saved(res.value, fmt, r, old(geometryFile), old(summaryFile)))
    {
      if calculator.None? {
        return Fail(Config(NoCalculator));
      }
      UseDefaults();
      var res := optimize(optimizer.value, startStructure, calculator.value, criterion.value);
      if res.Failure? {
        return Fail(OptimizerFailed(res.error));
      }
      r := SaveOptimizationProgress(res.value, fmt);
    }

    /**
     * Fills the unset optimizer slot and the unset criterion slot with the
     * defaults; slots already set are kept.
     */
    method UseDefaults()
      modifies this`optimizer, this`criterion
      ensures optimizer == Some(old(optimizer).GetOr(GDWAS(map[])))
      ensures criterion == Some(old(criterion).GetOr(CriterionForceTorque(map[])))
    {
      if optimizer.None? {
        UseDefaultOptimizer();
      }
      if criterion.None? {
        UseDefaultCriterion();
      }
    }

    /** `set_optimizer("GDWAS", {})`, which cannot fail. */
    method UseDefaultOptimizer()
      modifies this`optimizer
      ensures optimizer == Some(GDWAS(map[]))
    {
      DefaultNamesResolve();
      var _ := SetOptimizer(Named("GDWAS"), map[]);
    }

    /** `set_convergence_criterion("Criterion_Force_Torque", {})`, which cannot fail. */
    method UseDefaultCriterion()
      modifies this`criterion
      ensures criterion == Some(CriterionForceTorque(map[]))
    {
      DefaultNamesResolve();
      var _ := SetConvergenceCriterion(Named("Criterion_Force_Torque"), map[]);
    }

    /**
     * The files after saving history `h`, given the geometry and summary
     * files before: the history and its trajectory are always written; an
     * empty history has no last step, so saving stops there; otherwise the
     * final geometry and the summary follow, and the summary fails at the
     * first step that has an empty magnitude list.
     */
    ghost predicate Saved(h: seq<Step>, fmt: real -> string, r: Outcome<RunError>,
                          geometryBefore: Option<Atoms>, summaryBefore: Option<seq<string>>)
      reads this
    {
      && historyFile == Some(h)
      && trajectoryFile == Some(Trajectory(h))
      && (h == [] ==> r == Fail(EmptyHistory) && geometryFile == geometryBefore && summaryFile == summaryBefore)
      && (h != [] ==>
            && geometryFile == FinalGeometry(h)
            && summaryFile == Some(SummaryWrites(h, fmt))
            && (r == Pass <==> AllMeasurable(h))
            && (r != Pass ==> r == Fail(NoMagnitudes(MeasuredPrefix(h)))))
    }

    /** `save_optimization_progress`: the four artifacts, in the source's order. */
    method SaveOptimizationProgress(h: seq<Step>, fmt: real -> string) returns (r: Outcome<RunError>)
      modifies this`historyFile, this`trajectoryFile, this`geometryFile, this`summaryFile
      ensures historyFile == Some(h)
      ensures trajectoryFile == Some(Trajectory(h))
      ensures h == [] ==> r == Fail(EmptyHistory)
      ensures h == [] ==> geometryFile == old(geometryFile)
      ensures h == [] ==> summaryFile == old(summaryFile)
      ensures h != [] ==> geometryFile == FinalGeometry(h)
      ensures h != [] ==> summaryFile == Some(SummaryWrites(h, fmt))
      ensures h != [] ==> (r == Pass <==> AllMeasurable(h))
      ensures h != [] ==> (r != Pass ==> r == Fail(NoMagnitudes(MeasuredPrefix(h))))
    {
      historyFile := Some(h);
      CreateTrajectory(h);
      r := SaveFinalGeometry(h);
      if r.Fail? {
        return;
      }
      r := SaveOptimizationSummary(h, fmt);
    }

    /** Writes one frame per step, in history order. */
    method CreateTrajectory(h: seq<Step>)
      modifies this`trajectoryFile
      ensures trajectoryFile == Some(Trajectory(h))
    {
      trajectoryFile := Some([]);
      for i := 0 to |h|
        invariant trajectoryFile == Some(Trajectory(h[..i]))
      {
        assert h[..i + 1][..i] == h[..i];
        trajectoryFile := Some(trajectoryFile.value + [Frame(h[i].structure, h[i].energy)]);
      }
      assert h[..|h|] == h;
    }

    /** Writes the structure of the last step; an empty history raises (`[-1]`). */
    method SaveFinalGeometry(h: seq<Step>) returns (r: Outcome<RunError>)
      modifies this`geometryFile
      ensures h == [] ==> r == Fail(EmptyHistory) && geometryFile == old(geometryFile)
      ensures h != [] ==> r == Pass && geometryFile == FinalGeometry(h)
    {
      if h == [] {
        return Fail(EmptyHistory);
      }
      geometryFile := Some(h[|h| - 1].structure);
      r := Pass;
    }

    /**
     * `save_optimization_summary`: the header, then one row per step; a
     * step with an empty magnitude list raises, leaving the rows written
     * so far in the file.
     */
    method SaveOptimizationSummary(h: seq<Step>, fmt: real -> string) returns (r: Outcome<RunError>)
      modifies this`summaryFile
      ensures summaryFile == Some(SummaryWrites(h, fmt))
      ensures r == Pass <==> AllMeasurable(h)
      ensures r != Pass ==> r == Fail(NoMagnitudes(MeasuredPrefix(h)))
    {
      WrittenAfterNone(h, fmt);
      summaryFile := Some(Header());
      var i := 0;
      while i < |h|
        invariant i <= |h|
        invariant AllMeasurable(h[..i])
        invariant summaryFile == Some(WrittenAfter(h, i, fmt))
      {
        if !Measurable(h[i]) {
          WrittenAfterAll(h, i, fmt);
          return Fail(NoMagnitudes(i));
        }
        WrittenAfterStep(h, i, fmt);
        summaryFile := Some(summaryFile.value + [RowText(StepRow(i, h[i]).value, fmt)]);
        i := i + 1;
      }
      WrittenAfterAll(h, i, fmt);
      assert h[..i] == h;
      r := Pass;
    }
  }
}
