# RIIGID session and optimization summary, in Dafny

RIIGID (RIgid Interface Geometry IDentification) optimizes an atomic
structure made of rigid fragments. A user builds a `RIIGID` session from an
ASE `Atoms` object and picks three components, by object or by name:

- an ASE calculator (`"vasp"`);
- an optimizer (`"gdwas"`, `"gd"`, `"gpr"`);
- a convergence criterion (`"criterion_displacement"`, `"criterion_force_torque"`).

`run()` then hands everything to the optimizer and saves four artifacts from
the optimization history it leaves behind: the pickled history, the
trajectory, the final geometry and a fixed-width summary table.

This project models that session layer:

- `wrappers.dfy`: `Option`, `Result` and `Outcome` (normal return or a raised error).
- `text.dfy`: ASCII lower-casing, which is what `str.lower` does on the names
  it has to match. Also Python's `<w` / `>w` padding, `str(n)` of a
  non-negative integer, and lines of columns closed by `|`.
- `components.dfy`: the component variants, the three name registries, and
  the resolution of a name or an object into a component.
- `history.dfy`: optimization steps, the trajectory frames and the final geometry.
- `summary.dfy`: numpy `max` / `argmax` and the rows of the summary table.
  It also covers the header lines and the column layout of the written lines.
- `session.dfy`: class `Riigid`. Its three component slots are `Option`
  fields, and its setters and `run` are methods.

The history is produced by the optimizer, whose code is not part of this
model. `Run` therefore takes it as a parameter `optimize`. This function
maps the optimizer, the start structure, the calculator and the criterion to
a history or a raised error. The `.10f` rendering of a real is the parameter
`fmt`. The norm of every force and torque vector is taken as a given `real`.
The summary file is modelled as the sequence of strings written to it, in
order.

## Model

| member | source | states |
|---|---|---|
| Text.ToLower | riigid/riigid.py:119 | lower-casing keeps the length and maps each character by itself: ASCII capitals become small letters, everything else is kept |
| Text.ToLowerNormalises | riigid/riigid.py:163-167 | a lower-cased name has no capital left, and lower-casing it again changes nothing |
| Text.ToLowerDecidesCase | riigid/riigid.py:218-220 | two names have the same lower-case form exactly when they differ only in letter case |
| Text.PadLeft | riigid/riigid.py:345-348 | `>w` padding: the length is max(w, \|s\|), `s` is kept at the end, and only spaces come before it; a longer string is not truncated |
| Text.PadRight | riigid/riigid.py:390 | `<w` padding: the length is max(w, \|s\|), `s` is kept at the start, and only spaces come after it |
| Text.Decimal | riigid/riigid.py:390 | `str(n)` is non-empty, all digits, and has no leading zero unless n is 0 |
| Text.DecimalRoundTrip | riigid/riigid.py:390 | reading the rendered digits back gives n |
| Text.DecimalWidth | riigid/riigid.py:391-393 | n takes at most k digits exactly when n < 10^k; so the `>5` index fields stay 5 wide exactly for indices below 100000 |
| Text.BarredLayout | riigid/riigid.py:344-356 | a line of `\|`-closed columns of given widths has the summed width, and its bars sit exactly at the column ends |
| Components.ResolveCalculator | riigid/riigid.py:119-124 | a name resolves exactly when its lower-case form is "vasp"; it then gives Vasp with the settings passed through, and otherwise the unknown-calculator error |
| Components.ResolveOptimizer | riigid/riigid.py:163-172 | a name resolves exactly when its lower-case form is one of gdwas, gd, gpr; it then gives the variant of that name with the settings passed through, and otherwise the unknown-optimizer error |
| Components.ResolveCriterion | riigid/riigid.py:218-225 | a name resolves exactly when its lower-case form is one of criterion_displacement, criterion_force_torque; it then gives the variant of that name with the settings, and otherwise the unknown-criterion error |
| Components.ChooseCalculator | riigid/riigid.py:113-126 | a non-string argument is kept unchanged whatever the settings; a string is resolved by name |
| Components.ChooseOptimizer | riigid/riigid.py:156-176 | a non-string optimizer is kept unchanged whatever the settings; a string is resolved by name |
| Components.ChooseCriterion | riigid/riigid.py:211-229 | a non-string criterion is kept unchanged whatever the settings; a string is resolved by name |
| Components.DispatchIgnoresCase | riigid/riigid.py:163-168 | names that differ only in letter case select the same component, or both fail, for all three kinds |
| Components.CalculatorRoundTrip | riigid/riigid.py:119-120 | every built-in calculator is what its registry name, written in any case, resolves to with its own settings |
| Components.OptimizerRoundTrip | riigid/riigid.py:163-168 | every built-in optimizer is what its registry name, in any case, resolves to with its own settings |
| Components.CriterionRoundTrip | riigid/riigid.py:218-221 | every built-in criterion is what its registry name, in any case, resolves to with its own settings |
| Components.DefaultNamesResolve | riigid/riigid.py:263-271 | the default names "GDWAS" and "Criterion_Force_Torque" resolve to GDWAS and Criterion_Force_Torque with empty settings |
| History.Trajectory | riigid/riigid.py:324-327 | one frame per step, in history order, each frame holding that step's atoms and energy |
| History.TrajectoryExtends | riigid/riigid.py:324-327 | the trajectory of a longer history keeps the earlier frames and appends the frames of the new steps |
| History.FinalGeometry | riigid/riigid.py:335 | the final geometry exists exactly when the history is non-empty, and is then the structure of the last step |
| Summary.Max | riigid/riigid.py:363-371 | the maximum of a non-empty list bounds every element and is one of them |
| Summary.ArgMax | riigid/riigid.py:373-387 | the argmax is an index of the list whose element bounds every other, and every earlier element is strictly smaller (first occurrence, as numpy) |
| Summary.MaxAtArgMax | riigid/riigid.py:363-387 | the reported maximum is the element at the reported index |
| Summary.PeakOf | riigid/riigid.py:363-387 | the (max, argmax) pair of a column is a peak: at the index, at least every element, and above all earlier ones |
| Summary.PeakUnique | riigid/riigid.py:373-387 | a list has only one peak, so the pair a row reports is determined by the list |
| Summary.StepRow | riigid/riigid.py:361-387 | a step yields a row exactly when its five magnitude lists are all non-empty; the row has the step's index and energy and the peak of each list in its own column |
| Summary.MeasuredPrefix | riigid/riigid.py:360-371 | the number of rows written before numpy raises: all earlier steps are measurable, and the step after them, if any, is not |
| Summary.Rows | riigid/riigid.py:360-387 | for a history of measurable steps there is one row per step, and the i-th row is the row of step i |
| Summary.RowsFaithful | riigid/riigid.py:360-393 | the i-th row reports index i, the energy of step i and the peaks of step i's five lists |
| Summary.RowsSnoc | riigid/riigid.py:360 | a further measurable step appends its row and changes no earlier row |
| Summary.HeaderLayout | riigid/riigid.py:344-356 | both header lines and the `=` separator are 126 characters plus a newline; the bars of each header line sit at its column ends |
| Summary.HeaderLines | riigid/riigid.py:344-356 | each of the three header writes is 126 characters and a newline |
| Summary.LineWidths | riigid/riigid.py:356 | the column widths 5,19,19,19,19,19,19 and 5,19,39,39,19 with their bars both add up to 5+1+19+1+39+1+39+1+19+1 = 126 |
| Summary.RowLayout | riigid/riigid.py:389-394 | a row whose values fit their fields is 126 characters and a newline, with its bars exactly under those of the column header line |
| Summary.WrittenAfterNone | riigid/riigid.py:342-356 | before any row is written, the file holds only the three header lines |
| Summary.WrittenAfterStep | riigid/riigid.py:360-394 | writing step i's row appends it after the header and the rows of steps 0..i-1 |
| Summary.WrittenAfterAll | riigid/riigid.py:359-394 | the rows written up to the first unmeasurable step, or up to the end, are the whole summary |
| Summary.SummaryRows | riigid/riigid.py:359-394 | for measurable steps the summary is the header followed by exactly one row per step, the i-th line after the header being the row of step i |
| Summary.SummaryStopsAtUnmeasurable | riigid/riigid.py:363-371 | the summary of a history whose step k has an empty list holds the header and the rows of steps 0..k-1 only |
| Summary.SummaryColumns | riigid/riigid.py:344-394 | when every value fits its field, every summary line is 126 characters and a newline, and every data row has its bars under those of the column header |
| Summary.RowLine | riigid/riigid.py:389-394 | the line written for step i is 126 characters and a newline, with its bars under those of the column header line |
| Session.Riigid.constructor | riigid/riigid.py:58-73 | a fresh session keeps the structure, has all three components unset, and has written no file |
| Session.Riigid.SetCalculator | riigid/riigid.py:93-126 | stores the chosen calculator and returns normally; an unknown name raises and leaves the slot as it was; no other field changes |
| Session.Riigid.SetOptimizer | riigid/riigid.py:136-176 | stores the chosen optimizer and returns normally; an unknown name raises and leaves the slot as it was; no other field changes |
| Session.Riigid.SetConvergenceCriterion | riigid/riigid.py:191-229 | stores the chosen criterion and returns normally; an unknown name raises and leaves the slot as it was; no other field changes |
| Session.Riigid.Run | riigid/riigid.py:244-283 | without a calculator, raises and changes nothing. Otherwise the calculator is kept, the optimizer defaults to GDWAS and the criterion to Criterion_Force_Torque only when unset, and the optimizer runs with these. An optimizer error leaves every file as it was; a history is saved as SaveOptimizationProgress states |
| Session.Riigid.UseDefaults | riigid/riigid.py:261-271 | an unset optimizer becomes GDWAS({}) and an unset criterion Criterion_Force_Torque({}); slots already set keep their components |
| Session.Riigid.UseDefaultOptimizer | riigid/riigid.py:261-264 | `set_optimizer("GDWAS", {})` cannot fail and sets GDWAS with empty settings |
| Session.Riigid.UseDefaultCriterion | riigid/riigid.py:267-271 | `set_convergence_criterion("Criterion_Force_Torque", {})` cannot fail and sets that criterion with empty settings |
| Session.Riigid.SaveOptimizationProgress | riigid/riigid.py:302-307 | the history and the trajectory are always written. An empty history then raises: geometry and summary stay as they were. Otherwise the final geometry is the last step's structure and the summary is written; it fails exactly when a step has an empty list, reporting the first such step |
| Session.Riigid.CreateTrajectory | riigid/riigid.py:319-328 | the trajectory file holds one frame per history step, in order |
| Session.Riigid.SaveFinalGeometry | riigid/riigid.py:331-336 | a non-empty history writes the structure of its last step; an empty one raises and writes nothing |
| Session.Riigid.SaveOptimizationSummary | riigid/riigid.py:339-394 | the file receives the header and then the rows one by one. It succeeds exactly when every step is measurable. Otherwise it raises at the first unmeasurable step, and the header and the earlier rows stay in the file |

## Left out

- Output redirection to the log file, `print` and `warnings.warn` (riigid/riigid.py:57, 75-82, 115-117 and the per-setter settings listing): logging only, so no state of the model depends on them.
- The `config.json` resource and the module-level file names (riigid/riigid.py:20-28): the artifact files are fields of the session instead of global paths, so two sessions do not share them here.
- The file formats: pickle, ASE `Trajectory`, `ase_write` and the opening and closing of files. Each file is the value written to it: the history, the frames, the atoms, the sequence of summary lines. A failure to write a file is not modelled.
- `Vasp(**settings)` and the printing of `calculator.parameters` (riigid/riigid.py:120, 127-132): foreign library. A Vasp calculator is its settings map.
- `define_fragment_by_indices` and the `Structure` wrapper (riigid/riigid.py:70, 84-90): `riigid/structure.py` is not part of this model. The start structure and each step's structure are plain `Atoms`.
- The internals of `optimizer.run` and of the criteria: that code is not part of this model, so `Run` takes the optimizer's result as the parameter `optimize`.
- Session.Riigid.Run: the optimizer's checkpoint callback (riigid/riigid.py:279) is not modelled. When the optimizer raises, the model says every file is as before. In the source, files written by earlier callbacks would remain.
- `np.linalg.norm` and floating point: magnitudes are exact `real`s, and NaN is not modelled.
- The `.10f` formatting: it is the parameter `fmt`. Summary.SummaryColumns and Summary.RowLayout therefore assume the rendered values fit their fields and contain no `|`.
- `time.time()` and the duration report (riigid/riigid.py:254, 286-299).
- Passing `None` as a ready-made component: the source would store it, and `run` would then treat the slot as unset.
- Text.ToLower: only ASCII capitals are lowered. Python also lowers other Unicode letters. Of those, only U+0130 and U+212A lower to ASCII letters, to "i" with a combining dot and to "k". None of the registry names contains a k, and the dotted form is two characters, so the dispatch decisions are the same.
- `setup.py`: packaging metadata.
