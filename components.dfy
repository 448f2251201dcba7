/**
 * The three pluggable components of a RIIGID session (the ASE calculator,
 * the optimizer and the convergence criterion), and how each is obtained
 * from what the user hands to the session: either a ready-made object or
 * the name of a built-in variant together with its settings.
 */
module Components {
  import opened Wrappers
  import opened Text

  /** Keyword settings for a component constructed by name (`**settings`). */
  type Settings = map<string, string>

  /** An ASE calculator: VASP built from settings, or one the user constructed. */
  datatype Calculator = Vasp(settings: Settings) | UserCalculator(id: nat)

  /** An optimizer: the three built-in strategies, or one the user constructed. */
  datatype Optimizer =
    | GDWAS(settings: Settings)
    | GD(settings: Settings)
    | GPR(settings: Settings)
    | UserOptimizer(id: nat)

  /** A convergence criterion: the two built-in ones, or one the user constructed. */
  datatype Criterion =
    | CriterionDisplacement(settings: Settings)
    | CriterionForceTorque(settings: Settings)
    | UserCriterion(id: nat)

  /** What a setter is given: a name (a Python `str`) or any other object. */
  datatype Choice<T> = Named(name: string) | Given(component: T)

  /** Configuration errors, raised before any expensive work starts. */
  datatype ConfigError = UnknownCalculator | UnknownOptimizer | UnknownCriterion | NoCalculator

  // ---------------------------------------------------------------------
  // The registries of built-in names

  const CalculatorNames: set<string> := {"vasp"}
  const OptimizerNames: set<string> := {"gdwas", "gd", "gpr"}
  const CriterionNames: set<string> := {"criterion_displacement", "criterion_force_torque"}

  /** The registry name a calculator is built under, if it is a built-in one. */
  function CalculatorName(c: Calculator): Option<string> {
    match c
    case Vasp(_) => Some("vasp")
    case UserCalculator(_) => None
  }

  function OptimizerName(o: Optimizer): Option<string> {
    match o
    case GDWAS(_) => Some("gdwas")
    case GD(_) => Some("gd")
    case GPR(_) => Some("gpr")
    case UserOptimizer(_) => None
  }

  function CriterionName(c: Criterion): Option<string> {
    match c
    case CriterionDisplacement(_) => Some("criterion_displacement")
    case CriterionForceTorque(_) => Some("criterion_force_torque")
    case UserCriterion(_) => None
  }

  // ---------------------------------------------------------------------
  // Name dispatch

  /**
   * The calculator named by `name`, compared case-insensitively; a name
   * outside the registry is an error.
   */
  function ResolveCalculator(name: string, settings: Settings): (r: Result<Calculator, ConfigError>)
    ensures r.Success? <==> ToLower(name) in CalculatorNames
    ensures r.Success? ==> CalculatorName(r.value) == Some(ToLower(name)) && r.value.settings == settings
    ensures r.Failure? ==> r.error == UnknownCalculator
  {
    if ToLower(name) == "vasp" then Success(Vasp(settings))
    else Failure(UnknownCalculator)
  }

  /** The optimizer named by `name`, compared case-insensitively. */
  function ResolveOptimizer(name: string, settings: Settings): (r: Result<Optimizer, ConfigError>)
    ensures r.Success? <==> ToLower(name) in OptimizerNames
    ensures r.Success? ==> OptimizerName(r.value) == Some(ToLower(name)) && r.value.settings == settings
    ensures r.Failure? ==> r.error == UnknownOptimizer
  {
    var lower := ToLower(name);
    if lower == "gdwas" then Success(GDWAS(settings))
    else if lower == "gd" then Success(GD(settings))
    else if lower == "gpr" then Success(GPR(settings))
    else Failure(UnknownOptimizer)
  }

  /** The convergence criterion named by `name`, compared case-insensitively. */
  function ResolveCriterion(name: string, settings: Settings): (r: Result<Criterion, ConfigError>)
    ensures r.Success? <==> ToLower(name) in CriterionNames
    ensures r.Success? ==> CriterionName(r.value) == Some(ToLower(name)) && r.value.settings == settings
    ensures r.Failure? ==> r.error == UnknownCriterion
  {
    var lower := ToLower(name);
    if lower == "criterion_displacement" then Success(CriterionDisplacement(settings))
    else if lower == "criterion_force_torque" then Success(CriterionForceTorque(settings))
    else Failure(UnknownCriterion)
  }

  /** What `set_calculator` stores: a given object as it is, a name resolved. */
  function ChooseCalculator(choice: Choice<Calculator>, settings: Settings): (r: Result<Calculator, ConfigError>)
    ensures choice.Given? ==> r == Success(choice.component)
    ensures choice.Named? ==> r == ResolveCalculator(choice.name, settings)
  {
    match choice
    case Named(name) => ResolveCalculator(name, settings)
    case Given(c) => Success(c)
  }

  function ChooseOptimizer(choice: Choice<Optimizer>, settings: Settings): (r: Result<Optimizer, ConfigError>)
    ensures choice.Given? ==> r == Success(choice.component)
    ensures choice.Named? ==> r == ResolveOptimizer(choice.name, settings)
  {
    match choice
    case Named(name) => ResolveOptimizer(name, settings)
    case Given(o) => Success(o)
  }

  function ChooseCriterion(choice: Choice<Criterion>, settings: Settings): (r: Result<Criterion, ConfigError>)
    ensures choice.Given? ==> r == Success(choice.component)
    ensures choice.Named? ==> r == ResolveCriterion(choice.name, settings)
  {
    match choice
    case Named(name) => ResolveCriterion(name, settings)
    case Given(c) => Success(c)
  }

  // ---------------------------------------------------------------------
  // Properties of the dispatch

  /** Names that differ only in the case of their letters select the same component. */
  lemma DispatchIgnoresCase(a: string, b: string, settings: Settings)
    requires SameIgnoringCase(a, b)
    ensures ResolveCalculator(a, settings) == ResolveCalculator(b, settings)
    ensures ResolveOptimizer(a, settings) == ResolveOptimizer(b, settings)
    ensures ResolveCriterion(a, settings) == ResolveCriterion(b, settings)
  {
    ToLowerDecidesCase(a, b);
  }

  /** The registry names are already in lower case. */
  lemma RegistryNamesAreLower()
    ensures forall n :: n in CalculatorNames + OptimizerNames + CriterionNames ==> ToLower(n) == n
  {
    forall n | n in CalculatorNames + OptimizerNames + CriterionNames
      ensures ToLower(n) == n
    {
      assert forall i :: 0 <= i < |n| ==> !IsUpper(n[i]);
    }
  }

  /**
   * Every built-in calculator is what its registry name, written in any
   * case, resolves to with its own settings.
   */
  lemma CalculatorRoundTrip(name: string, c: Calculator)
    requires CalculatorName(c).Some? && SameIgnoringCase(name, CalculatorName(c).value)
    ensures ResolveCalculator(name, c.settings) == Success(c)
  {
    ToLowerDecidesCase(name, CalculatorName(c).value);
    RegistryNamesAreLower();
  }

  /** Every built-in optimizer is what its registry name, in any case, resolves to. */
  lemma OptimizerRoundTrip(name: string, o: Optimizer)
    requires OptimizerName(o).Some? && SameIgnoringCase(name, OptimizerName(o).value)
    ensures ResolveOptimizer(name, o.settings) == Success(o)
  {
    ToLowerDecidesCase(name, OptimizerName(o).value);
    RegistryNamesAreLower();
  }

  /** Every built-in criterion is what its registry name, in any case, resolves to. */
  lemma CriterionRoundTrip(name: string, k: Criterion)
    requires CriterionName(k).Some? && SameIgnoringCase(name, CriterionName(k).value)
    ensures ResolveCriterion(name, k.settings) == Success(k)
  {
    ToLowerDecidesCase(name, CriterionName(k).value);
    RegistryNamesAreLower();
  }

  /** The names the session falls back on resolve to the defaults with empty settings. */
  lemma DefaultNamesResolve()
    ensures ResolveOptimizer("GDWAS", map[]) == Success(GDWAS(map[]))
    ensures ResolveCriterion("Criterion_Force_Torque", map[]) == Success(CriterionForceTorque(map[]))
  {
    assert SameIgnoringCase("GDWAS", "gdwas");
    OptimizerRoundTrip("GDWAS", GDWAS(map[]));
    assert SameIgnoringCase("Criterion_Force_Torque", "criterion_force_torque");
    CriterionRoundTrip("Criterion_Force_Torque", CriterionForceTorque(map[]));
  }
}
