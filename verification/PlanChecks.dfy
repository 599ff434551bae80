/** The checks of `PlanValidator.validate`, in the order and with the early exits of agent/plan_validator.py. */
module PlanChecks {
  import opened PyText
  import opened PlanModel
  import opened ToolSchema
  import opened PlanValidator
  import KahnLoop
  import Topology
  import TopologyCycles

  datatype PlanError =
    | NotAnObjectPayload
    | BadTitle
    | BadDescription
    | StepsMissing
    | StepsNotAList
    | NoStepGiven
    | TooManySteps
    | BadStep(index: nat, fault: StepFault)
    | UnknownTool(stepId: string)
    | BadArguments(stepId: string, misfit: ArgumentError)
    | SelfDependency(stepId: string)
    | MissingDependency(stepId: string, dependency: string)
    | DependencyCycle(stepIds: set<string>)

  datatype StepFault =
    | NotAStepObject
    | BadStepId
    | DuplicateStepId
    | BadToolName
    | NestedPlan
    | ArgumentsNotAnObject
    | DescriptionNotText
    | DependenciesNotAList
    | BadDependency(position: nat)
    | ExpectedResultNotText

  // ------------------------------------------------------------------------
  // What each error means
  // ------------------------------------------------------------------------

  /** The field holds a text that is more than spaces. */
  predicate Tells(v: Option<Value>) {
    v.Some? && v.value.Str? && exists c <- v.value.s :: !IsSpace(c)
  }

  lemma TellsIsNonBlank(v: Option<Value>)
    ensures Tells(v) <==> NonBlankField(v)
  {
    if v.Some? && v.value.Str? {
      var before, behind := StripMeaning(v.value.s);
    }
  }

  /** The first check that stops the reading of a step, if one does; `known` are the ids of the steps read before. */
  function Obstacle(raw: RawStep, known: set<string>): Option<StepFault> {
    if raw.NotAnObject? then Some(NotAStepObject)
    else if !Tells(raw.stepId) then Some(BadStepId)
    else if Strip(raw.stepId.value.s) in known then Some(DuplicateStepId)
    else if !Tells(raw.toolName) then Some(BadToolName)
    else if Strip(raw.toolName.value.s) == "propose_plan" then Some(NestedPlan)
    else if raw.arguments.Some? && !raw.arguments.value.Null? && !raw.arguments.value.Dict?
    then Some(ArgumentsNotAnObject)
    else None
  }

  /** A fault of one of the fields that are read to the end. */
  predicate TailFault(raw: RawStep, fault: StepFault)
    requires raw.StepFields?
  {
    match fault
    case DescriptionNotText => raw.description.Some? && !raw.description.value.Str?
    case DependenciesNotAList => raw.dependsOn.Some? && !IsArray(raw.dependsOn.value)
    case BadDependency(i) =>
      && raw.dependsOn.Some? && IsArray(raw.dependsOn.value) && i < |raw.dependsOn.value.items|
      && !Tells(Some(raw.dependsOn.value.items[i]))
    case ExpectedResultNotText =>
      raw.expectedResult.Some? && !raw.expectedResult.value.Null? && !raw.expectedResult.value.Str?
    case _ => false
  }

  predicate Faulty(raw: RawStep, known: set<string>, fault: StepFault) {
    if Obstacle(raw, known).Some? then Obstacle(raw, known) == Some(fault) else TailFault(raw, fault)
  }

  /** The ids of the steps that were read, those with a fault in their last fields included. */
  function ReadIds(items: seq<RawStep>): set<string> {
    if items == [] then {}
    else
      var before, raw := ReadIds(items[..|items| - 1]), items[|items| - 1];
      if Obstacle(raw, before).None? then before + {Strip(raw.stepId.value.s)} else before
  }

  /** The reports on the steps one by one: exactly their faults, each with the position of its step. */
  ghost predicate ReportsSteps(items: seq<RawStep>, errors: seq<PlanError>) {
    forall e: PlanError :: e.BadStep? ==>
      (e in errors <==> e.index < |items| && Faulty(items[e.index], ReadIds(items[..e.index]), e.fault))
  }

  /** A report on the tool of a step: it is unknown, or its arguments do not fit. */
  predicate ToolReport(reg: Registry, s: PlanStep, e: PlanError) {
    match e
    case UnknownTool(id) => id == s.stepId && s.toolName !in reg
    case BadArguments(id, misfit) =>
      && id == s.stepId && s.toolName in reg
      && (if IsObject(s.arguments) then Misfit(reg[s.toolName].schema, s.arguments.entries, misfit)
          else misfit == NotAnArgumentObject)
    case _ => false
  }

  /** A report on a dependency of a step: on itself, or on no step of the plan. */
  predicate DependencyReport(ids: set<string>, s: PlanStep, e: PlanError) {
    match e
    case SelfDependency(id) => id == s.stepId && id in s.dependsOn
    case MissingDependency(id, d) => id == s.stepId && d in s.dependsOn && d != id && d !in ids
    case _ => false
  }

  predicate ReportsReferences(reg: Registry, steps: seq<PlanStep>, e: PlanError) {
    exists s <- steps :: ToolReport(reg, s, e) || DependencyReport(Ids(steps), s, e)
  }

  /** The reports on the plan as a whole; after one on its list of steps nothing else is looked at. */
  predicate ReportsHead(data: RawPlan, e: PlanError) {
    match e
    case NotAnObjectPayload => data.NotAPlanObject?
    case BadTitle => data.PlanFields? && !Tells(data.title)
    case BadDescription => data.PlanFields? && data.description.Some? && !data.description.value.Str?
    case StepsMissing => data.PlanFields? && data.steps.NoSteps?
    case StepsNotAList => data.PlanFields? && data.steps.NotAList?
    case NoStepGiven => data.PlanFields? && data.steps == StepList([])
    case TooManySteps => data.PlanFields? && data.steps.StepList? && |data.steps.items| > 20
    case _ => false
  }

  predicate Readable(data: RawPlan) {
    data.PlanFields? && data.steps.StepList? && 1 <= |data.steps.items| <= 20
  }

  // ------------------------------------------------------------------------
  // Structure
  // ------------------------------------------------------------------------

  /** The dependency names that are usable, and the positions of the others. */
  method CleanDependencies(deps: seq<Value>) returns (clean: seq<string>, faults: seq<StepFault>)
    ensures faults == [] <==> forall i :: 0 <= i < |deps| ==> NonBlank(deps[i])
    ensures faults == [] ==> |clean| == |deps| && forall i :: 0 <= i < |deps| ==> clean[i] == Strip(deps[i].s)
    ensures forall f: StepFault :: f in faults <==>
              f.BadDependency? && f.position < |deps| && !Tells(Some(deps[f.position]))
  {
    hide Tells;
    clean, faults := [], [];
    for i := 0 to |deps|
      invariant faults == [] <==> forall j :: 0 <= j < i ==> NonBlank(deps[j])
      invariant faults == [] ==> |clean| == i && forall j :: 0 <= j < i ==> clean[j] == Strip(deps[j].s)
      invariant forall f: StepFault :: f in faults <==>
                  f.BadDependency? && f.position < i && !Tells(Some(deps[f.position]))
    {
      TellsIsNonBlank(Some(deps[i]));
      if NonBlank(deps[i]) {
        clean := clean + [Strip(deps[i].s)];
      } else {
        faults := faults + [BadDependency(i)];
      }
    }
  }

  /** The fields that are read after the tool name; a fault here does not stop the reading of the others. */
  method ParseTail(raw: RawStep) returns (description: string, deps: seq<string>, expected: Option<string>,
                                          faults: seq<StepFault>)
    requires raw.StepFields?
    ensures faults == [] <==> TextField(raw.description) && DepsOk(raw.dependsOn) && ExpectedOk(raw.expectedResult)
    ensures faults == [] ==>
              && description == (if raw.description.Some? then raw.description.value.s else "")
              && deps == DepsOf(raw.dependsOn)
              && expected == (if raw.expectedResult.Some? && raw.expectedResult.value.Str?
                              then Some(raw.expectedResult.value.s) else None)
    ensures forall f: StepFault :: f in faults <==> TailFault(raw, f)
  {
    hide Tells;
    description, deps, expected, faults := "", [], None, [];
    if TextField(raw.description) {
      description := if raw.description.Some? then raw.description.value.s else "";
    } else {
      faults := [DescriptionNotText];
    }
    if raw.dependsOn.Some? {
      if !IsArray(raw.dependsOn.value) {
        faults := faults + [DependenciesNotAList];
      } else {
        var clean, more := CleanDependencies(raw.dependsOn.value.items);
        deps := clean;
        faults := faults + more;
      }
    }
    if raw.expectedResult.Some? {
      if raw.expectedResult.value.Str? {
        expected := Some(raw.expectedResult.value.s);
      } else if !raw.expectedResult.value.Null? {
        faults := faults + [ExpectedResultNotText];
      }
    }
  }

  /** One step; it is recorded unless one of its first five checks fails. */
  method ParseStep(raw: RawStep, known: set<string>) returns (step: Option<PlanStep>, faults: seq<StepFault>)
    ensures faults == [] <==> StepOk(raw) && Strip(raw.stepId.value.s) !in known
    ensures faults == [] ==> step == Some(StepOf(raw))
    ensures step.Some? ==> step.value.stepId !in known
    ensures forall f: StepFault :: f in faults <==> Faulty(raw, known, f)
    ensures step.Some? <==> Obstacle(raw, known).None?
    ensures step.Some? ==> step.value.stepId == Strip(raw.stepId.value.s)
  {
    hide Tells, Strip;
    if raw.StepFields? {
      TellsIsNonBlank(raw.stepId);
      TellsIsNonBlank(raw.toolName);
    }
    if raw.NotAnObject? {
      return None, [NotAStepObject];
    }
    if !NonBlankField(raw.stepId) {
      return None, [BadStepId];
    }
    var stepId := Strip(raw.stepId.value.s);
    if stepId in known {
      return None, [DuplicateStepId];
    }
    if !NonBlankField(raw.toolName) {
      return None, [BadToolName];
    }
    var toolName := Strip(raw.toolName.value.s);
    if toolName == PROPOSE_PLAN {
      return None, [NestedPlan];
    }
    if !ArgumentsOk(raw.arguments) {
      return None, [ArgumentsNotAnObject];
    }
    var description, deps, expected, more := ParseTail(raw);
    step := Some(PlanStep(stepId, toolName, ArgumentsOf(raw.arguments), description, deps, expected));
    faults := more;
  }

  predicate GoodSteps(items: seq<RawStep>) {
    (forall i :: 0 <= i < |items| ==> StepOk(items[i])) && DistinctIds(StepsOf(items))
  }

  function Ids(steps: seq<PlanStep>): set<string> {
    set s <- steps :: s.stepId
  }

  lemma GoodStepsAppend(items: seq<RawStep>, raw: RawStep)
    ensures GoodSteps(items + [raw]) <==>
            GoodSteps(items) && StepOk(raw) && Strip(raw.stepId.value.s) !in Ids(StepsOf(items))
    ensures GoodSteps(items + [raw]) ==> StepsOf(items + [raw]) == StepsOf(items) + [StepOf(raw)]
  {
    var all := items + [raw];
    if forall i :: 0 <= i < |all| ==> StepOk(all[i]) {
      assert all[|items|] == raw;
      assert forall i :: 0 <= i < |items| ==> all[i] == items[i];
      assert StepsOf(all) == StepsOf(items) + [StepOf(raw)];
      NewId(StepsOf(items), StepOf(raw));
    } else if GoodSteps(items) {
      assert !StepOk(raw);
    }
  }

  lemma NewId(steps: seq<PlanStep>, s: PlanStep)
    ensures DistinctIds(steps + [s]) <==> DistinctIds(steps) && s.stepId !in Ids(steps)
  {
    var all := steps + [s];
    if DistinctIds(all) {
      forall i, j | 0 <= i < j < |steps|
        ensures steps[i].stepId != steps[j].stepId
      {
        assert all[i].stepId != all[j].stepId;
      }
      forall x <- steps
        ensures x.stepId != s.stepId
      {
        var i :| 0 <= i < |steps| && steps[i] == x;
        assert all[i].stepId != all[|steps|].stepId;
      }
    }
  }

  method ParseSteps(items: seq<RawStep>) returns (steps: seq<PlanStep>, errors: seq<PlanError>)
    ensures errors == [] <==> GoodSteps(items)
    ensures errors == [] ==> steps == StepsOf(items)
    ensures forall e <- errors :: e.BadStep?
    ensures ReportsSteps(items, errors)
  {
    hide Faulty, Obstacle;
    steps, errors := [], [];
    for i := 0 to |items|
      invariant errors == [] <==> GoodSteps(items[..i])
      invariant errors == [] ==> steps == StepsOf(items[..i])
      invariant Ids(steps) == ReadIds(items[..i])
      invariant forall e <- errors :: e.BadStep?
      invariant ReportsSteps(items[..i], errors)
    {
      assert items[..i + 1] == items[..i] + [items[i]];
      GoodStepsAppend(items[..i], items[i]);
      var step, faults := ParseStep(items[i], Ids(steps));
      NextReports(items, i, errors, faults);
      NextIds(items, i, steps, step);
      errors := errors + Located(i, faults);
      if step.Some? {
        steps := steps + [step.value];
      }
    }
    assert items[..|items|] == items;
  }

  lemma NextReports(items: seq<RawStep>, i: nat, errors: seq<PlanError>, faults: seq<StepFault>)
    requires i < |items| && ReportsSteps(items[..i], errors)
    requires forall f: StepFault :: f in faults <==> Faulty(items[i], ReadIds(items[..i]), f)
    ensures ReportsSteps(items[..i + 1], errors + Located(i, faults))
  {
    hide Faulty, ReadIds;
    var all := errors + Located(i, faults);
    forall e: PlanError | e.BadStep?
      ensures e in all <==>
              e.index < i + 1 && Faulty(items[..i + 1][e.index], ReadIds(items[..i + 1][..e.index]), e.fault)
    {
      assert e in all <==> e in errors || e in Located(i, faults);
      if e.index <= i {
        assert items[..i + 1][..e.index] == items[..e.index];
        assert e.index < i ==> items[..i][..e.index] == items[..e.index];
      }
      if e.index == i && e.fault in faults {
        var k :| 0 <= k < |faults| && faults[k] == e.fault;
        assert Located(i, faults)[k] == e;
      }
    }
  }

  lemma NextIds(items: seq<RawStep>, i: nat, steps: seq<PlanStep>, step: Option<PlanStep>)
    requires i < |items| && Ids(steps) == ReadIds(items[..i])
    requires step.Some? <==> Obstacle(items[i], Ids(steps)).None?
    requires step.Some? ==> step.value.stepId == Strip(items[i].stepId.value.s)
    ensures Ids(if step.Some? then steps + [step.value] else steps) == ReadIds(items[..i + 1])
  {
    hide Obstacle;
    assert items[..i + 1][..i] == items[..i];
    if step.Some? {
      assert Ids(steps + [step.value]) == Ids(steps) + {step.value.stepId};
    }
  }

  function Located(i: nat, faults: seq<StepFault>): seq<PlanError> {
    seq(|faults|, k requires 0 <= k < |faults| => BadStep(i, faults[k]))
  }

  // ------------------------------------------------------------------------
  // References
  // ------------------------------------------------------------------------

  method CheckTool(reg: Registry, step: PlanStep) returns (errors: seq<PlanError>, risk: Option<Risk>)
    ensures errors == [] <==> ToolOk(reg, step)
    ensures errors == [] ==> risk == Some(reg[step.toolName].risk)
    ensures forall e: PlanError :: e in errors <==> ToolReport(reg, step, e)
  {
    hide Misfit, Conforms;
    if step.toolName !in reg {
      return [UnknownTool(step.stepId)], None;
    }
    var tool := reg[step.toolName];
    var faults := ValidateToolArguments(tool.schema, step.arguments);
    errors := seq(|faults|, k requires 0 <= k < |faults| => BadArguments(step.stepId, faults[k]));
    forall f <- faults
      ensures BadArguments(step.stepId, f) in errors
    {
      var k :| 0 <= k < |faults| && faults[k] == f;
      assert errors[k] == BadArguments(step.stepId, f);
    }
    risk := Some(tool.risk);
  }

  method CheckTools(reg: Registry, steps: seq<PlanStep>) returns (errors: seq<PlanError>, risks: seq<Risk>)
    ensures errors == [] <==> forall i :: 0 <= i < |steps| ==> ToolOk(reg, steps[i])
    ensures errors == [] ==> risks == Risks(reg, steps)
    ensures forall e: PlanError :: e in errors <==> exists s <- steps :: ToolReport(reg, s, e)
  {
    hide ToolReport, ToolOk;
    errors, risks := [], [];
    for i := 0 to |steps|
      invariant errors == [] <==> forall j :: 0 <= j < i ==> ToolOk(reg, steps[j])
      invariant errors == [] ==> forall j :: 0 <= j < i ==> steps[j].toolName in reg
      invariant errors == [] ==> |risks| == i && forall j :: 0 <= j < i ==> risks[j] == reg[steps[j].toolName].risk
      invariant forall e: PlanError :: e in errors <==> exists s <- steps[..i] :: ToolReport(reg, s, e)
    {
      var more, risk := CheckTool(reg, steps[i]);
      ToolsAreKnown(reg, steps[i]);
      assert steps[..i + 1] == steps[..i] + [steps[i]];
      errors := errors + more;
      if risk.Some? {
        risks := risks + [risk.value];
      }
    }
    assert steps[..|steps|] == steps;
  }

  lemma ToolsAreKnown(reg: Registry, s: PlanStep)
    ensures ToolOk(reg, s) ==> s.toolName in reg
  {
  }

  method CheckDependencies(step: PlanStep, known: set<string>) returns (errors: seq<PlanError>)
    ensures errors == [] <==> forall d <- step.dependsOn :: d != step.stepId && d in known
    ensures forall e: PlanError :: e in errors <==> DependencyReport(known, step, e)
  {
    errors := [];
    for j := 0 to |step.dependsOn|
      invariant errors == [] <==> forall k :: 0 <= k < j ==>
                step.dependsOn[k] != step.stepId && step.dependsOn[k] in known
      invariant forall e: PlanError :: e in errors <==>
                DependencyReport(known, step.(dependsOn := step.dependsOn[..j]), e)
    {
      var d := step.dependsOn[j];
      assert step.dependsOn[..j + 1] == step.dependsOn[..j] + [d];
      if d == step.stepId {
        errors := errors + [SelfDependency(step.stepId)];
      } else if d !in known {
        errors := errors + [MissingDependency(step.stepId, d)];
      }
    }
    assert step.dependsOn[..|step.dependsOn|] == step.dependsOn;
    assert forall k :: 0 <= k < |step.dependsOn| ==> step.dependsOn[k] in step.dependsOn;
  }

  method CheckReferences(reg: Registry, steps: seq<PlanStep>) returns (errors: seq<PlanError>, risks: seq<Risk>)
    ensures errors == [] <==> ReferencesOk(reg, steps)
    ensures errors == [] ==> risks == Risks(reg, steps)
    ensures forall e: PlanError :: e in errors <==> ReportsReferences(reg, steps, e)
  {
    hide ToolReport, DependencyReport, ToolOk;
    errors, risks := CheckTools(reg, steps);
    ghost var ofTools := errors;
    for i := 0 to |steps|
      invariant errors == [] <==> ofTools == [] && forall j :: 0 <= j < i ==> DependenciesOk(steps, steps[j])
      invariant forall e: PlanError :: e in errors <==>
                e in ofTools || exists s <- steps[..i] :: DependencyReport(Ids(steps), s, e)
    {
      var more := CheckDependencies(steps[i], Ids(steps));
      forall d
        ensures d in Ids(steps) <==> HasId(steps, d)
      {
      }
      assert steps[..i + 1] == steps[..i] + [steps[i]];
      errors := errors + more;
    }
    assert steps[..|steps|] == steps;
  }

  // ------------------------------------------------------------------------
  // The whole validation
  // ------------------------------------------------------------------------

  /** The checks before the steps are read; false where validation stops at once. */
  method CheckHead(data: RawPlan) returns (errors: seq<PlanError>, proceed: bool)
    ensures proceed ==> data.PlanFields? && data.steps.StepList?
    ensures proceed && errors == [] <==> HeadOk(data)
    ensures !proceed ==> errors != []
    ensures forall e: PlanError :: e in errors <==> ReportsHead(data, e)
    ensures proceed <==> Readable(data)
  {
    if data.PlanFields? {
      TellsIsNonBlank(data.title);
    }
    hide Tells;
    if data.NotAPlanObject? {
      return [NotAnObjectPayload], false;
    }
    errors, proceed := [], false;
    if !NonBlankField(data.title) {
      errors := [BadTitle];
    }
    if !TextField(data.description) {
      errors := errors + [BadDescription];
    }
    match data.steps
    case NoSteps => errors := errors + [StepsMissing];
    case NotAList => errors := errors + [StepsNotAList];
    case StepList(items) =>
      if items == [] {
        errors := errors + [NoStepGiven];
      } else if |items| > MAX_PLAN_STEPS {
        errors := errors + [TooManySteps];
      } else {
        proceed := true;
      }
  }

  predicate Sortable(reg: Registry, data: RawPlan) {
    StructureOk(data) && ReferencesOk(reg, StepsOf(data.steps.items))
  }

  /** The ids of the greatest set of steps that all wait for each other. */
  function StuckIds(data: RawPlan): set<string>
    requires StructureOk(data)
    requires var steps := StepsOf(data.steps.items);
             forall i :: 0 <= i < |steps| ==> DependenciesOk(steps, steps[i])
  {
    var steps := StepsOf(data.steps.items);
    set i | i in TopologyCycles.Leftover(GraphOf(steps)) && i < |steps| :: steps[i].stepId
  }

  /**
   * The errors by stages: those of the plan as a whole and of its steps one by one; if there are none, those of
   * tools and dependencies; and only if there are none of these either, a cycle.
   */
  ghost predicate ReportsExactly(reg: Registry, data: RawPlan, errors: seq<PlanError>) {
    if !StructureOk(data) then
      forall e: PlanError :: e in errors <==>
        || ReportsHead(data, e)
        || (Readable(data) && e.BadStep? && e.index < |data.steps.items|
            && Faulty(data.steps.items[e.index], ReadIds(data.steps.items[..e.index]), e.fault))
    else
      var steps := StepsOf(data.steps.items);
      forall e: PlanError :: !e.DependencyCycle? ==> (e in errors <==> ReportsReferences(reg, steps, e))
  }

  /**
   * Validation returns a plan exactly when it reports no error, and then the plan that `Validate` defines;
   * a cycle is reported exactly when everything else is in order, with exactly the stuck steps.
   */
  method ValidatePlan(reg: Registry, data: RawPlan, freshId: string)
    returns (plan: Option<Plan>, errors: seq<PlanError>)
    ensures plan == Validate(reg, data, freshId)
    ensures errors == [] <==> plan.Some?
    ensures (exists e <- errors :: e.DependencyCycle?) <==> Sortable(reg, data) && plan.None?
    ensures Sortable(reg, data) && plan.None? ==> errors == [DependencyCycle(StuckIds(data))]
    ensures ReportsExactly(reg, data, errors)
  {
    NoCycleYet(reg, data);
    hide ReportsHead, ReportsReferences, Faulty, Conforms, Tells;
    plan := None;
    var proceed;
    errors, proceed := CheckHead(data);
    if !proceed {
      return;
    }
    var items := data.steps.items;
    var steps, more := ParseSteps(items);
    errors := errors + more;
    if errors != [] {
      return;
    }
    assert StructureOk(data);
    var risks;
    errors, risks := CheckReferences(reg, steps);
    if errors != [] {
      return;
    }
    var sorted, stuckIds := SortSteps(steps);
    if stuckIds != {} {
      errors := [DependencyCycle(stuckIds)];
      assert errors[0] in errors;
      return;
    }
    var overall := MaxRiskLevel(risks);
    plan := Some(Plan(PlanIdOf(data.planId, freshId), Strip(data.title.value.s),
                      if data.description.Some? then data.description.value.s else "", sorted, overall));
  }

  lemma NoCycleYet(reg: Registry, data: RawPlan)
    ensures forall e: PlanError :: ReportsHead(data, e) ==> !e.DependencyCycle?
    ensures forall steps, e: PlanError :: ReportsReferences(reg, steps, e) ==> !e.DependencyCycle?
  {
  }

  /** The steps in execution order; when some are stuck, their ids instead. */
  method SortSteps(steps: seq<PlanStep>) returns (sorted: seq<PlanStep>, stuckIds: set<string>)
    requires forall i :: 0 <= i < |steps| ==> DependenciesOk(steps, steps[i])
    ensures stuckIds == set i | i in TopologyCycles.Leftover(GraphOf(steps)) && i < |steps| :: steps[i].stepId
    ensures stuckIds == {} <==> |Topology.Order(GraphOf(steps))| == |steps|
    ensures var order := Topology.Order(GraphOf(steps));
            stuckIds == {} ==> (forall k :: 0 <= k < |order| ==> order[k] < |steps|) && sorted == Arrange(steps, order)
  {
    var g := GraphOf(steps);
    GraphClosed(steps);
    var order, stuck := KahnLoop.KahnSort(g);
    Topology.OrderGreedy(g);
    Topology.OrderedDistinct(g, order);
    StuckIffIncomplete(g);
    stuckIds := set i | i in stuck && i < |steps| :: steps[i].stepId;
    if |order| != |steps| {
      ghost var i :| i in stuck;
      assert steps[i].stepId in stuckIds;
      sorted := [];
      return;
    }
    sorted := ArrangeSteps(steps, order);
  }

  lemma StuckIffIncomplete(g: Topology.Graph)
    requires Topology.Closed(g)
    ensures TopologyCycles.Leftover(g) == {} <==> |Topology.Order(g)| == |g|
  {
    Topology.OrderGreedy(g);
    TopologyCycles.LeftoverGreatest(g);
  }

  method ArrangeSteps(steps: seq<PlanStep>, order: seq<nat>) returns (arranged: seq<PlanStep>)
    requires forall k :: 0 <= k < |order| ==> order[k] < |steps|
    ensures arranged == Arrange(steps, order)
  {
    arranged := [];
    for k := 0 to |order|
      invariant |arranged| == k && forall j :: 0 <= j < k ==> arranged[j] == Seal(steps[order[j]])
    {
      arranged := arranged + [Seal(steps[order[k]])];
    }
  }

  /** Well-formed plans are turned down for one reason only: a chain of dependencies that closes on itself. */
  lemma AcceptedIffAcyclic(reg: Registry, data: RawPlan)
    requires Sortable(reg, data)
    ensures Accepts(reg, data) <==> forall c: seq<nat> :: !TopologyCycles.IsCycle(GraphOf(StepsOf(data.steps.items)), c)
  {
    var steps := StepsOf(data.steps.items);
    GraphClosed(steps);
    TopologyCycles.CompleteIffAcyclic(GraphOf(steps));
  }
}
