/** Validation of execution plans (agent/plan_validator.py). */
module PlanValidator {
  import opened PyText
  import opened PlanModel
  import opened ToolSchema
  import Topology

  const MAX_PLAN_STEPS: nat := 20
  const PROPOSE_PLAN: string := "propose_plan"

  /** A registered tool: its schema and its static risk level. */
  datatype Tool = Tool(schema: Schema, risk: Risk)

  type Registry = map<string, Tool>

  // ------------------------------------------------------------------------
  // Structure
  // ------------------------------------------------------------------------

  predicate NonBlank(v: Value) {
    v.Str? && !Blank(v.s)
  }

  predicate NonBlankField(v: Option<Value>) {
    v.Some? && NonBlank(v.value)
  }

  predicate TextField(v: Option<Value>) {
    v.None? || v.value.Str?
  }

  predicate DepsOk(v: Option<Value>) {
    v.None? || (IsArray(v.value) && forall i :: 0 <= i < |v.value.items| ==> NonBlank(v.value.items[i]))
  }

  function DepsOf(v: Option<Value>): seq<string>
    requires DepsOk(v)
  {
    if v.None? then []
    else seq(|v.value.items|, i requires 0 <= i < |v.value.items| => Strip(v.value.items[i].s))
  }

  predicate ArgumentsOk(v: Option<Value>) {
    v.None? || v.value.Null? || v.value.Dict?
  }

  /** A missing or null argument object counts as an empty one. */
  function ArgumentsOf(v: Option<Value>): Value
    requires ArgumentsOk(v)
  {
    if v.None? || v.value.Null? then Dict(map[]) else v.value
  }

  predicate ExpectedOk(v: Option<Value>) {
    v.None? || v.value.Null? || v.value.Str?
  }

  predicate StepOk(raw: RawStep) {
    && raw.StepFields?
    && NonBlankField(raw.stepId)
    && NonBlankField(raw.toolName) && Strip(raw.toolName.value.s) != PROPOSE_PLAN
    && ArgumentsOk(raw.arguments)
    && TextField(raw.description)
    && DepsOk(raw.dependsOn)
    && ExpectedOk(raw.expectedResult)
  }

  function StepOf(raw: RawStep): PlanStep
    requires StepOk(raw)
  {
    PlanStep(
      Strip(raw.stepId.value.s),
      Strip(raw.toolName.value.s),
      ArgumentsOf(raw.arguments),
      if raw.description.Some? then raw.description.value.s else "",
      DepsOf(raw.dependsOn),
      if raw.expectedResult.Some? && raw.expectedResult.value.Str? then Some(raw.expectedResult.value.s) else None)
  }

  function StepsOf(items: seq<RawStep>): seq<PlanStep>
    requires forall i :: 0 <= i < |items| ==> StepOk(items[i])
  {
    seq(|items|, i requires 0 <= i < |items| => StepOf(items[i]))
  }

  predicate DistinctIds(steps: seq<PlanStep>) {
    forall i, j :: 0 <= i < j < |steps| ==> steps[i].stepId != steps[j].stepId
  }

  predicate HeadOk(data: RawPlan) {
    && data.PlanFields?
    && NonBlankField(data.title)
    && TextField(data.description)
    && data.steps.StepList?
    && 1 <= |data.steps.items| <= MAX_PLAN_STEPS
  }

  predicate StructureOk(data: RawPlan) {
    && HeadOk(data)
    && (forall i :: 0 <= i < |data.steps.items| ==> StepOk(data.steps.items[i]))
    && DistinctIds(StepsOf(data.steps.items))
  }

  // ------------------------------------------------------------------------
  // References
  // ------------------------------------------------------------------------

  predicate HasId(steps: seq<PlanStep>, id: string) {
    exists i :: 0 <= i < |steps| && steps[i].stepId == id
  }

  predicate ToolOk(reg: Registry, s: PlanStep) {
    s.toolName in reg && IsObject(s.arguments) && Conforms(reg[s.toolName].schema, s.arguments.entries)
  }

  predicate DependenciesOk(steps: seq<PlanStep>, s: PlanStep) {
    forall d <- s.dependsOn :: d != s.stepId && HasId(steps, d)
  }

  predicate ReferencesOk(reg: Registry, steps: seq<PlanStep>) {
    forall i :: 0 <= i < |steps| ==> ToolOk(reg, steps[i]) && DependenciesOk(steps, steps[i])
  }

  function IndexOfId(steps: seq<PlanStep>, id: string): (i: nat)
    requires HasId(steps, id)
    ensures i < |steps| && steps[i].stepId == id
  {
    if steps[|steps| - 1].stepId == id then |steps| - 1
    else
      assert HasId(steps[..|steps| - 1], id) by {
        var i :| 0 <= i < |steps| && steps[i].stepId == id;
        assert steps[..|steps| - 1][i].stepId == id;
      }
      IndexOfId(steps[..|steps| - 1], id)
  }

  /** The dependencies of one step by declaration index. */
  function DependencyIndices(steps: seq<PlanStep>, s: PlanStep): seq<nat>
    requires DependenciesOk(steps, s)
  {
    seq(|s.dependsOn|, j requires 0 <= j < |s.dependsOn| =>
      assert s.dependsOn[j] in s.dependsOn; IndexOfId(steps, s.dependsOn[j]))
  }

  function GraphOf(steps: seq<PlanStep>): Topology.Graph
    requires forall i :: 0 <= i < |steps| ==> DependenciesOk(steps, steps[i])
  {
    seq(|steps|, i requires 0 <= i < |steps| => DependencyIndices(steps, steps[i]))
  }

  lemma GraphClosed(steps: seq<PlanStep>)
    requires forall i :: 0 <= i < |steps| ==> DependenciesOk(steps, steps[i])
    ensures Topology.Closed(GraphOf(steps))
  {
    forall i | 0 <= i < |steps|
      ensures forall d <- GraphOf(steps)[i] :: d < |steps|
    {
      assert GraphOf(steps)[i] == DependencyIndices(steps, steps[i]);
    }
  }

  function Risks(reg: Registry, steps: seq<PlanStep>): seq<Risk>
    requires forall i :: 0 <= i < |steps| ==> steps[i].toolName in reg
  {
    seq(|steps|, i requires 0 <= i < |steps| => reg[steps[i].toolName].risk)
  }

  /** Constructing a step freezes its arguments. */
  function Seal(s: PlanStep): PlanStep {
    s.(arguments := Freeze(s.arguments))
  }

  function Arrange(steps: seq<PlanStep>, order: seq<nat>): seq<PlanStep>
    requires forall k :: 0 <= k < |order| ==> order[k] < |steps|
  {
    seq(|order|, k requires 0 <= k < |order| => Seal(steps[order[k]]))
  }

  predicate Accepts(reg: Registry, data: RawPlan) {
    && StructureOk(data)
    && var steps := StepsOf(data.steps.items);
       ReferencesOk(reg, steps) && |Topology.Order(GraphOf(steps))| == |steps|
  }

  function PlanIdOf(v: Option<Value>, freshId: string): string {
    if NonBlankField(v) then Strip(v.value.s) else freshId
  }

  /** The plan that validation produces; `freshId` is used when the payload names none. */
  function PlanOf(reg: Registry, data: RawPlan, freshId: string): Plan
    requires Accepts(reg, data)
  {
    var steps := StepsOf(data.steps.items);
    var order := Topology.Order(GraphOf(steps));
    Topology.OrderGreedy(GraphOf(steps));
    Topology.OrderedDistinct(GraphOf(steps), order);
    Plan(
      PlanIdOf(data.planId, freshId),
      Strip(data.title.value.s),
      if data.description.Some? then data.description.value.s else "",
      Arrange(steps, order),
      MaxRisk(Risks(reg, steps)))
  }

  function Validate(reg: Registry, data: RawPlan, freshId: string): Option<Plan> {
    if Accepts(reg, data) then Some(PlanOf(reg, data, freshId)) else None
  }

  // ------------------------------------------------------------------------
  // Validated plans are fixed points of validation
  // ------------------------------------------------------------------------

  predicate Clean(s: string) {
    s != "" && Strip(s) == s
  }

  lemma StripClean(s: string)
    ensures !Blank(s) ==> Clean(Strip(s))
    ensures Clean(s) ==> !Blank(s)
  {
    StripIdempotent(s);
  }

  predicate CleanStep(s: PlanStep) {
    && Clean(s.stepId) && Clean(s.toolName) && s.toolName != PROPOSE_PLAN
    && (forall i :: 0 <= i < |s.dependsOn| ==> Clean(s.dependsOn[i]))
    && s.arguments.Proxy? && Freeze(Unfreeze(s.arguments)) == s.arguments
  }

  /** Every dependency names a step listed before. */
  predicate DependenciesBefore(steps: seq<PlanStep>) {
    forall k :: 0 <= k < |steps| ==> forall d <- steps[k].dependsOn :: HasId(steps[..k], d)
  }

  /** What validation guarantees of the plans it returns. */
  predicate Canonical(reg: Registry, p: Plan) {
    && Clean(p.planId) && Clean(p.title)
    && 1 <= |p.steps| <= MAX_PLAN_STEPS
    && (forall k :: 0 <= k < |p.steps| ==> CleanStep(p.steps[k]) && ToolOk(reg, Thaw(p.steps[k])))
    && DistinctIds(p.steps)
    && DependenciesBefore(p.steps)
    && p.overallRisk == MaxRisk(Risks(reg, p.steps))
  }

  function Thaw(s: PlanStep): PlanStep {
    s.(arguments := Unfreeze(s.arguments))
  }

  function ThawAll(steps: seq<PlanStep>): seq<PlanStep> {
    seq(|steps|, i requires 0 <= i < |steps| => Thaw(steps[i]))
  }

  lemma SerializedStep(s: PlanStep)
    requires CleanStep(s)
    ensures StepOk(StepToDict(s)) && StepOf(StepToDict(s)) == Thaw(s)
  {
    StripClean(s.stepId);
    StripClean(s.toolName);
    var raw := StepToDict(s);
    forall i | 0 <= i < |s.dependsOn|
      ensures NonBlank(raw.dependsOn.value.items[i])
    {
      StripClean(s.dependsOn[i]);
    }
    assert DepsOf(raw.dependsOn) == s.dependsOn;
  }

  lemma HasIdMonotone(steps: seq<PlanStep>, k: nat, id: string)
    requires k <= |steps| && HasId(steps[..k], id)
    ensures HasId(steps, id)
    ensures DistinctIds(steps) ==> IndexOfId(steps, id) < k
  {
    var j :| 0 <= j < k && steps[..k][j].stepId == id;
    assert steps[j].stepId == id;
  }

  /** The dependency graph of steps listed after their dependencies points backwards. */
  lemma BackwardGraph(steps: seq<PlanStep>)
    requires DistinctIds(steps) && DependenciesBefore(steps)
    ensures forall k :: 0 <= k < |steps| ==> DependenciesOk(steps, steps[k])
    ensures Topology.Order(GraphOf(steps)) == seq(|steps|, i => i)
  {
    forall k | 0 <= k < |steps|
      ensures DependenciesOk(steps, steps[k])
      ensures forall d <- steps[k].dependsOn :: HasId(steps, d) && IndexOfId(steps, d) < k
    {
      forall d <- steps[k].dependsOn
        ensures HasId(steps, d) && IndexOfId(steps, d) < k && d != steps[k].stepId
      {
        HasIdMonotone(steps, k, d);
      }
    }
    var g := GraphOf(steps);
    forall i | 0 <= i < |g|
      ensures forall d <- g[i] :: d < i
    {
      assert g[i] == DependencyIndices(steps, steps[i]);
      forall j | 0 <= j < |g[i]|
        ensures g[i][j] < i
      {
        assert steps[i].dependsOn[j] in steps[i].dependsOn;
      }
    }
    Topology.SortedStaysPut(g);
  }

  lemma ThawKeepsShape(steps: seq<PlanStep>)
    requires DistinctIds(steps) && DependenciesBefore(steps)
    ensures DistinctIds(ThawAll(steps)) && DependenciesBefore(ThawAll(steps))
  {
    var t := ThawAll(steps);
    forall k, d | 0 <= k < |t| && d in t[k].dependsOn
      ensures HasId(t[..k], d)
    {
      assert HasId(steps[..k], d);
      var j :| 0 <= j < k && steps[..k][j].stepId == d;
      assert t[..k][j].stepId == d;
    }
  }

  lemma SerializedSteps(steps: seq<PlanStep>)
    requires forall i :: 0 <= i < |steps| ==> CleanStep(steps[i])
    ensures forall i :: 0 <= i < |steps| ==> StepOk(StepsToDicts(steps)[i])
    ensures StepsOf(StepsToDicts(steps)) == ThawAll(steps)
  {
    forall i | 0 <= i < |steps|
      ensures StepOk(StepsToDicts(steps)[i]) && StepOf(StepsToDicts(steps)[i]) == Thaw(steps[i])
    {
      SerializedStep(steps[i]);
    }
  }

  /** Steps listed after their dependencies, thawed, sorted and frozen again, are the same steps. */
  lemma ResealedSteps(reg: Registry, steps: seq<PlanStep>)
    requires DistinctIds(steps) && DependenciesBefore(steps)
    requires forall k :: 0 <= k < |steps| ==> CleanStep(steps[k]) && ToolOk(reg, Thaw(steps[k]))
    ensures DistinctIds(ThawAll(steps)) && ReferencesOk(reg, ThawAll(steps))
    ensures Topology.Order(GraphOf(ThawAll(steps))) == seq(|steps|, i => i)
    ensures Arrange(ThawAll(steps), seq(|steps|, i => i)) == steps
    ensures Risks(reg, ThawAll(steps)) == Risks(reg, steps)
  {
    ThawKeepsShape(steps);
    BackwardGraph(ThawAll(steps));
  }

  /** A canonical plan, written out and validated again, is accepted and comes back unchanged. */
  lemma CanonicalIsFixedPoint(reg: Registry, p: Plan, freshId: string)
    requires Canonical(reg, p)
    ensures Validate(reg, PlanToDict(p), freshId) == Some(p)
  {
    var data := PlanToDict(p);
    StripClean(p.title);
    StripClean(p.planId);
    SerializedSteps(p.steps);
    ResealedSteps(reg, p.steps);
    assert Accepts(reg, data);
  }

  predicate ThawedArguments(data: RawPlan) {
    data.PlanFields? && data.steps.StepList? ==>
      forall i :: 0 <= i < |data.steps.items| ==>
        var raw := data.steps.items[i];
        raw.StepFields? && raw.arguments.Some? ==> Thawed(raw.arguments.value)
  }

  /** The payload of a decoded JSON object holds no frozen value. */
  lemma DecodedArguments(entries: map<string, Value>)
    requires Thawed(Dict(entries))
    ensures ThawedArguments(Payload(entries))
  {
    if "steps" in entries {
      assert Thawed(entries["steps"]);
    }
  }

  lemma CleanParsedStep(raw: RawStep)
    requires StepOk(raw) && (raw.arguments.Some? ==> Thawed(raw.arguments.value))
    ensures CleanStep(Seal(StepOf(raw))) && Thaw(Seal(StepOf(raw))) == StepOf(raw)
  {
    var s := StepOf(raw);
    StripClean(raw.stepId.value.s);
    StripClean(raw.toolName.value.s);
    forall i | 0 <= i < |s.dependsOn|
      ensures Clean(s.dependsOn[i])
    {
      StripClean(raw.dependsOn.value.items[i].s);
    }
    FreezeRoundTrip(s.arguments);
  }

  /** Sorted steps come after what they depend on, each of them once. */
  lemma ArrangedOrder(steps: seq<PlanStep>, order: seq<nat>)
    requires DistinctIds(steps)
    requires forall i :: 0 <= i < |steps| ==> DependenciesOk(steps, steps[i])
    requires Topology.TopologicalOrder(GraphOf(steps), order)
    ensures forall k :: 0 <= k < |order| ==> order[k] < |steps|
    ensures DistinctIds(Arrange(steps, order)) && DependenciesBefore(Arrange(steps, order))
  {
    var g := GraphOf(steps);
    Topology.OrderedDistinct(g, order);
    var arranged := Arrange(steps, order);
    forall i, j | 0 <= i < j < |arranged|
      ensures arranged[i].stepId != arranged[j].stepId
    {
      assert order[i] != order[j];
    }
    forall k, d | 0 <= k < |arranged| && d in arranged[k].dependsOn
      ensures HasId(arranged[..k], d)
    {
      var s := steps[order[k]];
      var j :| 0 <= j < |s.dependsOn| && s.dependsOn[j] == d;
      assert g[order[k]] == DependencyIndices(steps, s);
      assert g[order[k]][j] in g[order[k]];
      assert Topology.Available(g, order[..k], order[k]);
      var m :| 0 <= m < k && order[..k][m] == g[order[k]][j];
      assert arranged[..k][m].stepId == d;
    }
  }

  lemma ArrangedRisks(reg: Registry, steps: seq<PlanStep>, order: seq<nat>)
    requires forall i :: 0 <= i < |steps| ==> steps[i].toolName in reg
    requires |order| == |steps| && forall k :: 0 <= k < |order| ==> order[k] < |steps|
    requires forall x: nat :: x < |steps| ==> x in order
    ensures MaxRisk(Risks(reg, Arrange(steps, order))) == MaxRisk(Risks(reg, steps))
  {
    var a, b := Risks(reg, Arrange(steps, order)), Risks(reg, steps);
    forall r
      ensures r in a <==> r in b
    {
      if r in a {
        var k :| 0 <= k < |a| && a[k] == r;
        assert b[order[k]] == r;
      }
      if r in b {
        var x :| 0 <= x < |b| && b[x] == r;
        assert x in order;
        var k :| 0 <= k < |order| && order[k] == x;
        assert a[k] == r;
      }
    }
    MaxRiskOrderFree(a, b);
  }

  /** Every plan that validation returns for a JSON payload is canonical. */
  lemma ValidatedIsCanonical(reg: Registry, data: RawPlan, freshId: string)
    requires Accepts(reg, data) && ThawedArguments(data) && Clean(freshId)
    ensures Canonical(reg, PlanOf(reg, data, freshId))
  {
    var p := PlanOf(reg, data, freshId);
    var items := data.steps.items;
    var steps := StepsOf(items);
    var g := GraphOf(steps);
    var order := Topology.Order(g);
    Topology.CompleteIsTopological(g);
    Topology.OrderedDistinct(g, order);
    ArrangedOrder(steps, order);
    ArrangedRisks(reg, steps, order);
    StripClean(data.title.value.s);
    if NonBlankField(data.planId) {
      StripClean(data.planId.value.s);
    }
    forall k | 0 <= k < |p.steps|
      ensures CleanStep(p.steps[k]) && ToolOk(reg, Thaw(p.steps[k]))
    {
      CleanParsedStep(items[order[k]]);
    }
  }

  /**
   * The plan that was reviewed is the plan that runs: validating a validated plan again succeeds and
   * returns the same steps in the same order with the same arguments and the same overall risk.
   */
  lemma RevalidationIsIdentity(reg: Registry, data: RawPlan, freshId: string, otherId: string)
    requires ThawedArguments(data) && Clean(freshId)
    requires Validate(reg, data, freshId).Some?
    ensures var p := Validate(reg, data, freshId).value;
            Validate(reg, PlanToDict(p), otherId) == Some(p)
  {
    ValidatedIsCanonical(reg, data, freshId);
    CanonicalIsFixedPoint(reg, PlanOf(reg, data, freshId), otherId);
  }

  // ------------------------------------------------------------------------
  // A validated plan shows what was proposed
  // ------------------------------------------------------------------------

  /** The step says what its JSON object says, key by key; texts that name something are stripped. */
  predicate SaysTheSame(e: map<string, Value>, s: PlanStep) {
    && "step_id" in e && e["step_id"].Str? && s.stepId == Strip(e["step_id"].s)
    && "tool_name" in e && e["tool_name"].Str? && s.toolName == Strip(e["tool_name"].s)
    && (if "arguments" in e && !e["arguments"].Null? then s.arguments == Freeze(e["arguments"])
        else s.arguments == Proxy(map[]))
    && (if "description" in e then Str(s.description) == e["description"] else s.description == "")
    && (if "depends_on" in e then
          && IsArray(e["depends_on"]) && |s.dependsOn| == |e["depends_on"].items|
          && forall i :: 0 <= i < |s.dependsOn| ==>
               e["depends_on"].items[i].Str? && s.dependsOn[i] == Strip(e["depends_on"].items[i].s)
        else s.dependsOn == [])
    && (if "expected_result" in e && !e["expected_result"].Null?
        then s.expectedResult.Some? && Str(s.expectedResult.value) == e["expected_result"]
        else s.expectedResult.None?)
  }

  lemma StepSaysTheSame(v: Value)
    requires StepOk(RawStepOf(v))
    ensures v.Dict? && SaysTheSame(v.entries, Seal(StepOf(RawStepOf(v))))
  {
    hide Freeze, Strip;
    EmptyFrozen();
  }

  lemma EmptyFrozen()
    ensures Freeze(Dict(map[])) == Proxy(map[])
  {
  }

  /** The plan says what its JSON object says, key by key; each step comes from one item of the list. */
  predicate ShowsProposal(e: map<string, Value>, freshId: string, p: Plan, order: seq<nat>) {
    && "title" in e && e["title"].Str? && p.title == Strip(e["title"].s)
    && (if "description" in e then Str(p.description) == e["description"] else p.description == "")
    && (if "plan_id" in e && e["plan_id"].Str? && !Blank(e["plan_id"].s) then p.planId == Strip(e["plan_id"].s)
        else p.planId == freshId)
    && "steps" in e && IsArray(e["steps"])
    && |p.steps| == |order| == |e["steps"].items|
    && forall k :: 0 <= k < |order| ==>
         order[k] < |e["steps"].items| && e["steps"].items[order[k]].Dict?
         && SaysTheSame(e["steps"].items[order[k]].entries, p.steps[k])
  }

  /**
   * A plan that validation returns for a JSON object shows that object: its steps are the items of the list, each
   * of them once, in dependency order, and every field holds what stands under its key.
   */
  lemma ValidatedShowsProposal(reg: Registry, e: map<string, Value>, freshId: string)
    requires Accepts(reg, Payload(e))
    ensures var p := PlanOf(reg, Payload(e), freshId);
            exists order: seq<nat> :: ShowsProposal(e, freshId, p, order) && forall x: nat :: x < |order| ==> x in order
  {
    hide StepOk, RawStepOf, SaysTheSame, Strip;
    var data := Payload(e);
    var p := PlanOf(reg, data, freshId);
    var steps := StepsOf(data.steps.items);
    var g := GraphOf(steps);
    var order := Topology.Order(g);
    Topology.CompleteIsTopological(g);
    Topology.OrderedDistinct(g, order);
    forall k | 0 <= k < |order|
      ensures order[k] < |steps| && e["steps"].items[order[k]].Dict?
      ensures SaysTheSame(e["steps"].items[order[k]].entries, p.steps[k])
    {
      StepSaysTheSame(e["steps"].items[order[k]]);
    }
    assert ShowsProposal(e, freshId, p, order);
  }
}
