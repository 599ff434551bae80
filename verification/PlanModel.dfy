/** Plans, their steps, and the deep freezing of step arguments (agent/plan_models.py). */
module PlanModel {
  import opened PyText

  /** The Python values of a plan payload; `Tuple` and `Proxy` are the frozen forms of `List` and `Dict`. */
  datatype Value =
    | Null
    | Bool(b: bool)
    | Int(n: int)
    | Float(r: real)
    | Str(s: string)
    | List(items: seq<Value>)
    | Tuple(items: seq<Value>)
    | Dict(entries: map<string, Value>)
    | Proxy(entries: map<string, Value>)

  function Freeze(v: Value): Value {
    match v
    case Dict(m) => Proxy(map k <- m :: Freeze(m[k]))
    case Proxy(m) => Proxy(map k <- m :: Freeze(m[k]))
    case List(s) => Tuple(seq(|s|, i requires 0 <= i < |s| => Freeze(s[i])))
    case Tuple(s) => Tuple(seq(|s|, i requires 0 <= i < |s| => Freeze(s[i])))
    case _ => v
  }

  function Unfreeze(v: Value): Value {
    match v
    case Dict(m) => Dict(map k <- m :: Unfreeze(m[k]))
    case Proxy(m) => Dict(map k <- m :: Unfreeze(m[k]))
    case List(s) => List(seq(|s|, i requires 0 <= i < |s| => Unfreeze(s[i])))
    case Tuple(s) => List(seq(|s|, i requires 0 <= i < |s| => Unfreeze(s[i])))
    case _ => v
  }

  /** A value as JSON decoding yields it: no frozen part anywhere. */
  predicate Thawed(v: Value) {
    match v
    case Dict(m) => forall k <- m :: Thawed(m[k])
    case List(s) => forall i :: 0 <= i < |s| ==> Thawed(s[i])
    case Tuple(_) => false
    case Proxy(_) => false
    case _ => true
  }

  /** No mutable part is left anywhere. */
  predicate Frozen(v: Value) {
    match v
    case Proxy(m) => forall k <- m :: Frozen(m[k])
    case Tuple(s) => forall i :: 0 <= i < |s| ==> Frozen(s[i])
    case Dict(_) => false
    case List(_) => false
    case _ => true
  }

  /** Freezing leaves nothing mutable, thawing leaves nothing frozen. */
  lemma {:induction false} FreezeFreezes(v: Value)
    ensures Frozen(Freeze(v)) && Thawed(Unfreeze(v))
  {
    match v
    case Dict(m) => forall k <- m { FreezeFreezes(m[k]); }
    case Proxy(m) => forall k <- m { FreezeFreezes(m[k]); }
    case List(s) => forall i | 0 <= i < |s| { FreezeFreezes(s[i]); }
    case Tuple(s) => forall i | 0 <= i < |s| { FreezeFreezes(s[i]); }
    case _ =>
  }

  lemma ThawFrozenMap(m: map<string, Value>)
    requires forall k <- m :: Unfreeze(Freeze(m[k])) == Unfreeze(m[k])
    ensures Unfreeze(Freeze(Dict(m))) == Unfreeze(Dict(m)) && Unfreeze(Freeze(Proxy(m))) == Unfreeze(Proxy(m))
  {
    var frozen := map k <- m :: Freeze(m[k]);
    assert Freeze(Dict(m)) == Freeze(Proxy(m)) == Proxy(frozen);
    assert (map k <- frozen :: Unfreeze(frozen[k])) == (map k <- m :: Unfreeze(m[k]));
  }

  lemma ThawFrozenItems(s: seq<Value>)
    requires forall i :: 0 <= i < |s| ==> Unfreeze(Freeze(s[i])) == Unfreeze(s[i])
    ensures Unfreeze(Freeze(List(s))) == Unfreeze(List(s)) && Unfreeze(Freeze(Tuple(s))) == Unfreeze(Tuple(s))
  {
  }

  /** Freezing before thawing changes nothing. */
  lemma {:induction false} UnfreezeFreeze(v: Value)
    ensures Unfreeze(Freeze(v)) == Unfreeze(v)
  {
    match v
    case Dict(m) =>
      forall k <- m { UnfreezeFreeze(m[k]); }
      ThawFrozenMap(m);
    case Proxy(m) =>
      forall k <- m { UnfreezeFreeze(m[k]); }
      ThawFrozenMap(m);
    case List(s) =>
      forall i | 0 <= i < |s| { UnfreezeFreeze(s[i]); }
      ThawFrozenItems(s);
    case Tuple(s) =>
      forall i | 0 <= i < |s| { UnfreezeFreeze(s[i]); }
      ThawFrozenItems(s);
    case _ =>
  }

  lemma FreezeThawedMap(m: map<string, Value>)
    requires forall k <- m :: Freeze(Unfreeze(m[k])) == Freeze(m[k])
    ensures Freeze(Unfreeze(Dict(m))) == Freeze(Dict(m)) && Freeze(Unfreeze(Proxy(m))) == Freeze(Proxy(m))
  {
    var thawed := map k <- m :: Unfreeze(m[k]);
    assert Unfreeze(Dict(m)) == Unfreeze(Proxy(m)) == Dict(thawed);
    assert (map k <- thawed :: Freeze(thawed[k])) == (map k <- m :: Freeze(m[k]));
  }

  lemma FreezeThawedItems(s: seq<Value>)
    requires forall i :: 0 <= i < |s| ==> Freeze(Unfreeze(s[i])) == Freeze(s[i])
    ensures Freeze(Unfreeze(List(s))) == Freeze(List(s)) && Freeze(Unfreeze(Tuple(s))) == Freeze(Tuple(s))
  {
  }

  /** Thawing before freezing changes nothing. */
  lemma {:induction false} FreezeUnfreeze(v: Value)
    ensures Freeze(Unfreeze(v)) == Freeze(v)
  {
    match v
    case Dict(m) =>
      forall k <- m { FreezeUnfreeze(m[k]); }
      FreezeThawedMap(m);
    case Proxy(m) =>
      forall k <- m { FreezeUnfreeze(m[k]); }
      FreezeThawedMap(m);
    case List(s) =>
      forall i | 0 <= i < |s| { FreezeUnfreeze(s[i]); }
      FreezeThawedItems(s);
    case Tuple(s) =>
      forall i | 0 <= i < |s| { FreezeUnfreeze(s[i]); }
      FreezeThawedItems(s);
    case _ =>
  }

  lemma {:induction false} ThawedStays(v: Value)
    ensures Thawed(v) ==> Unfreeze(v) == v
  {
    match v
    case Dict(m) => forall k <- m { ThawedStays(m[k]); }
    case Proxy(m) => forall k <- m { ThawedStays(m[k]); }
    case List(s) => forall i | 0 <= i < |s| { ThawedStays(s[i]); }
    case Tuple(s) => forall i | 0 <= i < |s| { ThawedStays(s[i]); }
    case _ =>
  }

  /** A JSON value survives freezing and thawing unchanged. */
  lemma {:induction false} FreezeRoundTrip(v: Value)
    ensures Unfreeze(Freeze(v)) == v <==> Thawed(v)
    ensures Freeze(Unfreeze(Freeze(v))) == Freeze(v)
  {
    UnfreezeFreeze(v);
    FreezeUnfreeze(v);
    ThawedStays(v);
    FreezeFreezes(v);
  }

  // ------------------------------------------------------------------------
  // Risk levels
  // ------------------------------------------------------------------------

  datatype Risk = READ_ONLY | LOW | MEDIUM | HIGH | CRITICAL {
    function Rank(): nat {
      match this case READ_ONLY => 0 case LOW => 1 case MEDIUM => 2 case HIGH => 3 case CRITICAL => 4
    }
  }

  /** The levels in increasing order. */
  lemma RankOrder(a: Risk, b: Risk)
    ensures var levels := [READ_ONLY, LOW, MEDIUM, HIGH, CRITICAL];
            a.Rank() < b.Rank() <==> exists i, j :: 0 <= i < j < |levels| && levels[i] == a && levels[j] == b
  {
    var levels := [READ_ONLY, LOW, MEDIUM, HIGH, CRITICAL];
    assert levels[a.Rank()] == a && levels[b.Rank()] == b;
  }

  /** The maximal level, LOW for an empty list. */
  method MaxRiskLevel(risks: seq<Risk>) returns (r: Risk)
    ensures r == MaxRisk(risks)
  {
    if risks == [] {
      return LOW;
    }
    r := risks[0];
    for i := 1 to |risks|
      invariant r == MaxRisk(risks[..i])
    {
      assert risks[..i + 1][..i] == risks[..i];
      if risks[i].Rank() > r.Rank() {
        r := risks[i];
      }
    }
    assert risks[..|risks|] == risks;
  }

  function MaxRisk(risks: seq<Risk>): Risk {
    if risks == [] then LOW
    else if |risks| == 1 then risks[0]
    else
      var front, last := MaxRisk(risks[..|risks| - 1]), risks[|risks| - 1];
      if last.Rank() > front.Rank() then last else front
  }

  lemma {:induction false} MaxRiskIsMaximum(risks: seq<Risk>)
    requires risks != []
    ensures MaxRisk(risks) in risks && forall r <- risks :: r.Rank() <= MaxRisk(risks).Rank()
  {
    if |risks| > 1 {
      var front := risks[..|risks| - 1];
      MaxRiskIsMaximum(front);
      assert risks == front + [risks[|risks| - 1]];
    }
  }

  /** The overall risk depends on which levels occur, not on the order of the steps. */
  lemma MaxRiskOrderFree(a: seq<Risk>, b: seq<Risk>)
    requires forall r :: r in a <==> r in b
    ensures MaxRisk(a) == MaxRisk(b)
  {
    if a != [] {
      assert a[0] in a;
      MaxRiskIsMaximum(a);
    }
    if b != [] {
      assert b[0] in b;
      MaxRiskIsMaximum(b);
    }
  }

  // ------------------------------------------------------------------------
  // Plans
  // ------------------------------------------------------------------------

  /** A step; in a validated plan its arguments are frozen. */
  datatype PlanStep = PlanStep(
    stepId: string,
    toolName: string,
    arguments: Value,
    description: string,
    dependsOn: seq<string>,
    expectedResult: Option<string>)

  datatype Plan = Plan(planId: string, title: string, description: string, steps: seq<PlanStep>, overallRisk: Risk)

  /** A step object of a plan payload, field by field; None where the key is missing. */
  datatype RawStep =
    | NotAnObject
    | StepFields(
        stepId: Option<Value>,
        toolName: Option<Value>,
        arguments: Option<Value>,
        description: Option<Value>,
        dependsOn: Option<Value>,
        expectedResult: Option<Value>)

  datatype RawSteps = NoSteps | NotAList | StepList(items: seq<RawStep>)

  /** A plan payload; other keys, such as a claimed risk, are never read. */
  datatype RawPlan =
    | NotAPlanObject
    | PlanFields(planId: Option<Value>, title: Option<Value>, description: Option<Value>, steps: RawSteps)

  function Field(entries: map<string, Value>, key: string): Option<Value> {
    if key in entries then Some(entries[key]) else None
  }

  function RawStepOf(v: Value): RawStep {
    if !v.Dict? then NotAnObject
    else StepFields(Field(v.entries, "step_id"), Field(v.entries, "tool_name"), Field(v.entries, "arguments"),
                    Field(v.entries, "description"), Field(v.entries, "depends_on"),
                    Field(v.entries, "expected_result"))
  }

  function RawStepsOf(v: Option<Value>): RawSteps {
    if v.None? || v.value.Null? then NoSteps
    else if v.value.List? || v.value.Tuple? then
      StepList(seq(|v.value.items|, i requires 0 <= i < |v.value.items| => RawStepOf(v.value.items[i])))
    else NotAList
  }

  /** The fields that validation reads from a decoded argument object. */
  function Payload(entries: map<string, Value>): RawPlan {
    PlanFields(Field(entries, "plan_id"), Field(entries, "title"), Field(entries, "description"),
               RawStepsOf(Field(entries, "steps")))
  }

  function Strings(ss: seq<string>): Value {
    List(seq(|ss|, i requires 0 <= i < |ss| => Str(ss[i])))
  }

  function StepToDict(s: PlanStep): RawStep {
    StepFields(Some(Str(s.stepId)), Some(Str(s.toolName)), Some(Unfreeze(s.arguments)), Some(Str(s.description)),
               Some(Strings(s.dependsOn)),
               if s.expectedResult.Some? then Some(Str(s.expectedResult.value)) else None)
  }

  function StepsToDicts(steps: seq<PlanStep>): seq<RawStep> {
    seq(|steps|, i requires 0 <= i < |steps| => StepToDict(steps[i]))
  }

  function PlanToDict(p: Plan): RawPlan {
    PlanFields(Some(Str(p.planId)), Some(Str(p.title)), Some(Str(p.description)), StepList(StepsToDicts(p.steps)))
  }

  // ------------------------------------------------------------------------
  // Plans as JSON objects
  // ------------------------------------------------------------------------

  function StepEntries(s: PlanStep): map<string, Value> {
    var m := map["step_id" := Str(s.stepId), "tool_name" := Str(s.toolName), "arguments" := Unfreeze(s.arguments),
                 "description" := Str(s.description), "depends_on" := Strings(s.dependsOn)];
    if s.expectedResult.Some? then m["expected_result" := Str(s.expectedResult.value)] else m
  }

  function RiskText(r: Risk): string {
    match r
    case READ_ONLY => "READ_ONLY"
    case LOW => "LOW"
    case MEDIUM => "MEDIUM"
    case HIGH => "HIGH"
    case CRITICAL => "CRITICAL"
  }

  /** The object that a plan is written as. */
  function PlanEntries(p: Plan): map<string, Value> {
    map["plan_id" := Str(p.planId), "title" := Str(p.title), "description" := Str(p.description),
        "steps" := List(seq(|p.steps|, i requires 0 <= i < |p.steps| => Dict(StepEntries(p.steps[i])))),
        "overall_risk" := Str(RiskText(p.overallRisk))]
  }

  lemma WrittenStepIsRead(s: PlanStep)
    ensures RawStepOf(Dict(StepEntries(s))) == StepToDict(s)
  {
  }

  /** What validation reads of a written plan: every field under its own key. */
  lemma WrittenPlanIsRead(p: Plan)
    ensures Payload(PlanEntries(p)) == PlanToDict(p)
  {
    hide StepEntries, RawStepOf, StepToDict;
    var items := PlanEntries(p)["steps"].items;
    forall i | 0 <= i < |p.steps|
      ensures RawStepOf(items[i]) == StepToDict(p.steps[i])
    {
      WrittenStepIsRead(p.steps[i]);
    }
    assert RawStepsOf(Some(PlanEntries(p)["steps"])).items == StepsToDicts(p.steps);
  }
}
