/** What the user is shown before a plan runs (agent/plan_review.py). */
module PlanReview {
  import opened PyText
  import opened PlanModel
  import opened PlanValidator
  import PlanChecks
  import Policy
  import ToolSchema

  datatype ReviewStep = ReviewStep(stepId: string, toolName: string, description: string, risk: Risk)

  datatype Review = Review(plan: Plan, steps: seq<ReviewStep>, overallRisk: Risk)

  /** The policy's text for a tool and its arguments. */
  type Describer = (string, Value) -> string

  function StaticRisk(reg: Registry, toolName: string): Risk {
    if toolName in reg then reg[toolName].risk else HIGH
  }

  function ReviewStepOf(reg: Registry, s: PlanStep, describe: Describer): ReviewStep {
    ReviewStep(s.stepId, s.toolName,
               if s.description != "" then Strip(s.description) else describe(s.toolName, s.arguments),
               StaticRisk(reg, s.toolName))
  }

  function ReviewSteps(reg: Registry, steps: seq<PlanStep>, describe: Describer): seq<ReviewStep> {
    seq(|steps|, i requires 0 <= i < |steps| => ReviewStepOf(reg, steps[i], describe))
  }

  /** A step without a description of its own whose call cannot be described. */
  predicate Undescribed(s: PlanStep) {
    s.description == "" && ToolSchema.IsObject(s.arguments) && Policy.DescriptionRaises(s.toolName, s.arguments.entries)
  }

  predicate AnyUndescribed(steps: seq<PlanStep>) {
    exists s <- steps :: Undescribed(s)
  }

  function StepRisks(steps: seq<ReviewStep>): seq<Risk> {
    seq(|steps|, i requires 0 <= i < |steps| => steps[i].risk)
  }

  function ReviewOfPlan(reg: Registry, plan: Plan, describe: Describer): Review {
    var steps := ReviewSteps(reg, plan.steps, describe);
    Review(plan, steps, MaxRisk(StepRisks(steps)))
  }

  /** None where the plan is not valid or the description of a step raises. */
  function ReviewOf(reg: Registry, data: RawPlan, freshId: string, describe: Describer): Option<Review> {
    match Validate(reg, data, freshId)
    case None => None
    case Some(plan) => if AnyUndescribed(plan.steps) then None else Some(ReviewOfPlan(reg, plan, describe))
  }

  method BuildPlanReview(reg: Registry, data: RawPlan, freshId: string, describe: Describer)
    returns (review: Option<Review>, errors: seq<PlanChecks.PlanError>, raised: bool)
    ensures review == ReviewOf(reg, data, freshId, describe)
    ensures errors == [] <==> review.Some? || raised
    ensures raised <==> Validate(reg, data, freshId).Some? && AnyUndescribed(Validate(reg, data, freshId).value.steps)
  {
    var plan;
    plan, errors := PlanChecks.ValidatePlan(reg, data, freshId);
    review, raised := None, false;
    if plan.Some? {
      review := ReviewPlan(reg, plan.value, describe);
      raised := review.None?;
    }
  }

  method ReviewPlan(reg: Registry, plan: Plan, describe: Describer) returns (review: Option<Review>)
    ensures review == if AnyUndescribed(plan.steps) then None else Some(ReviewOfPlan(reg, plan, describe))
  {
    var steps := plan.steps;
    var reviewSteps: seq<ReviewStep>, risks: seq<Risk> := [], [];
    for i := 0 to |steps|
      invariant |reviewSteps| == |risks| == i
      invariant forall j :: 0 <= j < i ==> reviewSteps[j] == ReviewStepOf(reg, steps[j], describe)
      invariant forall j :: 0 <= j < i ==> risks[j] == reviewSteps[j].risk
      invariant forall j :: 0 <= j < i ==> !Undescribed(steps[j])
    {
      if Undescribed(steps[i]) {
        return None;
      }
      var shown := ReviewStepOf(reg, steps[i], describe);
      risks := risks + [shown.risk];
      reviewSteps := reviewSteps + [shown];
    }
    assert reviewSteps == ReviewSteps(reg, steps, describe);
    assert risks == StepRisks(reviewSteps);
    var overall := MaxRiskLevel(risks);
    review := Some(Review(plan, reviewSteps, overall));
  }

  /**
   * The review lists the steps of its plan one for one, with their registered risks and the plan's own overall
   * risk.
   */
  predicate Shows(reg: Registry, review: Review) {
    && |review.steps| == |review.plan.steps|
    && (forall k :: 0 <= k < |review.steps| ==>
          && review.steps[k].stepId == review.plan.steps[k].stepId
          && review.steps[k].toolName == review.plan.steps[k].toolName
          && review.plan.steps[k].toolName in reg
          && review.steps[k].risk == reg[review.plan.steps[k].toolName].risk
          && review.steps[k].risk.Rank() <= review.overallRisk.Rank())
    && (exists k :: 0 <= k < |review.steps| && review.steps[k].risk == review.overallRisk)
    && review.overallRisk == review.plan.overallRisk
  }

  lemma ReviewShows(reg: Registry, plan: Plan, describe: Describer)
    requires plan.steps != [] && forall k :: 0 <= k < |plan.steps| ==> plan.steps[k].toolName in reg
    requires plan.overallRisk == MaxRisk(Risks(reg, plan.steps))
    ensures Shows(reg, ReviewOfPlan(reg, plan, describe))
  {
    var review := ReviewOfPlan(reg, plan, describe);
    var risks := StepRisks(review.steps);
    assert risks == Risks(reg, plan.steps);
    MaxRiskIsMaximum(risks);
    forall k | 0 <= k < |review.steps|
      ensures review.steps[k].risk.Rank() <= review.overallRisk.Rank()
    {
      assert review.steps[k].risk == risks[k];
    }
    var k :| 0 <= k < |risks| && risks[k] == review.overallRisk;
    assert review.steps[k].risk == review.overallRisk;
  }

  lemma CanonicalTools(reg: Registry, plan: Plan)
    requires Canonical(reg, plan)
    ensures forall k :: 0 <= k < |plan.steps| ==>
              plan.steps[k].toolName in reg && plan.steps[k].toolName != PROPOSE_PLAN
  {
    forall k | 0 <= k < |plan.steps|
      ensures plan.steps[k].toolName in reg && plan.steps[k].toolName != PROPOSE_PLAN
    {
      assert ToolOk(reg, Thaw(plan.steps[k]));
    }
  }

  lemma ThawedTexts(v: Value, a: string)
    requires ToolSchema.IsObject(v) && a in v.entries && Unfreeze(v).entries[a].Str?
    ensures v.entries[a].Str?
  {
  }

  lemma ConformingStep(reg: Registry, s: PlanStep)
    requires ToolOk(reg, Thaw(s)) && Policy.DeclaresTexts(reg[s.toolName].schema, s.toolName)
    ensures !Undescribed(s)
  {
    hide Policy.DescribedArguments;
    if ToolSchema.IsObject(s.arguments) {
      var thawed := Unfreeze(s.arguments).entries;
      Policy.ConformingDescription(reg[s.toolName].schema, s.toolName, thawed);
      forall a <- Policy.DescribedArguments(s.toolName) | a in s.arguments.entries
        ensures s.arguments.entries[a].Str?
      {
        assert a in thawed;
        ThawedTexts(s.arguments, a);
      }
    }
  }

  /**
   * For tools whose schemas declare the described arguments to be strings, exactly the validated plans have a
   * review.
   */
  lemma ValidatedIsReviewed(reg: Registry, data: RawPlan, freshId: string, describe: Describer)
    requires ThawedArguments(data) && Clean(freshId)
    requires forall t <- reg :: Policy.DeclaresTexts(reg[t].schema, t)
    ensures ReviewOf(reg, data, freshId, describe).Some? <==> Validate(reg, data, freshId).Some?
  {
    hide Policy.DeclaresTexts, Undescribed;
    if Validate(reg, data, freshId).Some? {
      var plan := Validate(reg, data, freshId).value;
      ValidatedIsCanonical(reg, data, freshId);
      forall s <- plan.steps
        ensures !Undescribed(s)
      {
        assert ToolOk(reg, Thaw(s));
        ConformingStep(reg, s);
      }
    }
  }

  /** A validated plan has no review exactly if a step without a description of its own cannot be described. */
  lemma ReviewedExactly(reg: Registry, data: RawPlan, freshId: string, describe: Describer)
    requires ThawedArguments(data) && Clean(freshId)
    ensures ReviewOf(reg, data, freshId, describe).Some? <==>
            && Validate(reg, data, freshId).Some?
            && forall s <- Validate(reg, data, freshId).value.steps ::
                 && s.arguments.Proxy?
                 && (s.description != "" || !Policy.DescriptionRaises(s.toolName, s.arguments.entries))
    ensures ReviewOf(reg, data, freshId, describe).Some? ==>
            Some(ReviewOf(reg, data, freshId, describe).value.plan) == Validate(reg, data, freshId)
  {
    hide Policy.DescriptionRaises;
    if Validate(reg, data, freshId).Some? {
      var plan := Validate(reg, data, freshId).value;
      ValidatedIsCanonical(reg, data, freshId);
      forall s <- plan.steps
        ensures s.arguments.Proxy?
      {
        assert CleanStep(s);
      }
    }
  }

  /** Every review shows a validated plan in full; its overall risk is reached by a step and exceeded by none. */
  lemma ReviewShowsPlan(reg: Registry, data: RawPlan, freshId: string, describe: Describer)
    requires ThawedArguments(data) && Clean(freshId)
    requires ReviewOf(reg, data, freshId, describe).Some?
    ensures var review := ReviewOf(reg, data, freshId, describe).value;
            && Canonical(reg, review.plan) && Shows(reg, review)
            && (forall k :: 0 <= k < |review.steps| ==>
                  var s := review.plan.steps[k];
                  review.steps[k].description ==
                  if s.description == "" then describe(s.toolName, s.arguments) else Strip(s.description))
  {
    var plan := Validate(reg, data, freshId).value;
    ValidatedIsCanonical(reg, data, freshId);
    CanonicalTools(reg, plan);
    ReviewShows(reg, plan, describe);
  }
}
