/** Fail-fast execution of validated plans (agent/plan_executor.py). */
module PlanExecutor {
  import opened PyText
  import opened PlanModel
  import opened PlanValidator
  import PlanChecks
  import PlanReview

  datatype StepStatus = COMPLETED | FAILED | SKIPPED | CANCELLED

  datatype StepResult = StepResult(stepId: string, toolName: string, status: StepStatus)

  /** `completed` is the plan status; `dispatched` records the steps handed to a tool, in order. */
  datatype Summary = Summary(
    planId: string,
    completed: bool,
    stepsTotal: nat,
    stepsCompleted: nat,
    results: seq<StepResult>,
    dispatched: seq<PlanStep>)

  /** What running a step yields; an exception is turned into a failure. */
  datatype StepOutcome = Succeeded | Failed | Crashed

  /**
   * The executor's surroundings: the policy's verdict on a step (None without a policy), the approval
   * hook (None without a hook), and the outcome of the n-th dispatch.
   */
  datatype Setting = Setting(
    needsApproval: Option<PlanStep -> bool>,
    hook: Option<PlanStep -> bool>,
    run: (nat, PlanStep) -> StepOutcome)

  /** A step that needs approval is held back only by a hook that says no. */
  predicate Refused(env: Setting, s: PlanStep) {
    && env.needsApproval.Some? && env.needsApproval.value(s)
    && env.hook.Some? && !env.hook.value(s)
  }

  datatype Progress = Progress(
    completedIds: set<string>,
    results: seq<StepResult>,
    failed: bool,
    dispatched: seq<PlanStep>)

  function Record(p: Progress, s: PlanStep, status: StepStatus): Progress {
    p.(results := p.results + [StepResult(s.stepId, s.toolName, status)])
  }

  predicate UnmetDependencies(p: Progress, s: PlanStep) {
    exists d <- s.dependsOn :: d !in p.completedIds
  }

  function ExecuteStep(reg: Registry, env: Setting, p: Progress, s: PlanStep): Progress {
    if p.failed then Record(p, s, SKIPPED)
    else if UnmetDependencies(p, s) then Record(p, s, SKIPPED).(failed := true)
    else if s.toolName !in reg then Record(p, s, FAILED).(failed := true)
    else if Refused(env, s) then Record(p, s, CANCELLED).(failed := true)
    else
      var q := p.(dispatched := p.dispatched + [s]);
      if env.run(|p.dispatched|, s).Succeeded?
      then Record(q, s, COMPLETED).(completedIds := q.completedIds + {s.stepId})
      else Record(q, s, FAILED).(failed := true)
  }

  function ExecuteSteps(reg: Registry, env: Setting, steps: seq<PlanStep>): Progress {
    if steps == [] then Progress({}, [], false, [])
    else ExecuteStep(reg, env, ExecuteSteps(reg, env, steps[..|steps| - 1]), steps[|steps| - 1])
  }

  predicate Nests(steps: seq<PlanStep>) {
    exists s <- steps :: s.toolName == PROPOSE_PLAN
  }

  /** Executing a plan object: it is written out, validated again and run. */
  function Execute(reg: Registry, env: Setting, raw: Plan, freshId: string): Summary {
    match Validate(reg, PlanToDict(raw), freshId)
    case None => Summary(raw.planId, false, |raw.steps|, 0, [], [])
    case Some(plan) => ExecuteValid(reg, env, plan)
  }

  function ExecuteValid(reg: Registry, env: Setting, plan: Plan): Summary {
    if Nests(plan.steps) then Summary(plan.planId, false, |plan.steps|, 0, [], [])
    else
      var p := ExecuteSteps(reg, env, plan.steps);
      Summary(plan.planId, !p.failed, |plan.steps|, |p.completedIds|, p.results, p.dispatched)
  }

  method ExecutePlan(reg: Registry, env: Setting, raw: Plan, freshId: string) returns (summary: Summary)
    ensures summary == Execute(reg, env, raw, freshId)
  {
    var validated, errors := PlanChecks.ValidatePlan(reg, PlanToDict(raw), freshId);
    if validated.None? {
      return Summary(raw.planId, false, |raw.steps|, 0, [], []);
    }
    summary := RunValid(reg, env, validated.value);
  }

  method RunValid(reg: Registry, env: Setting, plan: Plan) returns (summary: Summary)
    ensures summary == ExecuteValid(reg, env, plan)
  {
    for i := 0 to |plan.steps|
      invariant forall j :: 0 <= j < i ==> plan.steps[j].toolName != PROPOSE_PLAN
    {
      if plan.steps[i].toolName == PROPOSE_PLAN {
        assert Nests(plan.steps);
        return Summary(plan.planId, false, |plan.steps|, 0, [], []);
      }
    }
    var completedIds: set<string>, results: seq<StepResult>, hasFailed := {}, [], false;
    var dispatched: seq<PlanStep> := [];
    for i := 0 to |plan.steps|
      invariant ExecuteSteps(reg, env, plan.steps[..i]) == Progress(completedIds, results, hasFailed, dispatched)
    {
      var step := plan.steps[i];
      assert plan.steps[..i + 1][..i] == plan.steps[..i];
      if hasFailed {
        results := results + [StepResult(step.stepId, step.toolName, SKIPPED)];
        continue;
      }
      if exists d <- step.dependsOn :: d !in completedIds {
        hasFailed := true;
        results := results + [StepResult(step.stepId, step.toolName, SKIPPED)];
        continue;
      }
      if step.toolName !in reg {
        hasFailed := true;
        results := results + [StepResult(step.stepId, step.toolName, FAILED)];
        continue;
      }
      if env.needsApproval.Some? && env.needsApproval.value(step) {
        if env.hook.Some? {
          var isApproved := env.hook.value(step);
          if !isApproved {
            hasFailed := true;
            results := results + [StepResult(step.stepId, step.toolName, CANCELLED)];
            continue;
          }
        }
      }
      var outcome := env.run(|dispatched|, step);
      dispatched := dispatched + [step];
      if outcome.Succeeded? {
        completedIds := completedIds + {step.stepId};
        results := results + [StepResult(step.stepId, step.toolName, COMPLETED)];
      } else {
        hasFailed := true;
        results := results + [StepResult(step.stepId, step.toolName, FAILED)];
      }
    }
    assert plan.steps[..|plan.steps|] == plan.steps;
    summary := Summary(plan.planId, !hasFailed, |plan.steps|, |completedIds|, results, dispatched);
  }

  // ------------------------------------------------------------------------
  // The shape of every execution
  // ------------------------------------------------------------------------

  function StepIds(steps: seq<PlanStep>): set<string> {
    set s <- steps :: s.stepId
  }

  predicate Matches(results: seq<StepResult>, steps: seq<PlanStep>) {
    && |results| == |steps|
    && forall i :: 0 <= i < |steps| ==>
         results[i].stepId == steps[i].stepId && results[i].toolName == steps[i].toolName
  }

  /** Without a policy or a hook every step passes; else those the policy passes and those the hook allows. */
  predicate LetThrough(env: Setting, s: PlanStep) {
    env.needsApproval.None? || env.hook.None? || (env.needsApproval.value(s) ==> env.hook.value(s))
  }

  /**
   * The first k steps completed; the next one failed in its tool or was refused at the gate; none after
   * it was touched.
   */
  predicate TraceShape(env: Setting, steps: seq<PlanStep>, results: seq<StepResult>, dispatched: seq<PlanStep>, k: nat)
    requires k <= |steps|
  {
    && Matches(results, steps)
    && (forall i :: 0 <= i < k ==> results[i].status == COMPLETED && env.run(i, steps[i]).Succeeded?)
    && (forall i :: k < i < |steps| ==> results[i].status == SKIPPED)
    && (if k == |steps| then dispatched == steps
        else if results[k].status == CANCELLED then !LetThrough(env, steps[k]) && dispatched == steps[..k]
        else
          && results[k].status == FAILED && !env.run(k, steps[k]).Succeeded?
          && dispatched == steps[..k + 1])
    && forall i :: 0 <= i < |dispatched| ==> LetThrough(env, steps[i])
  }

  lemma PrefixKeeps(steps: seq<PlanStep>, n: nat)
    requires n <= |steps| && DistinctIds(steps) && DependenciesBefore(steps)
    ensures DistinctIds(steps[..n]) && DependenciesBefore(steps[..n])
  {
    forall k | 0 <= k < n
      ensures forall d <- steps[..n][k].dependsOn :: HasId(steps[..n][..k], d)
    {
      assert steps[..n][..k] == steps[..k];
    }
  }

  predicate Shaped(env: Setting, steps: seq<PlanStep>, p: Progress, k: nat) {
    && k <= |steps|
    && TraceShape(env, steps, p.results, p.dispatched, k)
    && p.completedIds == StepIds(steps[..k])
    && p.failed == (k < |steps|)
  }

  /** A step after a failure is skipped. */
  lemma ShapeAfterFailure(reg: Registry, env: Setting, steps: seq<PlanStep>, p: Progress, s: PlanStep, k: nat)
    requires Shaped(env, steps, p, k) && p.failed
    ensures Shaped(env, steps + [s], ExecuteStep(reg, env, p, s), k)
  {
    assert (steps + [s])[..k] == steps[..k];
    assert (steps + [s])[..k + 1] == steps[..k + 1];
  }

  lemma RefusedExactly(env: Setting, s: PlanStep)
    ensures Refused(env, s) <==> !LetThrough(env, s)
  {
  }

  lemma ShapeNext(reg: Registry, env: Setting, steps: seq<PlanStep>, p: Progress, s: PlanStep) returns (k: nat)
    requires Shaped(env, steps, p, |steps|)
    requires s.toolName in reg && forall d <- s.dependsOn :: HasId(steps, d)
    ensures Shaped(env, steps + [s], ExecuteStep(reg, env, p, s), k)
  {
    assert steps[..|steps|] == steps;
    assert (steps + [s])[..|steps|] == steps;
    assert (steps + [s])[..|steps| + 1] == steps + [s];
    assert !UnmetDependencies(p, s);
    hide UnmetDependencies, HasId, Refused, LetThrough;
    RefusedExactly(env, s);
    k := |steps|;
    if !Refused(env, s) && env.run(|steps|, s).Succeeded? {
      k := |steps| + 1;
      assert StepIds(steps + [s]) == StepIds(steps) + {s.stepId};
    }
  }

  lemma {:induction false} ExecuteStepsShape(reg: Registry, env: Setting, steps: seq<PlanStep>) returns (k: nat)
    requires DistinctIds(steps) && DependenciesBefore(steps)
    requires forall i :: 0 <= i < |steps| ==> steps[i].toolName in reg
    ensures Shaped(env, steps, ExecuteSteps(reg, env, steps), k)
  {
    if steps == [] {
      k := 0;
    } else {
      var n := |steps| - 1;
      var front, s := steps[..n], steps[n];
      assert steps == front + [s];
      PrefixKeeps(steps, n);
      k := ExecuteStepsShape(reg, env, front);
      var p := ExecuteSteps(reg, env, front);
      if p.failed {
        ShapeAfterFailure(reg, env, front, p, s, k);
      } else {
        k := ShapeNext(reg, env, front, p, s);
      }
    }
  }

  lemma StepIdsCount(steps: seq<PlanStep>)
    requires DistinctIds(steps)
    ensures |StepIds(steps)| == |steps|
  {
    if steps != [] {
      var front, s := steps[..|steps| - 1], steps[|steps| - 1];
      StepIdsCount(front);
      assert StepIds(steps) == StepIds(front) + {s.stepId};
    }
  }

  /** Whatever was dispatched had all its dependencies completed, and nothing was dispatched twice. */
  lemma DispatchesInOrder(env: Setting, steps: seq<PlanStep>, results: seq<StepResult>, dispatched: seq<PlanStep>,
                          k: nat)
    requires DistinctIds(steps) && DependenciesBefore(steps)
    requires k <= |steps| && TraceShape(env, steps, results, dispatched, k)
    ensures forall j :: 0 <= j < |dispatched| ==>
              forall d <- dispatched[j].dependsOn :: CompletedBefore(results, j, d)
    ensures DistinctIds(dispatched)
  {
    forall j, d | 0 <= j < |dispatched| && d in dispatched[j].dependsOn
      ensures CompletedBefore(results, j, d)
    {
      assert HasId(steps[..j], d);
      var m :| 0 <= m < j && steps[..j][m].stepId == d;
      assert results[m].stepId == d;
    }
  }

  /**
   * Every execution of a validated plan, whatever its tools do: one result per step in plan order, k
   * steps completed, then at most one failed or refused, then only skipped ones. Exactly the completed
   * steps, and the failed one if it was not refused, went to their tools: each once, in plan order, and
   * each after all it depends on had completed.
   */
  lemma ExecutionShape(reg: Registry, env: Setting, plan: Plan, freshId: string) returns (k: nat)
    requires Canonical(reg, plan)
    ensures k <= |plan.steps|
    ensures var summary := Execute(reg, env, plan, freshId);
            && summary.planId == plan.planId && summary.stepsTotal == |plan.steps|
            && summary.stepsCompleted == k
            && (summary.completed <==> k == |plan.steps|)
            && TraceShape(env, plan.steps, summary.results, summary.dispatched, k)
            && (forall j :: 0 <= j < |summary.dispatched| ==>
                  forall d <- summary.dispatched[j].dependsOn :: CompletedBefore(summary.results, j, d))
            && DistinctIds(summary.dispatched)
  {
    CanonicalIsFixedPoint(reg, plan, freshId);
    PlanReview.CanonicalTools(reg, plan);
    k := ValidShape(reg, env, plan);
  }

  lemma ValidShape(reg: Registry, env: Setting, plan: Plan) returns (k: nat)
    requires DistinctIds(plan.steps) && DependenciesBefore(plan.steps)
    requires forall i :: 0 <= i < |plan.steps| ==>
               plan.steps[i].toolName in reg && plan.steps[i].toolName != PROPOSE_PLAN
    ensures k <= |plan.steps|
    ensures var summary := ExecuteValid(reg, env, plan);
            && summary.planId == plan.planId && summary.stepsTotal == |plan.steps|
            && summary.stepsCompleted == k
            && (summary.completed <==> k == |plan.steps|)
            && TraceShape(env, plan.steps, summary.results, summary.dispatched, k)
            && (forall j :: 0 <= j < |summary.dispatched| ==>
                  forall d <- summary.dispatched[j].dependsOn :: CompletedBefore(summary.results, j, d))
            && DistinctIds(summary.dispatched)
  {
    k := ExecuteStepsShape(reg, env, plan.steps);
    var p := ExecuteSteps(reg, env, plan.steps);
    PrefixKeeps(plan.steps, k);
    StepIdsCount(plan.steps[..k]);
    DispatchesInOrder(env, plan.steps, p.results, p.dispatched, k);
  }

  /** A plan that is not valid runs no tool, whoever hands it over. */
  lemma InvalidRunsNothing(reg: Registry, env: Setting, plan: Plan, freshId: string)
    requires Validate(reg, PlanToDict(plan), freshId).None?
    ensures Execute(reg, env, plan, freshId) == Summary(plan.planId, false, |plan.steps|, 0, [], [])
  {
  }

  /** One of the first j results is a completion of step `id`. */
  predicate CompletedBefore(results: seq<StepResult>, j: nat, id: string) {
    exists m :: 0 <= m < j && m < |results| && results[m].stepId == id && results[m].status == COMPLETED
  }

  /** No execution of a validated plan meets an unmet dependency or an unknown tool. */
  lemma DependenciesAlwaysMet(reg: Registry, env: Setting, plan: Plan, i: nat)
    requires Canonical(reg, plan) && i < |plan.steps|
    requires !ExecuteSteps(reg, env, plan.steps[..i]).failed
    ensures !UnmetDependencies(ExecuteSteps(reg, env, plan.steps[..i]), plan.steps[i])
    ensures plan.steps[i].toolName in reg
  {
    PlanReview.CanonicalTools(reg, plan);
    PrefixKeeps(plan.steps, i);
    MetAfterSuccess(reg, env, plan.steps[..i], plan.steps[i]);
  }

  lemma MetAfterSuccess(reg: Registry, env: Setting, front: seq<PlanStep>, s: PlanStep)
    requires DistinctIds(front) && DependenciesBefore(front)
    requires forall j :: 0 <= j < |front| ==> front[j].toolName in reg
    requires forall d <- s.dependsOn :: HasId(front, d)
    requires !ExecuteSteps(reg, env, front).failed
    ensures !UnmetDependencies(ExecuteSteps(reg, env, front), s)
  {
    var k := ExecuteStepsShape(reg, env, front);
    assert front[..k] == front;
  }

  lemma DispatchedPrefix(env: Setting, steps: seq<PlanStep>, results: seq<StepResult>, dispatched: seq<PlanStep>,
                         k: nat)
    returns (m: nat)
    requires k <= |steps| && TraceShape(env, steps, results, dispatched, k)
    ensures m <= |steps| && dispatched == steps[..m] && (k == |steps| ==> m == k)
  {
    m := |dispatched|;
    assert steps[..|steps|] == steps;
  }

  /** The dispatched steps are a prefix of the plan, and all of it when the plan completed. */
  lemma ExecutedPrefix(reg: Registry, env: Setting, plan: Plan, freshId: string) returns (m: nat)
    requires Canonical(reg, plan)
    ensures m <= |plan.steps| && Execute(reg, env, plan, freshId).dispatched == plan.steps[..m]
    ensures Execute(reg, env, plan, freshId).completed ==> m == |plan.steps|
  {
    var k := ExecutionShape(reg, env, plan, freshId);
    var summary := Execute(reg, env, plan, freshId);
    m := DispatchedPrefix(env, plan.steps, summary.results, summary.dispatched, k);
  }

  /** The tools received the first steps of the review in its order, and all of them if the plan completed. */
  predicate RunsAsShown(review: PlanReview.Review, summary: Summary) {
    && |summary.dispatched| <= |review.steps| == |review.plan.steps|
    && summary.dispatched == review.plan.steps[..|summary.dispatched|]
    && (forall j :: 0 <= j < |summary.dispatched| ==>
          && summary.dispatched[j].stepId == review.steps[j].stepId
          && summary.dispatched[j].toolName == review.steps[j].toolName)
    && (summary.completed ==> |summary.dispatched| == |review.steps|)
  }

  lemma PrefixAsShown(reg: Registry, review: PlanReview.Review, summary: Summary, m: nat)
    requires PlanReview.Shows(reg, review)
    requires m <= |review.plan.steps| && summary.dispatched == review.plan.steps[..m]
    requires summary.completed ==> m == |review.plan.steps|
    ensures RunsAsShown(review, summary)
  {
  }

  /**
   * What runs after approval is what was shown: the tools receive a prefix of the steps of the review, in
   * the order of the review, with the arguments of the reviewed plan.
   */
  lemma ReviewedIsExecuted(reg: Registry, env: Setting, data: RawPlan, describe: PlanReview.Describer,
                           freshId: string, otherId: string)
    requires ThawedArguments(data) && Clean(freshId)
    requires PlanReview.ReviewOf(reg, data, freshId, describe).Some?
    ensures var review := PlanReview.ReviewOf(reg, data, freshId, describe).value;
            RunsAsShown(review, Execute(reg, env, review.plan, otherId))
  {
    PlanReview.ReviewShowsPlan(reg, data, freshId, describe);
    ShownIsExecuted(reg, env, PlanReview.ReviewOf(reg, data, freshId, describe).value, otherId);
  }

  lemma ShownIsExecuted(reg: Registry, env: Setting, review: PlanReview.Review, otherId: string)
    requires Canonical(reg, review.plan) && PlanReview.Shows(reg, review)
    ensures RunsAsShown(review, Execute(reg, env, review.plan, otherId))
  {
    var m := ExecutedPrefix(reg, env, review.plan, otherId);
    PrefixAsShown(reg, review, Execute(reg, env, review.plan, otherId), m);
  }
}
