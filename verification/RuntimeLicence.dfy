/** Every log that the runtime can produce is lawful for the reference monitor. */
module RuntimeLicence {
  import opened PyText
  import opened Chat
  import opened StateMachine
  import opened RuntimeLog
  import opened Runtime
  import opened RuntimeShape
  import PlanModel
  import PlanValidator
  import PlanReview
  import PlanExecutor
  import Policy

  // ------------------------------------------------------------------------
  // What the surroundings are trusted with
  // ------------------------------------------------------------------------

  /** Decoded JSON holds no frozen values. */
  ghost predicate Sound(cfg: Config) {
    forall text :: PlanModel.Thawed(PlanModel.Dict(cfg.rules.decode(text)))
  }

  /** Generated plan ids carry no surrounding blanks. */
  predicate SoundEnv(env: Env) {
    PlanValidator.Clean(env.freshPlanId)
  }

  predicate SoundStep(step: Step) {
    step.DoSubmit? || step.DoPump? || step.DoProcess? ==> SoundEnv(step.env)
  }

  predicate SoundSteps(steps: seq<Step>) {
    forall i :: 0 <= i < |steps| ==> SoundStep(steps[i])
  }

  // ------------------------------------------------------------------------
  // The invariant
  // ------------------------------------------------------------------------

  /** The effect names a turn and an approval that have been given out. */
  predicate Known(e: Effect, counter: nat, nextApproval: nat) {
    && e.turn <= counter
    && (e.CallRequested? || e.PlanReviewed? || e.PlanRun? || e.Approved? || e.Rejected? ==> e.id < nextApproval)
    && (e.CallDispatched? && e.licence.Some? ==> e.licence.value < nextApproval)
  }

  predicate AllKnown(h: Log, counter: nat, nextApproval: nat) {
    forall e <- h :: Known(e, counter, nextApproval)
  }

  predicate CallOnRecord(s: State) {
    s.pendingCall.Some? ==>
      var p := s.pendingCall.value;
      && CallRequested(p.turn, p.id, p.call) in s.log && !Settled(s.log, p.id) && !Granted(s.log, p.id)
      && p.call.toolName != PlanValidator.PROPOSE_PLAN
  }

  predicate PlanOnRecord(cfg: Config, s: State) {
    s.pendingPlan.Some? ==>
      var p := s.pendingPlan.value;
      && PlanReviewed(p.turn, p.id, p.review.plan) in s.log && !Settled(s.log, p.id) && !Granted(s.log, p.id)
      && PlanValidator.Canonical(cfg.rules.registry, p.review.plan)
      && p.review.overallRisk == p.review.plan.overallRisk
  }

  predicate Books(cfg: Config, s: State) {
    Lawful(cfg.rules, s.log) && AllKnown(s.log, s.counter, s.nextApproval)
  }

  /** The account of turn t while the main thread serves it: rounds and repairs used so far. */
  predicate Account(cfg: Config, s: State, t: nat) {
    && Books(cfg, s) && Open(s.log, t) && t <= s.counter
    && Tasks(s.log, t) <= s.round <= AtLeastZero(cfg.rules.maxToolRounds)
    && Repairs(s.log, t) <= s.repairs
    && (PlanFailed(s.log, t) ==> RepairProposal(s.results))
  }

  /** As `Account`, with one more task handed to the worker. */
  predicate OpenAccount(cfg: Config, s: State, t: nat) {
    && Books(cfg, s) && Open(s.log, t) && t <= s.counter
    && Tasks(s.log, t) <= s.round + 1 && s.round <= AtLeastZero(cfg.rules.maxToolRounds)
    && Repairs(s.log, t) <= s.repairs
    && (PlanFailed(s.log, t) ==> RepairProposal(s.results))
  }

  ghost predicate LicenceInv(cfg: Config, s: State) {
    && ShapeInv(s)
    && Books(cfg, s)
    && CallOnRecord(s) && PlanOnRecord(cfg, s)
    && (s.turn.Some? ==>
          if s.phase == PENDING_APPROVAL then Account(cfg, s, s.counter) else OpenAccount(cfg, s, s.counter))
  }

  // ------------------------------------------------------------------------
  // Writing to the log
  // ------------------------------------------------------------------------

  lemma OpenAppend(h: Log, e: Effect, t: nat)
    ensures !e.Ended? ==> (Open(h, t) ==> Open(h + [e], t))
    ensures forall x <- h :: x in h + [e]
    ensures forall id: nat :: Settled(h + [e], id) <==> Settled(h, id) || Settles(e, id)
    ensures forall id: nat :: Granted(h + [e], id) <==> Granted(h, id) || Grants(e, id)
  {
    var all := h + [e];
    assert e in all;
    forall id: nat | Granted(h, id)
      ensures Granted(all, id)
    {
      var x :| x in h && Grants(x, id);
      assert x in all;
    }
    forall id: nat | Settled(h, id)
      ensures Settled(all, id)
    {
      var x :| x in h && Settles(x, id);
      assert x in all;
    }
  }

  lemma FreshId(cfg: Config, s: State)
    requires Books(cfg, s)
    ensures !Asked(s.log, s.nextApproval) && !Settled(s.log, s.nextApproval) && !Granted(s.log, s.nextApproval)
  {
    forall e <- s.log
      ensures !Asks(e, s.nextApproval) && !Settles(e, s.nextApproval) && !Grants(e, s.nextApproval)
    {
      assert Known(e, s.counter, s.nextApproval);
    }
  }

  lemma NoteBooks(cfg: Config, s: State, e: Effect)
    requires Books(cfg, s) && Permits(cfg.rules, s.log, e) && Known(e, s.counter, s.nextApproval)
    ensures Books(cfg, Note(s, e))
  {
    LawfulAppend(cfg.rules, s.log, e);
  }

  /** An effect of turn t that is neither its end, nor a task, nor a failed plan run. */
  lemma NoteAccount(cfg: Config, s: State, t: nat, e: Effect)
    requires Account(cfg, s, t) && Permits(cfg.rules, s.log, e) && Known(e, s.counter, s.nextApproval)
    requires !e.Ended? && !e.TaskSubmitted? && !FailedRun(e, t)
    requires e.PlanReviewed? && e.turn == t && PlanFailed(s.log, t) ==> Repairs(s.log, t) < s.repairs
    ensures Account(cfg, Note(s, e), t)
  {
    hide Lawful, Permits, RepairProposal;
    NoteBooks(cfg, s, e);
    OpenAppend(s.log, e, t);
    CountsAppend(s.log, e, t);
  }

  lemma SubmitTaskLicence(cfg: Config, s: State, t: nat)
    requires Account(cfg, s, t)
    ensures OpenAccount(cfg, SubmitTask(s, t), t)
  {
    hide Lawful, RepairProposal;
    var e := TaskSubmitted(t);
    assert Permits(cfg.rules, s.log, e) && Known(e, s.counter, s.nextApproval);
    NoteBooks(cfg, s, e);
    OpenAppend(s.log, e, t);
    CountsAppend(s.log, e, t);
  }

  lemma CloseLicence(cfg: Config, s: State, t: nat)
    requires Books(cfg, s) && Open(s.log, t) && t <= s.counter
    ensures Books(cfg, Close(s, t))
  {
    hide Lawful;
    NoteBooks(cfg, s, Ended(t));
  }

  // ------------------------------------------------------------------------
  // Serving a turn
  // ------------------------------------------------------------------------

  lemma FailLicence(cfg: Config, s: State, t: nat, kind: ErrorKind)
    requires Serving(s, t) || Serving(s.(streaming := ""), t)
    requires Books(cfg, s) && Open(s.log, t)
    ensures LicenceInv(cfg, Fail(s, t, kind).state)
  {
    hide Lawful, AllKnown, ShapeInv;
    FailShape(s, t, kind);
    CloseLicence(cfg, Post(s.(phase := ERROR), AgentError(t, kind)), t);
  }

  lemma DelegateLicence(cfg: Config, s: State, t: nat, env: Env)
    requires Serving(s, t) && s.phase == PROCESSING && Account(cfg, s, t)
    ensures LicenceInv(cfg, Delegate(s, t, env).state)
  {
    hide Books, ShapeInv, Fail, RepairProposal;
    DelegateShape(s, t, env);
    if env.imagesFound {
      SubmitTaskLicence(cfg, s, t);
      assert Books(cfg, SubmitTask(s, t));
    } else {
      FailLicence(cfg, s, t, IMAGE_NOT_FOUND);
    }
  }

  /** The licence of a dispatch: the policy, or a request on record. */
  predicate Licensed(cfg: Config, s: State, t: nat, call: ToolCall, id: Option<nat>) {
    && call.toolName != PlanValidator.PROPOSE_PLAN
    && (match id
        case None => !Gated(cfg.rules, call)
        case Some(i) =>
          && CallRequested(t, i, call) in s.log && Approved(t, i) in s.log && !Settled(s.log, i)
          && i < s.nextApproval)
  }

  lemma RecordToolLicence(cfg: Config, s: State, t: nat, call: ToolCall, id: Option<nat>, reply: ToolReply)
    requires Serving(s, t) && Account(cfg, s, t) && Licensed(cfg, s, t, call, id) && !reply.Raises?
    ensures var r := RecordTool(cfg, s, t, call, id, reply);
            Serving(r, t) && r.phase == s.phase && Account(cfg, r, t)
  {
    hide Lawful, AllKnown, Gated, RepairProposal, NothingInFlight, Unharmed, Numbered, Settled;
    RecordToolShape(cfg, s, t, call, id, reply);
    var e := CallDispatched(t, id, call);
    NoteAccount(cfg, s, t, e);
    ResultsGrow(s.results, ToolResult(call.toolName, if reply.Succeeds? then OK else FAILED));
  }

  lemma StrandLicence(cfg: Config, s: State, t: nat, call: ToolCall, id: Option<nat>, kept: Option<bool>)
    requires Serving(s, t) && s.phase == EXECUTING_TOOL && Account(cfg, s, t) && Licensed(cfg, s, t, call, id)
    ensures LicenceInv(cfg, Strand(s, t, call, id, kept))
  {
    hide Books, ShapeInv, RepairProposal, Numbered, NothingInFlight, Mishaps, Licensed;
    StrandShape(s, t, call, id, kept);
    StrandAccount(cfg, s, t, call, id);
    var r := Note(Note(s, CallDispatched(t, id, call)), CallRaised(t, call));
    if kept.Some? {
      KeptAccount(cfg, r, t, ToolResult(call.toolName, if kept.value then OK else FAILED));
    }
    ServingTurn(s, t);
    StrandedOpen(cfg, Strand(s, t, call, id, kept));
  }

  lemma StrandedOpen(cfg: Config, s: State)
    requires Account(cfg, s, s.counter)
    ensures OpenAccount(cfg, s, s.counter) && Books(cfg, s)
  {
    hide Books, RepairProposal, Repairs, PlanFailed;
  }

  lemma StrandAccount(cfg: Config, s: State, t: nat, call: ToolCall, id: Option<nat>)
    requires Account(cfg, s, t) && Licensed(cfg, s, t, call, id)
    ensures Account(cfg, Note(Note(s, CallDispatched(t, id, call)), CallRaised(t, call)), t)
  {
    hide Lawful, AllKnown, Gated, RepairProposal, Settled;
    var d := CallDispatched(t, id, call);
    NoteAccount(cfg, s, t, d);
    NoteAccount(cfg, Note(s, d), t, CallRaised(t, call));
  }

  lemma ServingTurn(s: State, t: nat)
    requires Serving(s, t)
    ensures t == s.counter && s.turn == Some(t) && Quiet(s)
  {
  }

  lemma ResultsGrow(results: seq<ToolResult>, r: ToolResult)
    ensures RepairProposal(results) ==> RepairProposal(results + [r])
    ensures r == ToolResult(PlanValidator.PROPOSE_PLAN, PLAN_EXECUTION_FAILED) ==> RepairProposal(results + [r])
  {
    var all := results + [r];
    assert all[|results|] == r;
    if RepairProposal(results) {
      var i :| 0 <= i < |results| && results[i] == ToolResult(PlanValidator.PROPOSE_PLAN, PLAN_EXECUTION_FAILED);
      assert all[i] == results[i];
    }
  }

  lemma UndescribedLicence(cfg: Config, s: State, t: nat, call: ToolCall)
    requires Serving(s, t) && s.phase == PROCESSING && Account(cfg, s, t) && Gated(cfg.rules, call)
    requires call.toolName != PlanValidator.PROPOSE_PLAN && !Describable(cfg.rules, call)
    ensures LicenceInv(cfg, Note(s, CallUndescribed(t, call)))
  {
    hide Lawful, AllKnown, Gated, Describable, ShapeInv, RepairProposal;
    UndescribedShape(s, t, call);
    NoteAccount(cfg, s, t, CallUndescribed(t, call));
  }

  lemma HoldCallLicence(cfg: Config, s: State, t: nat, call: ToolCall)
    requires Serving(s, t) && s.phase == PROCESSING && Account(cfg, s, t) && Gated(cfg.rules, call)
    requires call.toolName != PlanValidator.PROPOSE_PLAN
    ensures LicenceInv(cfg, HoldCall(cfg, s, t, call).state)
  {
    hide Lawful, Gated, Describable, ShapeInv, RepairProposal, Settled, Granted, Asked, Numbered, NothingInFlight,
      Mishaps;
    if !Describable(cfg.rules, call) {
      UndescribedLicence(cfg, s, t, call);
      return;
    }
    ServingTurn(s, t);
    HoldCallShape(cfg, s, t, call);
    FreshId(cfg, s);
    var id, e := s.nextApproval, CallRequested(t, s.nextApproval, call);
    var s1 := s.(nextApproval := id + 1);
    assert AllKnown(s1.log, s1.counter, s1.nextApproval);
    NoteAccount(cfg, s1, t, e);
    OpenAppend(s.log, e, t);
  }

  lemma RefusePlanLicence(cfg: Config, s: State, t: nat, call: ToolCall, kind: ErrorKind)
    requires Serving(s, t) && Books(cfg, s) && Open(s.log, t)
    ensures LicenceInv(cfg, RefusePlan(cfg, s, t, call, kind).state)
  {
    hide Lawful, AllKnown, ShapeInv;
    RefusePlanShape(cfg, s, t, call, kind);
    CloseLicence(cfg, s, t);
  }

  // ------------------------------------------------------------------------
  // Plans
  // ------------------------------------------------------------------------

  /** The account of a turn whose next recorded result will be `result`. */
  predicate AccountWith(cfg: Config, s: State, t: nat, result: ToolResult) {
    Account(cfg, s.(results := s.results + [result]), t)
  }

  lemma ResumeLicence(cfg: Config, s: State, p: PendingPlan, content: string, result: ToolResult, env: Env)
    requires Serving(s, p.turn) && s.phase in {PENDING_APPROVAL, EXECUTING_TOOL}
    requires AccountWith(cfg, s, p.turn, result)
    ensures LicenceInv(cfg, Resume(s, p, content, result, env).state)
  {
    hide Books, AnswerId, Delegate, ShapeInv, RepairProposal;
    AnswerPlanShape(s, p, content, result);
    var r := AnswerPlan(s, p, content, result).(phase := PROCESSING);
    assert Account(cfg, r, p.turn) by {
      BooksFrame(cfg, s.(results := s.results + [result]), r);
    }
    DelegateLicence(cfg, r, p.turn, env);
  }

  lemma BooksFrame(cfg: Config, s: State, r: State)
    requires Books(cfg, s) && r.log == s.log && r.counter == s.counter && r.nextApproval == s.nextApproval
    ensures Books(cfg, r)
  {
  }

  /** What a plan run leaves in the log agrees with the result that is recorded for it. */
  lemma PlanRunLicence(cfg: Config, s: State, t: nat, e: Effect, result: ToolResult)
    requires Account(cfg, s, t) && e.PlanRun? && e.turn == t
    requires Permits(cfg.rules, s.log, e) && Known(e, s.counter, s.nextApproval)
    requires FailedRun(e, t) ==> result == ToolResult(PlanValidator.PROPOSE_PLAN, PLAN_EXECUTION_FAILED)
    ensures AccountWith(cfg, Note(s, e), t, result)
  {
    hide Lawful, Permits, RepairProposal;
    NoteBooks(cfg, s, e);
    OpenAppend(s.log, e, t);
    CountsAppend(s.log, e, t);
    ResultsGrow(s.results, result);
  }

  lemma RanAsReviewed(cfg: Config, p: PendingPlan, env: Env)
    requires PlanValidator.Canonical(cfg.rules.registry, p.review.plan)
    ensures RanInOrder(p.review.plan, RunPlan(cfg, p, env))
  {
    hide PlanValidator.Canonical, PlanExecutor.Execute;
    var m := PlanExecutor.ExecutedPrefix(cfg.rules.registry, PlanSetting(env), p.review.plan, env.freshPlanId);
    assert p.review.plan.steps[..|p.review.plan.steps|] == p.review.plan.steps;
  }

  /** The account after the user's consent to a plan, if the plan did not start unasked. */
  lemma ConsentLicence(cfg: Config, s: State, t: nat, id: nat, automatic: bool) returns (r: State)
    requires PlanHeld(s, t, id) && Account(cfg, s, t) && PlanOnRecord(cfg, s)
    ensures r == if automatic then s else Note(s, Approved(t, id))
    ensures Account(cfg, r, t) && !Settled(r.log, id)
    ensures PlanReviewed(t, id, s.pendingPlan.value.review.plan) in r.log
    ensures if automatic then !Granted(r.log, id) else Approved(t, id) in r.log
  {
    hide Lawful, AllKnown, RepairProposal, PlanValidator.Canonical, Settled, Granted;
    var p, e := s.pendingPlan.value, Approved(t, id);
    r := s;
    if !automatic {
      assert Asks(PlanReviewed(p.turn, p.id, p.review.plan), id);
      NoteAccount(cfg, s, t, e);
      OpenAppend(s.log, e, t);
      r := Note(s, e);
    }
  }

  /** The result that is recorded for a plan run. */
  function RunResult(summary: PlanExecutor.Summary): ToolResult {
    ToolResult(PlanValidator.PROPOSE_PLAN, if summary.completed then OK else PLAN_EXECUTION_FAILED)
  }

  /** The account after a plan was consented to and run. */
  lemma RanLicence(cfg: Config, s: State, t: nat, id: nat, automatic: bool, env: Env) returns (c: State)
    requires PlanHeld(s, t, id) && Account(cfg, s, t) && PlanOnRecord(cfg, s)
    requires automatic ==> cfg.rules.autoApprove && Policy.LowRisk(s.pendingPlan.value.review.plan)
    ensures var p := s.pendingPlan.value;
            var summary := RunPlan(cfg, p, env);
            && c == s.(log := s.log + PlanEffects(t, id, automatic, PlanRun(t, id, automatic, p.review.plan, summary)))
            && AccountWith(cfg, c, t, RunResult(summary))
  {
    hide RunPlan, Books, PlanValidator.Canonical, Settled, Granted, RepairProposal, Lawful, NothingInFlight, Unharmed,
      Numbered, Tasks, Repairs, PlanFailed, RanInOrder;
    var p := s.pendingPlan.value;
    var summary := RunPlan(cfg, p, env);
    var e := PlanRun(t, id, automatic, p.review.plan, summary);
    RanAsReviewed(cfg, p, env);
    c := ConsentLicence(cfg, s, t, id, automatic);
    assert Permits(cfg.rules, c.log, e);
    PlanRunLicence(cfg, c, t, e, RunResult(summary));
    RunOnRecord(s.log, t, id, automatic, e);
    c := Note(c, e);
  }

  lemma ApprovePlanLicence(cfg: Config, s: State, t: nat, id: nat, automatic: bool, env: Env)
    requires PlanHeld(s, t, id) && Account(cfg, s, t) && PlanOnRecord(cfg, s)
    requires automatic ==> cfg.rules.autoApprove && Policy.LowRisk(s.pendingPlan.value.review.plan)
    ensures LicenceInv(cfg, ApprovePlan(cfg, s, id, automatic, env).state)
  {
    hide RunPlan, Resume, LicenceInv, Account, PlanOnRecord, Consent, Serving;
    var p := s.pendingPlan.value;
    var summary := RunPlan(cfg, p, env);
    var e := PlanRun(t, id, automatic, p.review.plan, summary);
    ConsentedRun(s.(pendingPlan := None), p, automatic, e);
    var r := ReleasePlanShape(s, t, id, PlanEffects(t, id, automatic, e));
    var c := RanLicence(cfg, s, t, id, automatic, env);
    var result := RunResult(summary);
    RanFrame(cfg, c.(results := c.results + [result]), r.(phase := EXECUTING_TOOL, results := c.results + [result]), t);
    ResumeLicence(cfg, r.(phase := EXECUTING_TOOL), p, cfg.summaryText(summary), result, env);
  }

  /** The account does not depend on which plan is pending or was decided on. */
  lemma RanFrame(cfg: Config, s: State, r: State, t: nat)
    requires Account(cfg, s, t)
    requires r == s.(pendingPlan := r.pendingPlan, events := r.events, phase := r.phase, consumed := r.consumed)
    ensures Account(cfg, r, t)
  {
    hide Lawful, AllKnown, RepairProposal, Open, Tasks, Repairs, PlanFailed;
  }

  lemma RunOnRecord(h: Log, t: nat, id: nat, automatic: bool, run: Effect)
    ensures h + PlanEffects(t, id, automatic, run) == (if automatic then h else h + [Approved(t, id)]) + [run]
  {
    assert h + ([] + [run]) == h + [run];
    assert h + ([Approved(t, id)] + [run]) == h + [Approved(t, id)] + [run];
  }

  lemma RejectPlanLicence(cfg: Config, s: State, t: nat, id: nat, env: Env)
    requires PlanHeld(s, t, id) && Account(cfg, s, t) && PlanOnRecord(cfg, s)
    ensures LicenceInv(cfg, RejectPlan(cfg, s, id, env).state)
  {
    hide Resume, LicenceInv, Books, PlanValidator.Canonical, Settled, Granted, RepairProposal;
    var p, e := s.pendingPlan.value, Rejected(t, id);
    assert Asks(PlanReviewed(p.turn, p.id, p.review.plan), id);
    var r := ReleasePlanShape(s, t, id, [e]);
    var result := ToolResult(PlanValidator.PROPOSE_PLAN, USER_REJECTED);
    NoteAccount(cfg, s, t, e);
    ResultsGrow(s.results, result);
    assert AccountWith(cfg, r, t, result) by {
      BooksFrame(cfg, Note(s, e), r.(results := s.results + [result]));
    }
    ResumeLicence(cfg, r, p, cfg.errorText(result), result, env);
  }

  lemma HoldPlanLicence(cfg: Config, s: State, t: nat, call: ToolCall, review: PlanReview.Review)
    requires Serving(s, t) && s.phase == PROCESSING && Account(cfg, s, t)
    requires PlanFailed(s.log, t) ==> Repairs(s.log, t) < s.repairs && Repairs(s.log, t) < cfg.rules.maxPlanRepairs
    requires PlanValidator.Canonical(cfg.rules.registry, review.plan) && review.overallRisk == review.plan.overallRisk
    ensures var r := HoldPlan(s, t, call, review);
            && r.Done? && PlanHeld(r.state, t, s.nextApproval) && Account(cfg, r.state, t) && PlanOnRecord(cfg, r.state)
            && r.state.pendingPlan.value.review == review
            && LicenceInv(cfg, Post(r.state, Info(t, APPROVAL_REQUIRED)))
  {
    hide Lawful, ShapeInv, RepairProposal, PlanValidator.Canonical, Settled, Granted, Asked, Numbered, NothingInFlight,
      Mishaps;
    ServingTurn(s, t);
    HoldPlanShape(s, t, call, review);
    FreshId(cfg, s);
    var id, e := s.nextApproval, PlanReviewed(t, s.nextApproval, review.plan);
    var s1 := s.(nextApproval := id + 1);
    assert AllKnown(s1.log, s1.counter, s1.nextApproval);
    NoteAccount(cfg, s1, t, e);
    OpenAppend(s.log, e, t);
  }

  function Reviewed(cfg: Config, call: ToolCall, env: Env): Option<PlanReview.Review> {
    PlanReview.ReviewOf(cfg.rules.registry, PlanModel.Payload(cfg.rules.decode(call.arguments) - {"overall_risk"}),
                        env.freshPlanId, cfg.describe)
  }

  /** Every plan that is held for review is a validated one, with the risk of its plan. */
  lemma ReviewedIsSound(cfg: Config, call: ToolCall, env: Env)
    requires Sound(cfg) && SoundEnv(env) && Reviewed(cfg, call, env).Some?
    ensures var review := Reviewed(cfg, call, env).value;
            PlanValidator.Canonical(cfg.rules.registry, review.plan) && review.overallRisk == review.plan.overallRisk
  {
    hide PlanReview.ReviewOf, PlanValidator.Canonical, PlanModel.Payload;
    var entries := cfg.rules.decode(call.arguments);
    assert PlanModel.Thawed(PlanModel.Dict(entries));
    assert PlanModel.Thawed(PlanModel.Dict(entries - {"overall_risk"}));
    PlanValidator.DecodedArguments(entries - {"overall_risk"});
    PlanReview.ReviewShowsPlan(cfg.rules.registry, PlanModel.Payload(entries - {"overall_risk"}), env.freshPlanId,
                               cfg.describe);
  }

  lemma RequestPlanReviewLicence(cfg: Config, s: State, t: nat, call: ToolCall, env: Env)
    requires Sound(cfg) && SoundEnv(env)
    requires Serving(s, t) && s.phase == PROCESSING && Account(cfg, s, t)
    requires PlanFailed(s.log, t) ==> Repairs(s.log, t) < s.repairs && Repairs(s.log, t) < cfg.rules.maxPlanRepairs
    ensures var r := RequestPlanReview(cfg, s, t, call, env);
            if r.Done? then LicenceInv(cfg, r.state) else r == Raised(PlanRefused, s)
  {
    hide PlanReview.ReviewOf, HoldPlan, ApprovePlan, LicenceInv, Account, PlanOnRecord, PlanValidator.Canonical, Sound;
    RequestPlanReviewShape(cfg, s, t, call, env);
    var review := Reviewed(cfg, call, env);
    if review.Some? {
      ReviewedIsSound(cfg, call, env);
      HoldPlanLicence(cfg, s, t, call, review.value);
      var s1 := HoldPlan(s, t, call, review.value).state;
      if cfg.rules.autoApprove && review.value.overallRisk in {PlanModel.READ_ONLY, PlanModel.LOW} {
        ApprovePlanLicence(cfg, s1, t, s.nextApproval, true, env);
      }
    }
  }

  lemma ProposePlanLicence(cfg: Config, s: State, t: nat, call: ToolCall, env: Env)
    requires Sound(cfg) && SoundEnv(env)
    requires Serving(s, t) && s.phase == PROCESSING && Account(cfg, s, t)
    ensures LicenceInv(cfg, ProposePlan(cfg, s, t, call, env).state)
  {
    hide RequestPlanReview, RepairProposal, RefusePlan, LicenceInv, Lawful, AllKnown, Sound, EventsUpTo, TurnsUpTo,
      LogUpTo, IdsBelow, WorkerOk, Live, Mishaps;
    if RepairProposal(s.results) && s.repairs >= cfg.rules.maxPlanRepairs {
      RefusePlanLicence(cfg, s, t, call, MAX_PLAN_REPAIRS_EXCEEDED);
    } else {
      var s1 := if RepairProposal(s.results) then s.(repairs := s.repairs + 1) else s;
      assert Account(cfg, s1, t);
      RequestPlanReviewLicence(cfg, s1, t, call, env);
      RefusePlanLicence(cfg, s1, t, call, PLAN_VALIDATION_FAILED);
    }
  }

  // ------------------------------------------------------------------------
  // Events
  // ------------------------------------------------------------------------

  lemma {:induction false} RunCallsLicence(cfg: Config, s: State, t: nat, calls: seq<ToolCall>, i: nat, env: Env)
    requires Sound(cfg) && SoundEnv(env)
    requires Serving(s, t) && s.phase == PROCESSING && i <= |calls| && Account(cfg, s, t)
    ensures LicenceInv(cfg, RunCalls(cfg, s, t, calls, i, env).state)
    decreases |calls| - i
  {
    hide ProposePlan, Gated, Delegate, HoldCall, RecordTool, Strand, Fail, LicenceInv, Sound, Lawful, AllKnown,
      RepairProposal;
    if i == |calls| {
      DelegateLicence(cfg, s, t, env);
    } else if calls[i].toolName == PlanValidator.PROPOSE_PLAN {
      ProposePlanLicence(cfg, s, t, calls[i], env);
    } else if Gated(cfg.rules, calls[i]) {
      HoldCallLicence(cfg, s, t, calls[i]);
    } else {
      var s1 := s.(phase := EXECUTING_TOOL);
      if env.tool(i).Raises? {
        StrandLicence(cfg, s1, t, calls[i], None, env.tool(i).kept);
        return;
      }
      RecordToolLicence(cfg, s1, t, calls[i], None, env.tool(i));
      var s2 := RecordTool(cfg, s1, t, calls[i], None, env.tool(i));
      FailLicence(cfg, s2, t, TOOL_FAILURE);
      RunCallsLicence(cfg, s2.(phase := PROCESSING), t, calls, i + 1, env);
    }
  }

  lemma TakeRequestLicence(cfg: Config, s: State, t: nat, text: Option<string>, calls: seq<ToolCall>, env: Env)
    requires Sound(cfg) && SoundEnv(env)
    requires Serving(s.(streaming := ""), t) && s.phase == PROCESSING && OpenAccount(cfg, s, t)
    ensures LicenceInv(cfg, TakeRequest(cfg, s, t, text, calls, env).state)
  {
    hide RunCalls, Fail, LicenceInv, SpokenText, Sound, Lawful, AllKnown, RepairProposal;
    var s1 := s.(round := s.round + 1);
    if s1.round > cfg.rules.maxToolRounds {
      FailLicence(cfg, s1, t, MAX_TOOL_ROUNDS_EXCEEDED);
    } else {
      RunCallsLicence(cfg, Say(s1, AssistantMessage(SpokenText(s.streaming, text), calls)).(streaming := ""), t,
                      calls, 0, env);
    }
  }

  lemma FinishTurnLicence(cfg: Config, s: State, t: nat, text: Option<string>)
    requires Serving(s.(streaming := ""), t) && s.phase == PROCESSING && Books(cfg, s) && Open(s.log, t)
    ensures LicenceInv(cfg, FinishTurn(s, t, text).state)
  {
    hide Lawful, AllKnown, ShapeInv, FinalText;
    FinishTurnShape(s, t, text);
    CloseLicence(cfg, s, t);
  }

  lemma TerminalLicence(cfg: Config, s: State, env: Env)
    requires Sound(cfg) && SoundEnv(env)
    requires LicenceInv(cfg, s) && s.events != [] && s.phase == PROCESSING
    requires Terminal(s.events[0]) && s.events[0].turn == s.counter
    ensures LicenceInv(cfg, ProcessEvent(cfg, Popped(s), s.events[0], env).state)
  {
    hide FinishTurn, TakeRequest, Awaiting, AtStage, EventsUpTo, TurnsUpTo, WorkerOk, IdsBelow, Live, Lawful, AllKnown,
      RepairProposal, Sound;
    TerminalShape(cfg, s, env);
    AnswerShape(s);
    var e := s.events[0];
    if e.AgentError? {
      CloseLicence(cfg, Popped(s), s.counter);
    } else if e.calls == [] {
      FinishTurnLicence(cfg, Popped(s), s.counter, e.text);
    } else {
      TakeRequestLicence(cfg, Popped(s), s.counter, e.text, e.calls, env);
    }
  }

  lemma ProcessLicence(cfg: Config, s: State, env: Env)
    requires Sound(cfg) && SoundEnv(env)
    requires LicenceInv(cfg, s) && s.events != []
    ensures LicenceInv(cfg, ProcessEvent(cfg, Popped(s), s.events[0], env).state)
  {
    hide FinishTurn, TakeRequest, Awaiting, AtStage, EventsUpTo, TurnsUpTo, WorkerOk, IdsBelow, Live, Lawful, AllKnown,
      RepairProposal, Sound, Settled;
    ProcessShape(cfg, s, env);
    var e := s.events[0];
    if Some(e.turn) == s.turn && Terminal(e) {
      if s.phase == PROCESSING {
        TerminalLicence(cfg, s, env);
      } else {
        WedgedShape(s);
      }
    }
  }

  // ------------------------------------------------------------------------
  // Decisions, cancelling, starting, the worker
  // ------------------------------------------------------------------------

  /** The account of a turn whose held call is decided on, and what the log has about that call. */
  lemma PendingAccount(cfg: Config, s: State)
    requires LicenceInv(cfg, s) && s.pendingCall.Some?
    ensures var p := s.pendingCall.value;
            && s.phase == PENDING_APPROVAL && s.turn == Some(s.counter) && p.turn == s.counter
            && Account(cfg, s, s.counter) && p.call.toolName != PlanValidator.PROPOSE_PLAN
            && CallRequested(s.counter, p.id, p.call) in s.log && !Settled(s.log, p.id) && !Granted(s.log, p.id)
            && p.id < s.nextApproval
  {
    hide Lawful, AllKnown, RepairProposal, Awaiting, Live, PlanValidator.Canonical;
    PendingTurn(s);
    OnRecordIsKnown(cfg, s, CallRequested(s.counter, s.pendingCall.value.id, s.pendingCall.value.call));
  }

  lemma DecidedAccount(cfg: Config, s: State, e: Effect)
    requires LicenceInv(cfg, s) && s.pendingCall.Some?
    requires e in {Approved(s.counter, s.pendingCall.value.id), Rejected(s.counter, s.pendingCall.value.id)}
    ensures Account(cfg, Note(s, e), s.counter)
    ensures e.Approved? ==> Licensed(cfg, Note(s, e), s.counter, s.pendingCall.value.call, Some(e.id))
  {
    hide Lawful, AllKnown, RepairProposal, PlanValidator.Canonical, ShapeInv, LicenceInv, Settled, Granted;
    PendingAccount(cfg, s);
    var p := s.pendingCall.value;
    assert Asks(CallRequested(s.counter, p.id, p.call), p.id);
    NoteAccount(cfg, s, s.counter, e);
    OpenAppend(s.log, e, s.counter);
    assert e in s.log + [e];
  }

  lemma ApproveLicence(cfg: Config, s: State, id: nat, env: Env)
    requires LicenceInv(cfg, s)
    ensures LicenceInv(cfg, Approve(cfg, s, id, env).state)
  {
    hide RecordTool, Delegate, Fail, Strand, LicenceInv, ShapeInv, Account, Serving, Gated, Settled, Granted;
    if CheckPendingCall(s, id).None? {
      var t, call := s.counter, s.pendingCall.value.call;
      LicenceShape(cfg, s);
      PendingAccount(cfg, s);
      var e := Approved(t, id);
      DecidedAccount(cfg, s, e);
      var s2 := ReleaseCallShape(s, e);
      s2 := s2.(phase := EXECUTING_TOOL);
      DecisionFrame(cfg, Note(s, e), s2, t);
      if env.tool(0).Raises? {
        StrandLicence(cfg, s2, t, call, Some(id), env.tool(0).kept);
        return;
      }
      RecordToolLicence(cfg, s2, t, call, Some(id), env.tool(0));
      var s3 := RecordTool(cfg, s2, t, call, Some(id), env.tool(0));
      AccountMeaning(cfg, s3, t);
      FailLicence(cfg, s3, t, TOOL_FAILURE);
      BackToProcessing(s3, t);
      AccountFrame(cfg, s3, s3.(phase := PROCESSING), t);
      DelegateLicence(cfg, s3.(phase := PROCESSING), t, env);
    }
  }

  lemma AccountMeaning(cfg: Config, s: State, t: nat)
    requires Account(cfg, s, t)
    ensures Books(cfg, s) && Open(s.log, t)
  {
  }

  /** The account does not depend on what is pending or shown. */
  lemma DecisionFrame(cfg: Config, s: State, r: State, t: nat)
    requires Account(cfg, s, t)
    requires r == s.(pendingCall := r.pendingCall, events := r.events, phase := r.phase)
    ensures Account(cfg, r, t)
    ensures forall call, id :: Licensed(cfg, s, t, call, id) ==> Licensed(cfg, r, t, call, id)
  {
    hide Lawful, AllKnown, RepairProposal, Open, Tasks, Repairs, PlanFailed, Gated, Settled;
  }

  lemma OnRecordIsKnown(cfg: Config, s: State, e: Effect)
    requires Books(cfg, s) && e in s.log
    ensures Known(e, s.counter, s.nextApproval)
  {
  }

  /** The account does not depend on what is said or shown. */
  lemma AccountFrame(cfg: Config, s: State, r: State, t: nat)
    requires Account(cfg, s, t)
    requires r == s.(conversation := r.conversation, events := r.events, phase := r.phase)
    ensures Account(cfg, r, t)
  {
    hide Lawful, AllKnown, RepairProposal, Open, Tasks, Repairs, PlanFailed;
  }

  lemma RejectLicence(cfg: Config, s: State, id: nat, env: Env)
    requires LicenceInv(cfg, s)
    ensures LicenceInv(cfg, Reject(cfg, s, id, env).state)
  {
    hide Delegate, LicenceInv, ShapeInv, Account, Serving;
    if CheckPendingCall(s, id).None? {
      var t, call := s.counter, s.pendingCall.value.call;
      LicenceShape(cfg, s);
      PendingAccount(cfg, s);
      DecidedAccount(cfg, s, Rejected(t, id));
      var s1 := ReleaseCallShape(s, Rejected(t, id));
      var result := ToolResult(call.toolName, USER_REJECTED);
      DecisionFrame(cfg, Note(s, Rejected(t, id)), s1, t);
      KeptAccount(cfg, s1, t, result);
      var m := ToolMessage(cfg.errorText(result), call.callId, Some(call.toolName), None);
      AnswerCallShape(s1, t, m, result);
      var s3 := Post(Say(Keep(s1, result), m), Info(t, TOOL_RESULT_READY)).(phase := PROCESSING);
      AccountFrame(cfg, Keep(s1, result), s3, t);
      DelegateLicence(cfg, s3, t, env);
    }
  }

  lemma KeptAccount(cfg: Config, s: State, t: nat, result: ToolResult)
    requires Account(cfg, s, t)
    ensures Account(cfg, Keep(s, result), t)
  {
    hide Lawful, AllKnown, RepairProposal, Open, Tasks, Repairs, PlanFailed;
    ResultsGrow(s.results, result);
  }

  lemma PlanDecisionLicence(cfg: Config, s: State, id: nat, env: Env)
    requires LicenceInv(cfg, s)
    ensures LicenceInv(cfg, ApprovePlan(cfg, s, id, false, env).state)
    ensures LicenceInv(cfg, RejectPlan(cfg, s, id, env).state)
  {
    hide RunPlan, Resume, Books, RepairProposal, Awaiting, Live, PlanValidator.Canonical, Settled, Granted;
    if CheckPendingPlan(s, id).None? {
      ApprovePlanLicence(cfg, s, s.counter, id, false, env);
      RejectPlanLicence(cfg, s, s.counter, id, env);
    }
  }

  lemma CancelLicence(cfg: Config, s: State)
    requires LicenceInv(cfg, s)
    ensures LicenceInv(cfg, Cancel(s))
  {
    hide Lawful, AllKnown, ShapeInv, RepairProposal;
    CancelShape(s);
    if s.turn.Some? {
      assert s.turn.value == s.counter by { ActiveIsNewest(s); }
      CloseLicence(cfg, s, s.counter);
    }
  }

  /** A new turn has an empty account. */
  lemma OpenTurnLicence(cfg: Config, s: State, p: Prompt)
    requires Books(cfg, s) && Quiet(s)
    ensures var r := OpenTurn(s, p);
            Account(cfg, r, r.counter) && CallOnRecord(r) && PlanOnRecord(cfg, r) && r.round == 0 && Quiet(r)
  {
    hide Books, Open, Tasks, Repairs, PlanFailed, Settled, RepairProposal, PlanValidator.Canonical;
    StartedLicence(cfg, s);
    BooksFrame(cfg, Note(s.(counter := s.counter + 1), Started(s.counter + 1)), OpenTurn(s, p));
  }

  lemma StartedLicence(cfg: Config, s: State)
    requires Books(cfg, s)
    ensures var t := s.counter + 1;
            var r := Note(s.(counter := t), Started(t));
            && Books(cfg, r) && Open(r.log, t)
            && Tasks(r.log, t) == 0 && Repairs(r.log, t) == 0 && !PlanFailed(r.log, t)
  {
    hide Lawful, Settled, Asked;
    var t := s.counter + 1;
    NewTurn(cfg, s, s.log, t);
    var e := Started(t);
    var r := s.(counter := t);
    assert AllKnown(r.log, r.counter, r.nextApproval);
    NoteBooks(cfg, r, e);
    CountsAppend(s.log, e, t);
    assert e in s.log + [e];
  }

  lemma {:induction false} NewTurn(cfg: Config, s: State, h: Log, t: nat)
    requires AllKnown(h, s.counter, s.nextApproval) && t > s.counter
    ensures Started(t) !in h && Ended(t) !in h && Tasks(h, t) == 0 && Repairs(h, t) == 0 && !PlanFailed(h, t)
  {
    if h != [] {
      NewTurn(cfg, s, h[..|h| - 1], t);
      CountsAppend(h[..|h| - 1], h[|h| - 1], t);
      assert h == h[..|h| - 1] + [h[|h| - 1]];
      assert h[|h| - 1] in h;
    }
  }

  /** The mishap of a start is permitted: no task was submitted yet. */
  lemma MishapLicence(cfg: Config, s: State, e: Effect)
    requires Account(cfg, s, s.counter) && s.round == 0 && e in {MissedImage(s.counter), BrokeOff(s.counter)}
    ensures Account(cfg, Note(s, e), s.counter)
  {
    hide Lawful, AllKnown, RepairProposal;
    NoteAccount(cfg, s, s.counter, e);
  }

  /** Both ways in which a start can end keep the licence. */
  lemma LaunchLicence(cfg: Config, s: State, r: State)
    requires s.turn == Some(s.counter) && Quiet(s) && Account(cfg, s, s.counter) && s.round == 0
    requires r == s.(conversation := r.conversation, phase := PROCESSING, events := r.events)
    requires ShapeInv(SubmitTask(r, r.counter)) && ShapeInv(WedgeOf(r))
    ensures LicenceInv(cfg, SubmitTask(r, r.counter)) && LicenceInv(cfg, WedgeOf(r))
  {
    hide ShapeInv, Lawful, AllKnown, RepairProposal;
    AccountFrame(cfg, s, r, s.counter);
    SubmitTaskLicence(cfg, r, r.counter);
    MishapLicence(cfg, r, MissedImage(r.counter));
  }

  lemma JamLicence(cfg: Config, s: State, conversation: seq<Message>)
    requires s.turn == Some(s.counter) && Quiet(s) && Account(cfg, s, s.counter) && s.round == 0 && s.phase == IDLE
    requires ShapeInv(Note(s.(conversation := conversation), BrokeOff(s.counter)))
    ensures LicenceInv(cfg, Note(s.(conversation := conversation), BrokeOff(s.counter)))
  {
    hide ShapeInv, Lawful, AllKnown, RepairProposal;
    AccountFrame(cfg, s, s.(conversation := conversation), s.counter);
    MishapLicence(cfg, s.(conversation := conversation), BrokeOff(s.counter));
  }

  lemma RecoverLicence(cfg: Config, s: State)
    requires ShapeInv(s) && Books(cfg, s) && s.phase == IDLE && s.turn.None?
    ensures var r := Recover(s).state;
            ShapeInv(r) && Books(cfg, r) && Quiet(r) && r.phase == IDLE && r.turn.None? && r.counter == s.counter
  {
    hide ShapeInv;
    RecoverShape(s);
    QuietIdle(s);
  }

  lemma QuietIdle(s: State)
    requires ShapeInv(s)
    ensures s.phase in {IDLE, ERROR} ==> Quiet(s)
    ensures s.turn.None? ==> s.phase in {IDLE, ERROR}
  {
  }

  lemma StartPromptLicence(cfg: Config, s: State, p: Prompt, env: Env)
    requires LicenceInv(cfg, s) && !Runtime.Busy(s)
    ensures LicenceInv(cfg, StartPrompt(cfg, s, p, env).state)
  {
    hide CompactContext, Recover, OpenTurn, SubmitTask, Live, EventsUpTo, TurnsUpTo, WorkerOk, IdsBelow, LogUpTo,
      Books, Account, OpenAccount, Settled, Granted, PlanValidator.Canonical, Mishaps, NothingInFlight;
    StartPromptShape(cfg, s, p, env);
    var s1 := if s.phase == ERROR then s.(phase := IDLE) else s;
    BooksFrame(cfg, s, s1);
    RecoverLicence(cfg, s1);
    if Recover(s1).Done? {
      var s3 := OpenTurn(Recover(s1).state, p);
      OpenTurnShape(Recover(s1).state, p);
      OpenTurnLicence(cfg, Recover(s1).state, p);
      var compaction := CompactContext(cfg, s3);
      if compaction.Compacted? {
        var r := LaunchShape(s3, compaction.conversation);
        LaunchLicence(cfg, s3, r);
      } else {
        JamShape(s3, compaction.conversation);
        JamLicence(cfg, s3, compaction.conversation);
      }
    }
  }

  /** The worker writes nothing but that it fell silent. */
  lemma SilentLicence(cfg: Config, s: State, t: nat)
    requires LicenceInv(cfg, s) && t <= s.counter
    ensures var r := Note(s, WentSilent(t));
            && Books(cfg, r) && CallOnRecord(r) && PlanOnRecord(cfg, r)
            && (s.turn.Some? ==>
                  if s.phase == PENDING_APPROVAL then Account(cfg, r, s.counter) else OpenAccount(cfg, r, s.counter))
  {
    hide Lawful, ShapeInv, RepairProposal, PlanValidator.Canonical;
    var e := WentSilent(t);
    NoteBooks(cfg, s, e);
    OpenAppend(s.log, e, s.counter);
    CountsAppend(s.log, e, s.counter);
  }

  /** Steps that leave the log and the main thread alone keep the licence. */
  lemma FrameLicence(cfg: Config, s: State, r: State)
    requires LicenceInv(cfg, s) && ShapeInv(r)
    requires r == s.(events := r.events, tasks := r.tasks, worker := r.worker)
    ensures LicenceInv(cfg, r)
  {
    hide Lawful, AllKnown, ShapeInv, RepairProposal, PlanValidator.Canonical, Settled;
  }

  lemma TakeLicence(cfg: Config, s: State)
    requires LicenceInv(cfg, s) && s.worker.Resting? && s.tasks != []
    ensures LicenceInv(cfg, WorkerTake(s))
  {
    hide LicenceInv, ShapeInv;
    LicenceShape(cfg, s);
    TakeShape(s);
    FrameLicence(cfg, s, WorkerTake(s));
  }

  lemma PostLicence(cfg: Config, s: State)
    requires LicenceInv(cfg, s) && s.worker.Posting?
    ensures LicenceInv(cfg, WorkerPost(s))
  {
    hide LicenceInv, ShapeInv;
    LicenceShape(cfg, s);
    PostShape(s);
    FrameLicence(cfg, s, WorkerPost(s));
  }

  lemma LicenceShape(cfg: Config, s: State)
    requires LicenceInv(cfg, s)
    ensures ShapeInv(s)
  {
  }

  /** The main thread's part of the state stays; the log gains at most the note of a silence. */
  lemma ObserveEffect(s: State, ev: StreamEvent)
    requires s.worker.Working?
    ensures var r := WorkerObserve(s, ev);
            r == s.(worker := r.worker) || r == Note(s, WentSilent(s.worker.turn)).(worker := r.worker)
  {
  }

  lemma ObserveLicence(cfg: Config, s: State, r: State)
    requires LicenceInv(cfg, s) && s.worker.Working? && ShapeInv(r)
    requires r == s.(worker := r.worker) || r == Note(s, WentSilent(s.worker.turn)).(worker := r.worker)
    ensures LicenceInv(cfg, r)
  {
    hide Books, Account, OpenAccount, ShapeInv, CallOnRecord, PlanOnRecord;
    if r == s.(worker := r.worker) {
      FrameLicence(cfg, s, r);
    } else {
      WorkerTurn(s);
      SilentLicence(cfg, s, s.worker.turn);
      SilentFrame(cfg, Note(s, WentSilent(s.worker.turn)), r);
    }
  }

  /** What the books say does not depend on the worker. */
  lemma SilentFrame(cfg: Config, s: State, r: State)
    requires r == s.(worker := r.worker)
    ensures Books(cfg, s) ==> Books(cfg, r)
    ensures CallOnRecord(s) ==> CallOnRecord(r)
    ensures PlanOnRecord(cfg, s) ==> PlanOnRecord(cfg, r)
    ensures Account(cfg, s, s.counter) ==> Account(cfg, r, s.counter)
    ensures OpenAccount(cfg, s, s.counter) ==> OpenAccount(cfg, r, s.counter)
  {
    hide Lawful, AllKnown, RepairProposal, PlanValidator.Canonical, Settled;
  }

  lemma WorkerTurn(s: State)
    requires ShapeInv(s) && !s.worker.Resting?
    ensures s.worker.turn <= s.counter
  {
  }

  // ------------------------------------------------------------------------
  // Runs
  // ------------------------------------------------------------------------

  lemma SubmitLicence(cfg: Config, s: State, p: Prompt, env: Env)
    requires LicenceInv(cfg, s)
    ensures LicenceInv(cfg, SubmitPrompt(cfg, s, p, env).state)
  {
    hide StartPrompt, ShapeInv, Books, Account, OpenAccount, Settled, PlanValidator.Canonical;
    if !Runtime.Busy(s) {
      StartPromptLicence(cfg, s, p, env);
    } else {
      SubmitShape(cfg, s, p, env);
      QueuedLicence(cfg, s, s.prompts + [p]);
    }
  }

  /** The waiting prompts are no part of the books. */
  lemma QueuedLicence(cfg: Config, s: State, prompts: seq<Prompt>)
    requires LicenceInv(cfg, s)
    ensures LicenceInv(cfg, s.(prompts := prompts))
  {
    hide Lawful, AllKnown, RepairProposal, PlanValidator.Canonical, Settled, Awaiting, Live;
  }

  lemma PumpLicence(cfg: Config, s: State, env: Env)
    requires LicenceInv(cfg, s)
    ensures LicenceInv(cfg, PumpPromptQueue(cfg, s, env).state)
  {
    hide StartPrompt, LicenceInv;
    if !Runtime.Busy(s) && s.prompts != [] {
      QueuedLicence(cfg, s, s.prompts[1..]);
      StartPromptLicence(cfg, s.(prompts := s.prompts[1..]), s.prompts[0], env);
    }
  }

  lemma NextLicence(cfg: Config, s: State, step: Step)
    requires Sound(cfg) && SoundStep(step) && LicenceInv(cfg, s)
    ensures LicenceInv(cfg, Next(cfg, s, step))
  {
    hide LicenceInv, ShapeInv, SubmitPrompt, PumpPromptQueue, ProcessEvent, Approve, Reject, ApprovePlan, RejectPlan,
      Cancel, WorkerTake, WorkerObserve, WorkerPost, Sound;
    match step
    case DoSubmit(p, env) => SubmitLicence(cfg, s, p, env);
    case DoPump(env) => PumpLicence(cfg, s, env);
    case DoProcess(env) =>
      if s.events != [] {
        ProcessLicence(cfg, s, env);
      }
    case DoApprove(id, env) => ApproveLicence(cfg, s, id, env);
    case DoReject(id, env) => RejectLicence(cfg, s, id, env);
    case DoApprovePlan(id, env) => PlanDecisionLicence(cfg, s, id, env);
    case DoRejectPlan(id, env) => PlanDecisionLicence(cfg, s, id, env);
    case DoCancel => CancelLicence(cfg, s);
    case DoTake =>
      if s.worker.Resting? && s.tasks != [] {
        TakeLicence(cfg, s);
      }
    case DoObserve(ev) =>
      if s.worker.Working? {
        LicenceShape(cfg, s);
        ObserveShape(s, ev);
        ObserveEffect(s, ev);
        ObserveLicence(cfg, s, WorkerObserve(s, ev));
      }
    case DoPost =>
      if s.worker.Posting? {
        PostLicence(cfg, s);
      }
  }

  lemma {:induction false} RunLicence(cfg: Config, s: State, steps: seq<Step>)
    requires Sound(cfg) && SoundSteps(steps) && LicenceInv(cfg, s)
    ensures LicenceInv(cfg, Run(cfg, s, steps))
  {
    hide LicenceInv, Next, Sound;
    if steps != [] {
      RunLicence(cfg, s, steps[..|steps| - 1]);
      NextLicence(cfg, Run(cfg, s, steps[..|steps| - 1]), steps[|steps| - 1]);
    }
  }

  /**
   * Whatever users, tools and providers do, in every run: each call that reaches a tool was passed by the
   * policy or is the very call the user approved; each plan that runs was validated, reviewed and approved,
   * or is of low risk and may start unasked; each approval is used at most once and never after a rejection
   * or the end of its turn; no turn submits more than the allowed rounds plus one tasks, nor more than the
   * allowed repairs of a failed plan.
   */
  lemma EveryRunIsLawful(cfg: Config, steps: seq<Step>)
    requires Sound(cfg) && SoundSteps(steps)
    ensures Lawful(cfg.rules, Run(cfg, Initial, steps).log)
  {
    hide Next, ShapeInv, Sound;
    InitialShape();
    RunLicence(cfg, Initial, steps);
  }

  lemma TurnsStayBounded(cfg: Config, steps: seq<Step>, t: nat)
    requires Sound(cfg) && SoundSteps(steps)
    ensures var log := Run(cfg, Initial, steps).log;
            && Tasks(log, t) <= AtLeastZero(cfg.rules.maxToolRounds) + 1
            && Repairs(log, t) <= AtLeastZero(cfg.rules.maxPlanRepairs)
  {
    hide Next, Sound, Lawful;
    EveryRunIsLawful(cfg, steps);
    TurnsAreBounded(cfg.rules, Run(cfg, Initial, steps).log, t);
  }

  lemma EndedTurnInert(cfg: Config, s: State, env: Env)
    requires LicenceInv(cfg, s) && s.events != [] && Ended(s.events[0].turn) in s.log
    ensures Next(cfg, s, DoProcess(env)) == Popped(s).(stale := s.stale + 1)
  {
    hide Lawful, AllKnown, RepairProposal, Awaiting, Live, Settled, PlanValidator.Canonical, FinishTurn, TakeRequest;
  }

  /** An event of a turn that has ended changes nothing but the count of such events, in every later state. */
  lemma EndedTurnsAreInert(cfg: Config, steps: seq<Step>, env: Env)
    requires Sound(cfg) && SoundSteps(steps)
    ensures var s := Run(cfg, Initial, steps);
            s.events != [] && Ended(s.events[0].turn) in s.log ==>
              Next(cfg, s, DoProcess(env)) == Popped(s).(stale := s.stale + 1)
  {
    hide Sound, Next, LicenceInv;
    InitialLicence(cfg);
    RunLicence(cfg, Initial, steps);
    var s := Run(cfg, Initial, steps);
    if s.events != [] && Ended(s.events[0].turn) in s.log {
      EndedTurnInert(cfg, s, env);
    }
  }

  lemma InitialLicence(cfg: Config)
    ensures LicenceInv(cfg, Initial)
  {
    InitialShape();
  }
}
