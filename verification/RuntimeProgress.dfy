/** Every answer of the provider and every decision of the user brings a turn nearer to its end. */
module RuntimeProgress {
  import opened PyText
  import opened Chat
  import opened StateMachine
  import opened RuntimeLog
  import opened Runtime
  import opened RuntimeShape
  import opened RuntimeConsent
  import RuntimeCancel
  import PlanReview
  import PlanValidator

  // ------------------------------------------------------------------------
  // The measure
  // ------------------------------------------------------------------------

  function RoundsLeft(cfg: Config, s: State): nat {
    AtLeastZero(AtLeastZero(cfg.rules.maxToolRounds) + 1 - s.round)
  }

  /** At most this many answers and decisions are still to come in the active turn. */
  function Remaining(cfg: Config, s: State): nat {
    if s.turn.None? then 0
    else
      match s.phase
      case PROCESSING => 2 * RoundsLeft(cfg, s)
      case PENDING_APPROVAL => 2 * RoundsLeft(cfg, s) + 1
      case _ => 0
  }

  predicate WithinRounds(cfg: Config, s: State) {
    s.turn.Some? ==> s.round <= AtLeastZero(cfg.rules.maxToolRounds)
  }

  /** The step processes the provider's answer for the active turn. */
  predicate AnswersTurn(s: State, step: Step) {
    && step.DoProcess? && s.events != [] && s.phase == PROCESSING
    && Terminal(s.events[0]) && Some(s.events[0].turn) == s.turn
  }

  /** The step takes a pending decision. */
  predicate Decides(s: State, step: Step) {
    match step
    case DoApprove(id, _) => CallDecided(s, id)
    case DoReject(id, _) => CallDecided(s, id)
    case DoApprovePlan(id, _) => PlanDecided(s, id)
    case DoRejectPlan(id, _) => PlanDecided(s, id)
    case _ => false
  }

  // ------------------------------------------------------------------------
  // Steps
  // ------------------------------------------------------------------------

  /** The turn is over, halted, or the provider is at work for it. */
  predicate OutOfPending(s: State, r: State) {
    r.phase != PENDING_APPROVAL && (r.turn.Some? ==> r.turn == s.turn)
  }

  lemma DelegatePlace(s: State, t: nat, env: Env)
    requires s.phase == PROCESSING
    ensures OutOfPending(s, Delegate(s, t, env).state)
  {
  }

  lemma CallDecisionPlace(cfg: Config, s: State, id: nat, env: Env)
    requires CallDecided(s, id)
    ensures OutOfPending(s, Approve(cfg, s, id, env).state) && OutOfPending(s, Reject(cfg, s, id, env).state)
  {
    hide Delegate;
    var p := s.pendingCall.value;
    var s2 := Note(Post(s.(pendingCall := None), Info(p.turn, APPROVAL_RESOLVED)),
                   Approved(p.turn, id)).(phase := EXECUTING_TOOL);
    if !env.tool(0).Raises? {
      DelegatePlace(RecordTool(cfg, s2, p.turn, p.call, Some(id), env.tool(0)).(phase := PROCESSING), p.turn, env);
    }
    var result := ToolResult(p.call.toolName, USER_REJECTED);
    var r2 := Keep(Note(Post(s.(pendingCall := None), Info(p.turn, APPROVAL_RESOLVED)), Rejected(p.turn, id)), result);
    DelegatePlace(Post(Say(r2, ToolMessage(cfg.errorText(result), p.call.callId, Some(p.call.toolName), None)),
                       Info(p.turn, TOOL_RESULT_READY)).(phase := PROCESSING), p.turn, env);
  }

  lemma ResumePlace(s: State, p: PendingPlan, content: string, result: ToolResult, env: Env)
    requires s.phase in {PENDING_APPROVAL, EXECUTING_TOOL}
    ensures OutOfPending(s, Resume(s, p, content, result, env).state)
  {
    hide AnswerId, Delegate;
    DelegatePlace(AnswerPlan(s, p, content, result).(phase := PROCESSING), p.turn, env);
  }

  lemma PlanDecisionPlace(cfg: Config, s: State, id: nat, env: Env)
    requires PlanDecided(s, id)
    ensures OutOfPending(s, ApprovePlan(cfg, s, id, false, env).state)
            && OutOfPending(s, RejectPlan(cfg, s, id, env).state)
  {
    hide RunPlan, Resume;
    var p := s.pendingPlan.value;
    var s1 := s.(pendingPlan := None);
    var summary := RunPlan(cfg, p, env);
    var ran := Note(Consent(s1, p, false).(phase := EXECUTING_TOOL),
                    PlanRun(p.turn, id, false, p.review.plan, summary)).(
      consumed := s.consumed + {id});
    ResumePlace(ran, p, cfg.summaryText(summary),
                ToolResult(PlanValidator.PROPOSE_PLAN, if summary.completed then OK else PLAN_EXECUTION_FAILED), env);
    var result := ToolResult(PlanValidator.PROPOSE_PLAN, USER_REJECTED);
    var s2 := Note(Post(s1, Info(p.turn, APPROVAL_RESOLVED)), Rejected(p.turn, id)).(consumed := s.consumed + {id});
    ResumePlace(s2, p, cfg.errorText(result), result, env);
  }

  lemma DecisionCounts(cfg: Config, s: State, step: Step)
    requires WithinRounds(cfg, s) && ShapeInv(s) && Decides(s, step)
    ensures var r := Next(cfg, s, step);
            WithinRounds(cfg, r) && r.counter == s.counter && Remaining(cfg, r) < Remaining(cfg, s)
  {
    hide Approve, Reject, ApprovePlan, RejectPlan, Numbered, NothingInFlight, Awaiting, Mishaps, Notables,
      ApprovedCallEffects, ApprovedPlanEffects;
    match step
    case DoApprove(id, env) =>
      CallDecisionPlace(cfg, s, id, env);
      ApproveGains(cfg, s, id, env);
    case DoReject(id, env) =>
      CallDecisionPlace(cfg, s, id, env);
      RejectGains(cfg, s, id, env);
    case DoApprovePlan(id, env) =>
      PlanDecisionPlace(cfg, s, id, env);
      ApprovePlanGains(cfg, s, id, false, env);
    case DoRejectPlan(id, env) =>
      PlanDecisionPlace(cfg, s, id, env);
      RejectPlanGains(cfg, s, id, env);
    case _ =>
  }

  lemma RequestPlace(cfg: Config, s: State, e: Event, env: Env)
    requires TakesRequest(s, e) && s.round >= AtLeastZero(cfg.rules.maxToolRounds) && s.phase == PROCESSING
    ensures ProcessEvent(cfg, s, e, env).state.turn.None? || s.round + 1 <= AtLeastZero(cfg.rules.maxToolRounds)
  {
    hide RunCalls, SpokenText;
  }

  lemma EndPlace(cfg: Config, s: State, e: Event, env: Env)
    requires Some(e.turn) == s.turn && Terminal(e) && s.phase == PROCESSING && !CancelSet(s) && !TakesRequest(s, e)
    ensures ProcessEvent(cfg, s, e, env).state.turn.None?
  {
    hide FinalText;
  }

  lemma AnswerCounts(cfg: Config, s: State, step: Step)
    requires WithinRounds(cfg, s) && ShapeInv(s) && AnswersTurn(s, step)
    ensures var r := Next(cfg, s, step);
            WithinRounds(cfg, r) && r.counter == s.counter && Remaining(cfg, r) < Remaining(cfg, s)
  {
    hide ProcessEvent, NothingInFlight, Awaiting, Mishaps, Notables, EventsUpTo, TurnsUpTo, LogUpTo, IdsBelow, WorkerOk;
    var p, e := Popped(s), s.events[0];
    var es := ProcessGains(cfg, p, e, step.env);
    if TakesRequest(p, e) {
      if s.round >= AtLeastZero(cfg.rules.maxToolRounds) {
        RequestPlace(cfg, p, e, step.env);
      }
    } else {
      EndPlace(cfg, p, e, step.env);
    }
  }

  lemma QuietProcess(cfg: Config, s: State, env: Env)
    requires ShapeInv(s) && s.events != [] && !AnswersTurn(s, DoProcess(env))
    ensures var r := ProcessEvent(cfg, Popped(s), s.events[0], env).state;
            r.phase == s.phase && r.turn == s.turn && r.round == s.round && r.counter == s.counter
  {
    hide FinishTurn, TakeRequest, Awaiting, Live, EventsUpTo, TurnsUpTo, LogUpTo, IdsBelow, WorkerOk, Mishaps;
    var e := s.events[0];
    if Some(e.turn) == s.turn && Terminal(e) {
      WedgedShape(s);
    }
  }

  /** Any other step of the same turn leaves the count as it is, or ends the turn. */
  lemma OthersKeep(cfg: Config, s: State, step: Step)
    requires WithinRounds(cfg, s) && ShapeInv(s) && !Decides(s, step) && !AnswersTurn(s, step) && !Starts(s, step)
    ensures var r := Next(cfg, s, step);
            WithinRounds(cfg, r) && r.counter == s.counter && Remaining(cfg, r) <= Remaining(cfg, s)
  {
    hide ProcessEvent, StartPrompt, WorkerTake, WorkerObserve, WorkerPost, Notables, Awaiting, Mishaps, EventsUpTo,
      TurnsUpTo, LogUpTo, IdsBelow, WorkerOk, NothingInFlight, Discard;
    match step
    case DoProcess(env) =>
      if s.events != [] {
        QuietProcess(cfg, s, env);
      }
    case DoCancel => CancelGains(s);
    case DoApprove(id, env) => NoCancel(s);
    case DoReject(id, env) => NoCancel(s);
    case DoApprovePlan(id, env) => NoCancel(s);
    case DoRejectPlan(id, env) => NoCancel(s);
    case DoTake =>
      WorkerGains(s, Exhausted);
      WorkerKeepsPhase(s, Exhausted);
    case DoObserve(ev) =>
      WorkerGains(s, ev);
      WorkerKeepsPhase(s, ev);
    case DoPost =>
      WorkerGains(s, Exhausted);
      WorkerKeepsPhase(s, Exhausted);
    case _ =>
  }

  lemma NoCancel(s: State)
    requires ShapeInv(s)
    ensures s.turn.Some? ==> !CancelSet(s)
  {
  }

  lemma StartKeepsRounds(cfg: Config, s: State, step: Step)
    requires ShapeInv(s) && Starts(s, step)
    ensures var r := Next(cfg, s, step);
            WithinRounds(cfg, r) && (r.counter == s.counter ==> r.turn.None? && Remaining(cfg, s) == 0)
  {
    hide StartPrompt, ShapeInv, Notables, StartNotes, StartRefused;
    if step.DoSubmit? {
      StartPromptShape(cfg, s, step.prompt, step.env);
      StartGains(cfg, s, step.prompt, step.env);
    } else {
      PumpedShape(s);
      StartPromptShape(cfg, s.(prompts := s.prompts[1..]), s.prompts[0], step.env);
      StartGains(cfg, s.(prompts := s.prompts[1..]), s.prompts[0], step.env);
    }
  }

  predicate Counts(s: State, step: Step) {
    AnswersTurn(s, step) || Decides(s, step)
  }

  /**
   * Every step keeps the rounds within the settings. While no new turn starts the measure never grows, and it
   * falls with every answer that is processed and every decision that is taken.
   */
  lemma MeasureFalls(cfg: Config, s: State, step: Step)
    requires ShapeInv(s) && WithinRounds(cfg, s)
    ensures var r := Next(cfg, s, step);
            && WithinRounds(cfg, r)
            && (r.counter == s.counter ==> Remaining(cfg, r) + (if Counts(s, step) then 1 else 0) <= Remaining(cfg, s))
  {
    hide Next, ShapeInv, WithinRounds, Remaining, Decides, AnswersTurn, Starts;
    if Decides(s, step) {
      DecisionCounts(cfg, s, step);
    } else if AnswersTurn(s, step) {
      AnswerCounts(cfg, s, step);
    } else if Starts(s, step) {
      StartKeepsRounds(cfg, s, step);
      StartsAtRest(cfg, s, step);
    } else {
      OthersKeep(cfg, s, step);
    }
  }

  lemma StartsAtRest(cfg: Config, s: State, step: Step)
    ensures Next(cfg, s, step).turn.None? ==> Remaining(cfg, Next(cfg, s, step)) == 0
  {
    hide Next;
  }

  // ------------------------------------------------------------------------
  // Runs
  // ------------------------------------------------------------------------

  /** How many answers and decisions a run processes. */
  function Tally(cfg: Config, s: State, steps: seq<Step>): nat {
    if steps == [] then 0
    else
      var before := steps[..|steps| - 1];
      Tally(cfg, s, before) + if Counts(Run(cfg, s, before), steps[|steps| - 1]) then 1 else 0
  }

  lemma {:induction false} RunWithinRounds(cfg: Config, s: State, steps: seq<Step>)
    requires ShapeInv(s) && WithinRounds(cfg, s)
    ensures var r := Run(cfg, s, steps);
            && ShapeInv(r) && WithinRounds(cfg, r) && s.counter <= r.counter
            && (r.counter == s.counter ==> Remaining(cfg, r) + Tally(cfg, s, steps) <= Remaining(cfg, s))
  {
    hide Next, ShapeInv, WithinRounds, Remaining, Counts;
    if steps != [] {
      var before, last := steps[..|steps| - 1], steps[|steps| - 1];
      RunWithinRounds(cfg, s, before);
      var r := Run(cfg, s, before);
      MeasureFalls(cfg, r, last);
      AttemptShape(cfg, r, last);
      RuntimeCancel.NextExtends(cfg, r, last);
    }
  }

  /**
   * In every run: from any moment of a turn, as long as no new one starts, at most as many answers are
   * processed and decisions taken as the rounds left allow, two for each; for a whole turn that is twice one
   * more than the rounds of the settings.
   */
  lemma AnswersAndDecisionsAreBounded(cfg: Config, before: seq<Step>, during: seq<Step>)
    ensures var s := Run(cfg, Initial, before);
            var r := Run(cfg, s, during);
            && Remaining(cfg, s) <= 2 * (AtLeastZero(cfg.rules.maxToolRounds) + 1) + 1
            && (s.phase == PROCESSING ==> Remaining(cfg, s) <= 2 * (AtLeastZero(cfg.rules.maxToolRounds) + 1))
            && (r.counter == s.counter ==> Tally(cfg, s, during) + Remaining(cfg, r) <= Remaining(cfg, s))
  {
    hide Run, Tally, ShapeInv;
    InitialShape();
    RunWithinRounds(cfg, Initial, before);
    RunWithinRounds(cfg, Run(cfg, Initial, before), during);
  }
}
