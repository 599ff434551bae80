/** Which steps of a run write which effects: decisions are the user's own, mishaps have their one cause. */
module RuntimeConsent {
  import opened PyText
  import opened Chat
  import opened StateMachine
  import opened RuntimeLog
  import opened Runtime
  import opened RuntimeShape
  import PlanModel
  import PlanReview
  import PlanValidator
  import PlanExecutor
  import Policy
  import Turns
  import RuntimeLicence

  // ------------------------------------------------------------------------
  // The effects that need a cause
  // ------------------------------------------------------------------------

  /** An effect that only the user's decision allows, or that is such a decision. */
  predicate NeedsUser(e: Effect) {
    || e.Approved? || e.Rejected?
    || (e.CallDispatched? && e.licence.Some?)
    || (e.PlanRun? && !e.automatic)
  }

  predicate Notable(e: Effect) {
    NeedsUser(e) || e.MissedImage? || e.BrokeOff? || e.CallRaised? || e.CallUndescribed? || e.WentSilent?
  }

  function Notables(h: Log): Log {
    if h == [] then []
    else Notables(h[..|h| - 1]) + if Notable(h[|h| - 1]) then [h[|h| - 1]] else []
  }

  lemma NotablesAppend(h: Log, e: Effect)
    ensures Notables(h + [e]) == Notables(h) + if Notable(e) then [e] else []
  {
    assert (h + [e])[..|h + [e]| - 1] == h;
  }

  lemma {:induction false} NotablesHold(h: Log)
    ensures forall e :: e in Notables(h) <==> e in h && Notable(e)
  {
    if h != [] {
      NotablesHold(h[..|h| - 1]);
      assert h == h[..|h| - 1] + [h[|h| - 1]];
    }
  }

  /** From s to r exactly the notable effects `es` were written; rounds, waiting prompts and the turn counter stay. */
  predicate Gains(s: State, r: State, es: Log) {
    && Notables(r.log) == Notables(s.log) + es
    && r.round == s.round && r.prompts == s.prompts && r.counter == s.counter
  }

  lemma GainsTrans(a: State, b: State, c: State, es: Log, fs: Log)
    requires Gains(a, b, es) && Gains(b, c, fs)
    ensures Gains(a, c, es + fs)
  {
  }

  lemma GainsMore(a: State, b: State, c: State)
    requires Gains(a, b, [])
    ensures forall es :: Gains(b, c, es) ==> Gains(a, c, es)
  {
    forall es | Gains(b, c, es)
      ensures Gains(a, c, es)
    {
      GainsTrans(a, b, c, [], es);
      assert [] + es == es;
    }
  }

  // ------------------------------------------------------------------------
  // Small steps
  // ------------------------------------------------------------------------

  lemma FailGains(s: State, t: nat, kind: ErrorKind)
    ensures Gains(s, Fail(s, t, kind).state, [])
  {
    NotablesAppend(s.log, Ended(t));
  }

  lemma DelegateGains(s: State, t: nat, env: Env)
    ensures Gains(s, Delegate(s, t, env).state, [])
  {
    hide Notables;
    NotablesAppend(s.log, Ended(t));
    NotablesAppend(s.log, TaskSubmitted(t));
  }

  lemma RecordToolGains(cfg: Config, s: State, t: nat, call: ToolCall, id: Option<nat>, reply: ToolReply)
    requires !reply.Raises?
    ensures Gains(s, RecordTool(cfg, s, t, call, id, reply), if id.Some? then [CallDispatched(t, id, call)] else [])
  {
    NotablesAppend(s.log, CallDispatched(t, id, call));
  }

  lemma StrandGains(s: State, t: nat, call: ToolCall, id: Option<nat>, kept: Option<bool>)
    ensures Gains(s, Strand(s, t, call, id, kept),
                  (if id.Some? then [CallDispatched(t, id, call)] else []) + [CallRaised(t, call)])
  {
    hide Notables;
    var d := CallDispatched(t, id, call);
    NotablesAppend(s.log, d);
    NotablesAppend(s.log + [d], CallRaised(t, call));
  }

  lemma HoldCallGains(cfg: Config, s: State, t: nat, call: ToolCall)
    ensures Gains(s, HoldCall(cfg, s, t, call).state,
                  if Describable(cfg.rules, call) then [] else [CallUndescribed(t, call)])
  {
    hide Describable, Notables;
    NotablesAppend(s.log, CallUndescribed(t, call));
    NotablesAppend(s.log, CallRequested(t, s.nextApproval, call));
  }

  lemma RefusePlanGains(cfg: Config, s: State, t: nat, call: ToolCall, kind: ErrorKind)
    ensures Gains(s, RefusePlan(cfg, s, t, call, kind).state, [])
  {
    NotablesAppend(s.log, Ended(t));
  }

  lemma ResumeGains(s: State, p: PendingPlan, content: string, result: ToolResult, env: Env)
    ensures Gains(s, Resume(s, p, content, result, env).state, [])
  {
    hide AnswerId, Delegate;
    DelegateGains(AnswerPlan(s, p, content, result).(phase := PROCESSING), p.turn, env);
  }

  /** What approving a plan writes, when it gets that far. */
  function ApprovedPlanEffects(cfg: Config, p: PendingPlan, automatic: bool, env: Env): Log {
    if automatic then []
    else [Approved(p.turn, p.id), PlanRun(p.turn, p.id, false, p.review.plan, RunPlan(cfg, p, env))]
  }

  lemma PlanEffectsGain(h: Log, p: PendingPlan, automatic: bool, plan: PlanModel.Plan, summary: PlanExecutor.Summary)
    ensures var run := PlanRun(p.turn, p.id, automatic, plan, summary);
            Notables(h + PlanEffects(p.turn, p.id, automatic, run))
            == Notables(h) + if automatic then [] else [Approved(p.turn, p.id), run]
  {
    var run := PlanRun(p.turn, p.id, automatic, plan, summary);
    var a := Approved(p.turn, p.id);
    if automatic {
      assert [] + [run] == [run];
      NotablesAppend(h, run);
    } else {
      NotablesAppend(h, a);
      NotablesAppend(h + [a], run);
      assert h + ([a] + [run]) == h + [a] + [run];
    }
  }

  /** A decision on a plan is taken as given. */
  predicate PlanDecided(s: State, id: nat) {
    CheckPendingPlan(s, id).None? && !CancelSet(s)
  }

  lemma ApprovePlanGains(cfg: Config, s: State, id: nat, automatic: bool, env: Env)
    ensures Gains(s, ApprovePlan(cfg, s, id, automatic, env).state,
                  if PlanDecided(s, id) then ApprovedPlanEffects(cfg, s.pendingPlan.value, automatic, env) else [])
  {
    hide RunPlan, Resume, Consent;
    if PlanDecided(s, id) {
      var p := s.pendingPlan.value;
      var summary := RunPlan(cfg, p, env);
      var run := PlanRun(p.turn, id, automatic, p.review.plan, summary);
      ConsentedRun(s.(pendingPlan := None), p, automatic, run);
      PlanEffectsGain(s.log, p, automatic, p.review.plan, summary);
      var ran := Note(Consent(s.(pendingPlan := None), p, automatic).(phase := EXECUTING_TOOL), run).(
        consumed := s.consumed + {id});
      assert Gains(s, ran, ApprovedPlanEffects(cfg, p, automatic, env));
      var result := ToolResult(PlanValidator.PROPOSE_PLAN, if summary.completed then OK else PLAN_EXECUTION_FAILED);
      ResumeGains(ran, p, cfg.summaryText(summary), result, env);
      GainsTrans(s, ran, Resume(ran, p, cfg.summaryText(summary), result, env).state,
                 ApprovedPlanEffects(cfg, p, automatic, env), []);
    }
  }

  lemma RejectPlanGains(cfg: Config, s: State, id: nat, env: Env)
    ensures Gains(s, RejectPlan(cfg, s, id, env).state,
                  if PlanDecided(s, id) then [Rejected(s.pendingPlan.value.turn, id)] else [])
  {
    hide Resume;
    if PlanDecided(s, id) {
      var p := s.pendingPlan.value;
      var e := Rejected(p.turn, id);
      NotablesAppend(s.log, e);
      var s2 := Note(Post(s.(pendingPlan := None), Info(p.turn, APPROVAL_RESOLVED)), e).(consumed := s.consumed + {id});
      var result := ToolResult(PlanValidator.PROPOSE_PLAN, USER_REJECTED);
      ResumeGains(s2, p, cfg.errorText(result), result, env);
      GainsTrans(s, s2, Resume(s2, p, cfg.errorText(result), result, env).state, [e], []);
    }
  }

  lemma HoldPlanGains(s: State, t: nat, call: ToolCall, review: PlanReview.Review)
    ensures Gains(s, HoldPlan(s, t, call, review).state, [])
  {
    NotablesAppend(s.log, PlanReviewed(t, s.nextApproval, review.plan));
  }

  lemma RequestPlanReviewGains(cfg: Config, s: State, t: nat, call: ToolCall, env: Env)
    ensures Gains(s, RequestPlanReview(cfg, s, t, call, env).state, [])
  {
    hide PlanReview.ReviewOf, ApprovePlan, HoldPlan;
    var review := PlanReview.ReviewOf(cfg.rules.registry,
                                      PlanModel.Payload(cfg.rules.decode(call.arguments) - {"overall_risk"}),
                                      env.freshPlanId, cfg.describe);
    if review.Some? {
      HoldPlanGains(s, t, call, review.value);
      var s1 := HoldPlan(s, t, call, review.value).state;
      ApprovePlanGains(cfg, s1, s.nextApproval, true, env);
      GainsTrans(s, s1, ApprovePlan(cfg, s1, s.nextApproval, true, env).state, [], []);
    }
  }

  lemma ProposePlanGains(cfg: Config, s: State, t: nat, call: ToolCall, env: Env)
    ensures Gains(s, ProposePlan(cfg, s, t, call, env).state, [])
    ensures ProposePlan(cfg, s, t, call, env).Raised? ==> ProposePlan(cfg, s, t, call, env).fault == InvalidTransition
  {
    hide RequestPlanReview, RepairProposal, RefusePlan;
    var s1 := if RepairProposal(s.results) then s.(repairs := s.repairs + 1) else s;
    RequestPlanReviewGains(cfg, s1, t, call, env);
    var s2 := RequestPlanReview(cfg, s1, t, call, env).state;
    RefusePlanGains(cfg, s2, t, call, PLAN_VALIDATION_FAILED);
    RefusePlanGains(cfg, s, t, call, MAX_PLAN_REPAIRS_EXCEEDED);
    GainsTrans(s1, s2, RefusePlan(cfg, s2, t, call, PLAN_VALIDATION_FAILED).state, [], []);
    RefusalRaises(cfg, s, t, call, MAX_PLAN_REPAIRS_EXCEEDED);
    RefusalRaises(cfg, s2, t, call, PLAN_VALIDATION_FAILED);
  }

  lemma RefusalRaises(cfg: Config, s: State, t: nat, call: ToolCall, kind: ErrorKind)
    ensures RefusePlan(cfg, s, t, call, kind).Raised? ==> RefusePlan(cfg, s, t, call, kind).fault == InvalidTransition
  {
  }

  // ------------------------------------------------------------------------
  // Calls and events
  // ------------------------------------------------------------------------

  /** The call needs the user's approval and cannot be described to the user. */
  predicate Indescribable(cfg: Config, call: ToolCall) {
    Gated(cfg.rules, call) && !Describable(cfg.rules, call)
  }

  /** The work on a batch left notes exactly if a tool or a description raised: the note that its call did. */
  predicate CallNotes(cfg: Config, o: Outcome, t: nat, calls: seq<ToolCall>, env: Env, es: Log) {
    if o.Raised? && o.fault == ToolException
    then exists k :: 0 <= k < |calls| && env.tool(k).Raises? && es == [CallRaised(t, calls[k])]
    else if o.Raised? && o.fault == DescriptionFailed
    then exists k :: 0 <= k < |calls| && Indescribable(cfg, calls[k]) && es == [CallUndescribed(t, calls[k])]
    else es == []
  }

  lemma {:induction false} RunCallsGains(cfg: Config, s: State, t: nat, calls: seq<ToolCall>, i: nat, env: Env)
    returns (es: Log)
    requires i <= |calls|
    ensures Gains(s, RunCalls(cfg, s, t, calls, i, env).state, es)
    ensures CallNotes(cfg, RunCalls(cfg, s, t, calls, i, env), t, calls, env, es)
    decreases |calls| - i
  {
    hide ProposePlan, Gated, Describable, HoldCall, RecordTool, Strand, Fail, Delegate, Gains, Notables;
    es := [];
    SameGains(s, EXECUTING_TOOL);
    if i == |calls| {
      DelegateGains(s, t, env);
      DelegateRaises(s, t, env);
    } else if calls[i].toolName == PlanValidator.PROPOSE_PLAN {
      ProposePlanGains(cfg, s, t, calls[i], env);
    } else if Gated(cfg.rules, calls[i]) {
      HoldCallGains(cfg, s, t, calls[i]);
      HoldRaises(cfg, s, t, calls[i]);
      es := if CancelSet(s) || Describable(cfg.rules, calls[i]) then [] else [CallUndescribed(t, calls[i])];
    } else if !CancelSet(s) && Allowed(s.phase, EXECUTING_TOOL) {
      var s1 := s.(phase := EXECUTING_TOOL);
      if env.tool(i).Raises? {
        StrandGains(s1, t, calls[i], None, env.tool(i).kept);
        assert [] + [CallRaised(t, calls[i])] == [CallRaised(t, calls[i])];
        es := [CallRaised(t, calls[i])];
        GainsMore(s, s1, Strand(s1, t, calls[i], None, env.tool(i).kept));
        return;
      }
      RecordToolGains(cfg, s1, t, calls[i], None, env.tool(i));
      var s2 := RecordTool(cfg, s1, t, calls[i], None, env.tool(i));
      GainsTrans(s, s1, s2, [], []);
      FailGains(s2, t, TOOL_FAILURE);
      DelegateRaises(s2, t, env.(imagesFound := false));
      FailRaises(s2, t);
      GainsTrans(s, s2, Fail(s2, t, TOOL_FAILURE).state, [], []);
      if env.tool(i).Succeeds? && Allowed(s2.phase, PROCESSING) {
        SameGains(s2, PROCESSING);
        GainsTrans(s, s2, s2.(phase := PROCESSING), [], []);
        es := RunCallsGains(cfg, s2.(phase := PROCESSING), t, calls, i + 1, env);
        GainsMore(s, s2.(phase := PROCESSING), RunCalls(cfg, s2.(phase := PROCESSING), t, calls, i + 1, env).state);
      }
    }
  }

  lemma SameGains(s: State, phase: Phase)
    ensures Gains(s, s, []) && Gains(s, s.(phase := phase), [])
  {
  }

  lemma FailRaises(s: State, t: nat)
    ensures Fail(s, t, TOOL_FAILURE).Raised? ==> Fail(s, t, TOOL_FAILURE).fault == InvalidTransition
  {
  }

  lemma DelegateRaises(s: State, t: nat, env: Env)
    ensures Delegate(s, t, env).Raised? ==> Delegate(s, t, env).fault == InvalidTransition
  {
  }

  lemma HoldRaises(cfg: Config, s: State, t: nat, call: ToolCall)
    ensures var o := HoldCall(cfg, s, t, call);
            if Describable(cfg.rules, call) then o.Raised? ==> o.fault == InvalidTransition
            else o.Raised? && o.fault == DescriptionFailed
  {
    hide Describable;
  }

  /** The event is a request for tools that the main thread takes up. */
  predicate TakesRequest(s: State, e: Event) {
    Some(e.turn) == s.turn && e.Response? && !CancelSet(s) && e.calls != []
  }

  function EventCalls(e: Event): seq<ToolCall> {
    if e.Response? then e.calls else []
  }

  /** Processing an event counts a round exactly if it takes up a request. */
  lemma ProcessGains(cfg: Config, s: State, e: Event, env: Env) returns (es: Log)
    ensures var o := ProcessEvent(cfg, s, e, env);
            && Gains(s.(round := s.round + if TakesRequest(s, e) then 1 else 0), o.state, es)
            && CallNotes(cfg, o, e.turn, EventCalls(e), env, es)
  {
    hide RunCalls, Fail, SpokenText, FinalText;
    es := [];
    NotablesAppend(s.log, Ended(e.turn));
    if TakesRequest(s, e) {
      var s1 := s.(round := s.round + 1);
      if s1.round > cfg.rules.maxToolRounds {
        FailGains(s1, e.turn, MAX_TOOL_ROUNDS_EXCEEDED);
        RoundRaises(s1, e.turn);
      } else {
        var asked := Say(s1, AssistantMessage(SpokenText(s.streaming, e.text), e.calls)).(streaming := "");
        es := RunCallsGains(cfg, asked, e.turn, e.calls, 0, env);
      }
    }
  }

  lemma RoundRaises(s: State, t: nat)
    ensures Fail(s, t, MAX_TOOL_ROUNDS_EXCEEDED).Raised? ==>
            Fail(s, t, MAX_TOOL_ROUNDS_EXCEEDED).fault == InvalidTransition
  {
  }

  // ------------------------------------------------------------------------
  // The user's decisions on a call
  // ------------------------------------------------------------------------

  predicate CallDecided(s: State, id: nat) {
    CheckPendingCall(s, id).None? && !CancelSet(s)
  }

  /** What approving a call writes. */
  function ApprovedCallEffects(p: PendingCall, env: Env): Log {
    [Approved(p.turn, p.id), CallDispatched(p.turn, Some(p.id), p.call)]
    + if env.tool(0).Raises? then [CallRaised(p.turn, p.call)] else []
  }

  lemma ApproveGains(cfg: Config, s: State, id: nat, env: Env)
    ensures Gains(s, Approve(cfg, s, id, env).state,
                  if CallDecided(s, id) then ApprovedCallEffects(s.pendingCall.value, env) else [])
  {
    hide RecordTool, Strand, Fail, Delegate;
    if CallDecided(s, id) {
      var p := s.pendingCall.value;
      var a, d := Approved(p.turn, id), CallDispatched(p.turn, Some(id), p.call);
      NotablesAppend(s.log, a);
      var s2 := Note(Post(s.(pendingCall := None), Info(p.turn, APPROVAL_RESOLVED)), a).(phase := EXECUTING_TOOL);
      if env.tool(0).Raises? {
        StrandGains(s2, p.turn, p.call, Some(id), env.tool(0).kept);
        GainsTrans(s, s2, Strand(s2, p.turn, p.call, Some(id), env.tool(0).kept), [a],
                   [d] + [CallRaised(p.turn, p.call)]);
        assert [a] + ([d] + [CallRaised(p.turn, p.call)]) == ApprovedCallEffects(p, env);
        return;
      }
      RecordToolGains(cfg, s2, p.turn, p.call, Some(id), env.tool(0));
      var s3 := RecordTool(cfg, s2, p.turn, p.call, Some(id), env.tool(0));
      GainsTrans(s, s2, s3, [a], [d]);
      assert [a] + [d] == ApprovedCallEffects(p, env);
      FailGains(s3, p.turn, TOOL_FAILURE);
      DelegateGains(s3.(phase := PROCESSING), p.turn, env);
      GainsTrans(s, s3, Fail(s3, p.turn, TOOL_FAILURE).state, [a] + [d], []);
      GainsTrans(s, s3.(phase := PROCESSING), Delegate(s3.(phase := PROCESSING), p.turn, env).state, [a] + [d], []);
    }
  }

  lemma RejectGains(cfg: Config, s: State, id: nat, env: Env)
    ensures Gains(s, Reject(cfg, s, id, env).state,
                  if CallDecided(s, id) then [Rejected(s.pendingCall.value.turn, id)] else [])
  {
    hide Delegate;
    if CallDecided(s, id) {
      var p := s.pendingCall.value;
      var e := Rejected(p.turn, id);
      NotablesAppend(s.log, e);
      var result := ToolResult(p.call.toolName, USER_REJECTED);
      var s2 := Keep(Note(Post(s.(pendingCall := None), Info(p.turn, APPROVAL_RESOLVED)), e), result);
      var s3 := Post(Say(s2, ToolMessage(cfg.errorText(result), p.call.callId, Some(p.call.toolName), None)),
                     Info(p.turn, TOOL_RESULT_READY)).(phase := PROCESSING);
      DelegateGains(s3, p.turn, env);
      GainsTrans(s, s3, Delegate(s3, p.turn, env).state, [e], []);
    }
  }

  lemma CancelGains(s: State)
    ensures Gains(s, Cancel(s), [])
  {
    hide Discard, Notables;
    DiscardKeeps(s.(pendingCall := None, pendingPlan := None, repairs := 0));
    DiscardKeepsTurn(s.(pendingCall := None, pendingPlan := None, repairs := 0));
    if s.turn.Some? {
      NotablesAppend(s.log, Ended(s.turn.value));
    }
  }

  lemma DiscardKeepsTurn(s: State)
    ensures Discard(s).turn == s.turn
  {
  }

  /** The worker's task ends here without an answer, though it was not cancelled or the stream just ends. */
  predicate FallsSilent(s: State, ev: StreamEvent) {
    s.worker.Working? && (ev.Exhausted? || (ev == Failure(true) && s.worker.turn !in s.cancelled))
  }

  function SilenceNotes(s: State, ev: StreamEvent): Log {
    if FallsSilent(s, ev) then [WentSilent(s.worker.turn)] else []
  }

  lemma WorkerGains(s: State, ev: StreamEvent)
    ensures s.worker.Resting? && s.tasks != [] ==> Gains(s, WorkerTake(s), [])
    ensures s.worker.Working? ==> Gains(s, WorkerObserve(s, ev), SilenceNotes(s, ev))
    ensures s.worker.Posting? ==> Gains(s, WorkerPost(s), [])
  {
    if !s.worker.Resting? {
      NotablesAppend(s.log, WentSilent(s.worker.turn));
    }
  }

  // ------------------------------------------------------------------------
  // Starting a prompt
  // ------------------------------------------------------------------------

  /** The start is refused before anything is opened. */
  predicate StartRefused(s: State) {
    !ValidSequence(s.conversation) && s.start.None?
  }

  /** The conversation that a start goes on with: one that is not whole is cut back to where its last turn began. */
  function Recovered(s: State): seq<Message> {
    if ValidSequence(s.conversation) then s.conversation else Discard(s).conversation
  }

  /** Pruning or compacting this conversation raises. */
  predicate ContextBreaks(cfg: Config, ms: seq<Message>) {
    match Turns.Prune(ms, Turns.RETAINED_TURNS_COUNT, cfg.pruner)
    case None => true
    case Some((pruned, _)) =>
      Turns.Compact(pruned, Turns.COMPACTION_TRIGGER_CHARS, Turns.RETAINED_TURNS_COUNT, cfg.pruner,
                    cfg.summarizer).None?
  }

  /** The check of the context breaks off the start of this prompt, once its turn is open. */
  predicate StartBreaks(cfg: Config, s: State, p: Prompt) {
    && !StartRefused(s) && s.pendingCall.None?
    && ContextBreaks(cfg, Recovered(s) + [UserMessage(p.text, p.imageId)])
  }

  /** A start that is neither refused nor broken off finds an image missing. */
  predicate StartMisses(cfg: Config, s: State, p: Prompt, env: Env) {
    !StartRefused(s) && !StartBreaks(cfg, s, p) && !env.imagesFound
  }

  /** The mishap of a start. */
  function StartNotes(cfg: Config, s: State, p: Prompt, env: Env): Log {
    if StartBreaks(cfg, s, p) then [BrokeOff(s.counter + 1)]
    else if StartMisses(cfg, s, p, env) then [MissedImage(s.counter + 1)]
    else []
  }

  /** A start writes its mishap, and ends as that says; and nothing is opened if it is refused. */
  lemma StartGains(cfg: Config, s: State, p: Prompt, env: Env)
    requires !Runtime.Busy(s)
    ensures var o := StartPrompt(cfg, s, p, env);
            && Notables(o.state.log) == Notables(s.log) + StartNotes(cfg, s, p, env)
            && (o.Raised? && o.fault == CompactionFailed <==> StartBreaks(cfg, s, p))
            && o.state.prompts == s.prompts
            && o.state.counter == s.counter + (if StartRefused(s) then 0 else 1)
            && (if StartRefused(s) then o == Raised(BrokenConversation, o.state) && o.state.round == s.round
                else o.state.round == 0)
  {
    hide ContextBreaks, ValidSequence, Discard, OpenTurn, CompactContext, SubmitTask, Notables;
    var s1 := if s.phase == ERROR then s.(phase := IDLE) else s;
    DiscardKeeps(s1);
    if !StartRefused(s) {
      DiscardFrame(s, s1);
      var s2 := Recover(s1).state;
      OpenTurnGains(s2, p);
      var s3 := OpenTurn(s2, p);
      assert s2.conversation == Recovered(s);
      BreaksExactly(cfg, s3);
      var compaction := CompactContext(cfg, s3);
      LaunchGains(s3.(conversation := compaction.conversation), env, compaction.Broke?);
    }
  }

  lemma DiscardFrame(s: State, s1: State)
    requires s1 == s.(phase := s1.phase)
    ensures Discard(s1).conversation == Discard(s).conversation && Discard(s1).pendingCall == s.pendingCall
  {
  }

  lemma BreaksExactly(cfg: Config, s: State)
    requires s.phase == IDLE
    ensures CompactContext(cfg, s).Broke? <==> s.pendingCall.None? && ContextBreaks(cfg, s.conversation)
  {
    hide Turns.Prune, Turns.Compact;
  }

  lemma OpenTurnGains(s: State, p: Prompt)
    ensures var r := OpenTurn(s, p);
            && Notables(r.log) == Notables(s.log) && r.prompts == s.prompts && r.counter == s.counter + 1
               && r.round == 0
            && r.phase == s.phase && r.pendingCall == s.pendingCall
            && r.conversation == s.conversation + [UserMessage(p.text, p.imageId)]
  {
    NotablesAppend(s.log, Started(s.counter + 1));
  }

  /** The three ways in which a start ends, once its turn is open. */
  function Launch(s: State, env: Env, broke: bool): Outcome {
    if broke then Raised(CompactionFailed, Note(s, BrokeOff(s.counter)))
    else
      var s4 :- To(s, PROCESSING);
      var s5 := Post(s4, Info(s4.counter, PROMPT_SUBMITTED));
      if env.imagesFound then Done(SubmitTask(s5, s5.counter)) else Done(WedgeOf(s5))
  }

  lemma LaunchGains(s: State, env: Env, broke: bool)
    requires s.phase == IDLE
    ensures var o := Launch(s, env, broke);
            && Gains(s, o.state, if broke then [BrokeOff(s.counter)]
                                 else if env.imagesFound then [] else [MissedImage(s.counter)])
            && (o.Raised? && o.fault == CompactionFailed <==> broke)
  {
    var t := s.counter;
    NotablesAppend(s.log, TaskSubmitted(t));
    NotablesAppend(s.log, MissedImage(t));
    NotablesAppend(s.log, BrokeOff(t));
  }

  lemma DiscardKeeps(s: State)
    ensures var r := Discard(s);
            r.log == s.log && r.prompts == s.prompts && r.counter == s.counter && r.round == s.round
              && r.phase == s.phase
  {
  }

  // ------------------------------------------------------------------------
  // Steps
  // ------------------------------------------------------------------------

  /** A prompt that a step gives to a start, if it does. */
  predicate Starts(s: State, step: Step) {
    !Runtime.Busy(s) && (step.DoSubmit? || (step.DoPump? && s.prompts != []))
  }

  /** The prompt that a starting step gives to the start. */
  function Given(s: State, step: Step): Prompt
    requires Starts(s, step)
  {
    if step.DoSubmit? then step.prompt else s.prompts[0]
  }

  /** The notable effects that a step writes, decision by decision and mishap by mishap. */
  predicate Writes(cfg: Config, s: State, step: Step, es: Log) {
    match step
    case DoApprove(id, env) => es == if CallDecided(s, id) then ApprovedCallEffects(s.pendingCall.value, env) else []
    case DoReject(id, env) => es == if CallDecided(s, id) then [Rejected(s.pendingCall.value.turn, id)] else []
    case DoApprovePlan(id, env) =>
      es == if PlanDecided(s, id) then ApprovedPlanEffects(cfg, s.pendingPlan.value, false, env) else []
    case DoRejectPlan(id, env) => es == if PlanDecided(s, id) then [Rejected(s.pendingPlan.value.turn, id)] else []
    case DoSubmit(_, env) => es == if Starts(s, step) then StartNotes(cfg, s, Given(s, step), env) else []
    case DoPump(env) => es == if Starts(s, step) then StartNotes(cfg, s, Given(s, step), env) else []
    case DoProcess(env) =>
      if s.events == [] then es == []
      else CallNotes(cfg, Attempt(cfg, s, step), s.events[0].turn, EventCalls(s.events[0]), env, es)
    case DoObserve(ev) => es == SilenceNotes(s, ev)
    case _ => es == []
  }

  lemma PopFrame(cfg: Config, s: State, p: Prompt, env: Env)
    requires s.prompts != []
    ensures StartNotes(cfg, s.(prompts := s.prompts[1..]), p, env) == StartNotes(cfg, s, p, env)
  {
    hide ContextBreaks, ValidSequence;
  }

  /** Every step writes exactly the notable effects that belong to it. */
  lemma StepWrites(cfg: Config, s: State, step: Step) returns (es: Log)
    ensures Notables(Next(cfg, s, step).log) == Notables(s.log) + es && Writes(cfg, s, step, es)
  {
    hide StartPrompt, ProcessEvent, Approve, Reject, ApprovePlan, RejectPlan, Cancel, WorkerTake, WorkerObserve,
      WorkerPost, CancelSet, CallNotes, StartNotes, ApprovedCallEffects, ApprovedPlanEffects;
    es := [];
    match step
    case DoSubmit(p, env) =>
      if Starts(s, step) {
        StartGains(cfg, s, p, env);
        es := StartNotes(cfg, s, p, env);
      }
    case DoPump(env) =>
      if Starts(s, step) {
        StartGains(cfg, s.(prompts := s.prompts[1..]), s.prompts[0], env);
        PopFrame(cfg, s, s.prompts[0], env);
        es := StartNotes(cfg, s, s.prompts[0], env);
      }
    case DoProcess(env) =>
      if s.events != [] {
        es := ProcessGains(cfg, Popped(s), s.events[0], env);
      }
    case DoApprove(id, env) =>
      ApproveGains(cfg, s, id, env);
      es := if CallDecided(s, id) then ApprovedCallEffects(s.pendingCall.value, env) else [];
    case DoReject(id, env) =>
      RejectGains(cfg, s, id, env);
      es := if CallDecided(s, id) then [Rejected(s.pendingCall.value.turn, id)] else [];
    case DoApprovePlan(id, env) =>
      ApprovePlanGains(cfg, s, id, false, env);
      es := if PlanDecided(s, id) then ApprovedPlanEffects(cfg, s.pendingPlan.value, false, env) else [];
    case DoRejectPlan(id, env) =>
      RejectPlanGains(cfg, s, id, env);
      es := if PlanDecided(s, id) then [Rejected(s.pendingPlan.value.turn, id)] else [];
    case DoCancel => CancelGains(s);
    case DoTake => WorkerGains(s, Exhausted);
    case DoObserve(ev) =>
      WorkerGains(s, ev);
      es := SilenceNotes(s, ev);
    case DoPost => WorkerGains(s, Exhausted);
  }

  // ------------------------------------------------------------------------
  // Decisions are the user's own, mishaps have their cause
  // ------------------------------------------------------------------------

  /** The step processes a response of turn t and runs a call of it whose tool raises. */
  predicate RaisesInBatch(s: State, step: Step, t: nat, call: ToolCall) {
    && step.DoProcess? && s.events != [] && s.events[0].turn == t
    && exists k :: 0 <= k < |EventCalls(s.events[0])| && EventCalls(s.events[0])[k] == call && step.env.tool(k).Raises?
  }

  /** The step processes a response of turn t with this call, which needs approval and cannot be described. */
  predicate IndescribableInBatch(cfg: Config, s: State, step: Step, t: nat, call: ToolCall) {
    step.DoProcess? && s.events != [] && s.events[0].turn == t && call in EventCalls(s.events[0])
      && Indescribable(cfg, call)
  }

  /**
   * In state s this step is the cause of `e`: the user takes exactly the decision that `e` is or rests on, or
   * exactly this mishap happens.
   */
  predicate CausedBy(cfg: Config, s: State, step: Step, e: Effect) {
    match e
    case Approved(t, id) =>
      || (step.DoApprove? && step.id == id && CallDecided(s, id) && s.pendingCall.value.turn == t)
      || (step.DoApprovePlan? && step.id == id && PlanDecided(s, id) && s.pendingPlan.value.turn == t)
    case Rejected(t, id) =>
      || (step.DoReject? && step.id == id && CallDecided(s, id) && s.pendingCall.value.turn == t)
      || (step.DoRejectPlan? && step.id == id && PlanDecided(s, id) && s.pendingPlan.value.turn == t)
    case CallDispatched(t, licence, call) =>
      && step.DoApprove? && licence == Some(step.id) && CallDecided(s, step.id)
      && s.pendingCall == Some(PendingCall(step.id, t, call))
    case PlanRun(t, id, automatic, plan, summary) =>
      && !automatic && step.DoApprovePlan? && step.id == id && PlanDecided(s, id)
      && s.pendingPlan.value.turn == t && s.pendingPlan.value.review.plan == plan
      && summary == RunPlan(cfg, s.pendingPlan.value, step.env)
    case MissedImage(t) => Starts(s, step) && t == s.counter + 1 && StartMisses(cfg, s, Given(s, step), step.env)
    case BrokeOff(t) => Starts(s, step) && t == s.counter + 1 && StartBreaks(cfg, s, Given(s, step))
    case CallRaised(t, call) =>
      || RaisesInBatch(s, step, t, call)
      || (step.DoApprove? && CallDecided(s, step.id) && step.env.tool(0).Raises?
          && s.pendingCall.value.turn == t && s.pendingCall.value.call == call)
    case CallUndescribed(t, call) => IndescribableInBatch(cfg, s, step, t, call)
    case WentSilent(t) => step.DoObserve? && FallsSilent(s, step.ev) && s.worker.turn == t
    case _ => false
  }

  lemma WrittenHasCause(cfg: Config, s: State, step: Step, es: Log, e: Effect)
    requires Writes(cfg, s, step, es) && e in es
    ensures CausedBy(cfg, s, step, e)
  {
    hide StartBreaks, StartRefused, Attempt, RunPlan, Gated, Describable;
  }

  /** The n-th step of a run is the cause of `e` and writes it. */
  ghost predicate CausedAt(cfg: Config, steps: seq<Step>, n: nat, e: Effect)
    requires n < |steps|
  {
    && CausedBy(cfg, Run(cfg, Initial, steps[..n]), steps[n], e)
    && e !in Run(cfg, Initial, steps[..n]).log && e in Run(cfg, Initial, steps[..n + 1]).log
  }

  /**
   * In every run, each approval and each rejection in the log, each dispatch under an approval and each plan
   * that did not start unasked was written by a step in which the user took that very decision, on the very
   * call or plan that was pending then; and each mishap by the step that met with it.
   */
  lemma {:induction false} EffectsHaveCauses(cfg: Config, steps: seq<Step>, e: Effect)
    requires Notable(e) && e in Run(cfg, Initial, steps).log
    ensures exists n: nat :: n < |steps| && CausedAt(cfg, steps, n, e)
  {
    hide Next, CausedBy, Notable, Writes, Notables;
    var last := |steps| - 1;
    var before := steps[..last];
    var s := Run(cfg, Initial, before);
    if e in s.log {
      EffectsHaveCauses(cfg, before, e);
      var n: nat :| n < |before| && CausedAt(cfg, before, n, e);
      assert before[..n] == steps[..n] && before[..n + 1] == steps[..n + 1] && before[n] == steps[n];
      assert CausedAt(cfg, steps, n, e);
    } else {
      var es := StepWrites(cfg, s, steps[last]);
      NotablesHold(s.log);
      NotablesHold(Next(cfg, s, steps[last]).log);
      assert e in es;
      WrittenHasCause(cfg, s, steps[last], es, e);
      assert steps[..last + 1] == steps;
      assert CausedAt(cfg, steps, last, e);
    }
  }

  /**
   * So, in every run: a call that the policy stops reaches its tool only through the step in which the user
   * approved that call; and a plan runs only through the step in which the user approved that plan, or unasked,
   * with the settings allowing it and a low risk.
   */
  lemma NothingGatedRunsUnapproved(cfg: Config, steps: seq<Step>, e: Effect)
    requires RuntimeLicence.Sound(cfg) && RuntimeLicence.SoundSteps(steps) && e in Run(cfg, Initial, steps).log
    ensures e.CallDispatched? && Gated(cfg.rules, e.call) ==> exists n: nat :: n < |steps| && CausedAt(cfg, steps, n, e)
    ensures e.PlanRun? ==>
              || (e.automatic && cfg.rules.autoApprove && Policy.LowRisk(e.plan))
              || exists n: nat :: n < |steps| && CausedAt(cfg, steps, n, e)
  {
    hide Run, CausedAt, Gated, Lawful, RuntimeLicence.Sound, RuntimeLicence.SoundSteps, RanInOrder,
      PlanValidator.Canonical, ApprovedBefore;
    RuntimeLicence.EveryRunIsLawful(cfg, steps);
    var h := Run(cfg, Initial, steps).log;
    var j :| 0 <= j < |h| && h[j] == e;
    if e.CallDispatched? {
      DispatchLicensed(cfg.rules, h, j);
    } else if e.PlanRun? {
      PlanRunLicensed(cfg.rules, h, j);
    }
    if NeedsUser(e) {
      EffectsHaveCauses(cfg, steps, e);
    }
  }

  /** The notable part of the log only grows. */
  lemma {:induction false} NotablesGrow(cfg: Config, s: State, steps: seq<Step>)
    ensures Notables(s.log) <= Notables(Run(cfg, s, steps).log)
  {
    hide Next, Notables, Writes;
    if steps != [] {
      var before := steps[..|steps| - 1];
      NotablesGrow(cfg, s, before);
      var es := StepWrites(cfg, Run(cfg, s, before), steps[|steps| - 1]);
    }
  }
}
