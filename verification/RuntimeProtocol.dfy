/** The conversation over whole runs: requests and replies stay matched while the runtime works. */
module RuntimeProtocol {
  import opened PyText
  import opened Chat
  import opened StateMachine
  import opened RuntimeLog
  import opened Runtime
  import opened RuntimeShape
  import opened Turns
  import ContextGuard
  import PlanModel
  import PlanReview
  import PlanValidator
  import PlanExecutor

  // ------------------------------------------------------------------------
  // One call per response
  // ------------------------------------------------------------------------

  /** What the provider is asked for, and what the constructor of a tool call guarantees. */
  predicate OneCall(calls: seq<ToolCall>) {
    |calls| <= 1 && forall c <- calls :: !Blank(c.callId)
  }

  predicate OneCallEvent(e: Event) {
    e.Response? ==> OneCall(e.calls)
  }

  predicate OneCallQueue(events: seq<Event>) {
    forall e <- events :: OneCallEvent(e)
  }

  predicate OneCallStep(step: Step) {
    step.DoObserve? && step.ev.Completed? ==> OneCall(step.ev.calls)
  }

  predicate OneCallSteps(steps: seq<Step>) {
    forall i :: 0 <= i < |steps| ==> OneCallStep(steps[i])
  }

  // ------------------------------------------------------------------------
  // The invariant
  // ------------------------------------------------------------------------

  /** The call id that approving or rejecting will answer. */
  function PendingId(s: State): Option<string> {
    if s.pendingCall.Some? then Some(s.pendingCall.value.call.callId)
    else if s.pendingPlan.Some? then Some(AnswerId(s.pendingPlan.value))
    else None
  }

  /** Messages as the constructor admits them, each asking for one call at most. */
  predicate Orderly(conversation: seq<Message>) {
    AllWellFormed(conversation) && forall m <- conversation :: |m.toolCalls| <= 1
  }

  predicate Whole(conversation: seq<Message>) {
    Orderly(conversation) && ValidSequence(conversation)
  }

  /** Exactly one call is unanswered. */
  predicate Owes(conversation: seq<Message>, callId: string) {
    && Orderly(conversation) && !Blank(callId)
    && Scan({}, conversation) == Some({callId})
  }

  /** Exactly the call whose execution raised is unanswered. */
  predicate OwesRaised(s: State) {
    exists e <- s.log :: e.CallRaised? && e.turn == s.counter && Owes(s.conversation, e.call.callId)
  }

  /** Exactly the call that could not be described is unanswered. */
  predicate OwesUndescribed(s: State) {
    exists e <- s.log :: e.CallUndescribed? && e.turn == s.counter && Owes(s.conversation, e.call.callId)
  }

  /**
   * At rest the conversation is whole, owes the reply that is being decided on or that an exception left
   * out, or was cut by a cancellation.
   */
  predicate Consistent(s: State) {
    && Orderly(s.conversation)
    && (match s.phase
        case PENDING_APPROVAL => PendingId(s).Some? && Owes(s.conversation, PendingId(s).value)
        case PROCESSING => if UndescribedIn(s.log, s.counter) then OwesUndescribed(s) else ValidSequence(s.conversation)
        case EXECUTING_TOOL => OwesRaised(s)
        case _ => s.start.Some? || s.turn.Some? ==> ValidSequence(s.conversation))
  }

  predicate OneCallState(s: State) {
    OneCallQueue(s.events) && (s.worker.Posting? ==> OneCallEvent(s.worker.event))
  }

  ghost predicate ProtocolInv(s: State) {
    ShapeInv(s) && OneCallState(s) && Consistent(s)
  }

  // ------------------------------------------------------------------------
  // Messages
  // ------------------------------------------------------------------------

  lemma OrderlyAppend(ms: seq<Message>, m: Message)
    ensures Orderly(ms + [m]) <==> Orderly(ms) && m.WellFormed() && |m.toolCalls| <= 1
  {
    assert m in ms + [m] && forall x <- ms :: x in ms + [m];
  }

  lemma AskOne(ms: seq<Message>, content: Option<string>, call: ToolCall)
    requires Whole(ms) && !Blank(call.callId)
    ensures Owes(ms + [AssistantMessage(content, [call])], call.callId)
  {
    var m := AssistantMessage(content, [call]);
    OrderlyAppend(ms, m);
    ScanAppend({}, ms, m);
    assert CallIds([call]) == {call.callId};
  }

  lemma AnswerOne(ms: seq<Message>, callId: string, content: string, name: Option<string>, image: Option<string>)
    requires Owes(ms, callId)
    ensures Whole(ms + [ToolMessage(content, callId, name, image)])
  {
    var m := ToolMessage(content, callId, name, image);
    OrderlyAppend(ms, m);
    ScanAppend({}, ms, m);
    assert {callId} - {callId} == {};
  }

  lemma SpeakOne(ms: seq<Message>, text: string)
    requires Whole(ms)
    ensures Whole(ms + [AssistantMessage(Some(text), [])])
  {
    var m := AssistantMessage(Some(text), []);
    OrderlyAppend(ms, m);
    ScanAppend({}, ms, m);
    assert CallIds([]) == {};
  }

  lemma PromptOne(ms: seq<Message>, text: string, image: Option<string>)
    requires Whole(ms)
    ensures Whole(ms + [UserMessage(text, image)])
  {
    OrderlyAppend(ms, UserMessage(text, image));
    ScanAppend({}, ms, UserMessage(text, image));
  }

  // ------------------------------------------------------------------------
  // Serving a turn
  // ------------------------------------------------------------------------

  lemma DelegateProtocol(s: State, t: nat, env: Env)
    requires Serving(s, t) && s.phase == PROCESSING && OneCallState(s) && Whole(s.conversation)
    ensures ProtocolInv(Delegate(s, t, env).state)
  {
    hide Orderly, ValidSequence, ShapeInv;
    DelegateShape(s, t, env);
  }

  lemma FailProtocol(s: State, t: nat, kind: ErrorKind)
    requires Serving(s, t) && OneCallState(s) && Whole(s.conversation)
    ensures ProtocolInv(Fail(s, t, kind).state)
  {
    hide Orderly, ValidSequence;
    FailShape(s, t, kind);
  }

  lemma UndescribedProtocol(s: State, t: nat, call: ToolCall)
    requires Serving(s, t) && s.phase == PROCESSING && OneCallState(s) && Owes(s.conversation, call.callId)
    ensures ProtocolInv(Note(s, CallUndescribed(t, call)))
  {
    hide Owes, Orderly, ShapeInv;
    UndescribedShape(s, t, call);
    var r := Note(s, CallUndescribed(t, call));
    assert r.log[|r.log| - 1] == CallUndescribed(t, call);
    OwesOrderly(s.conversation, call.callId);
    ServingNewest(s, t);
  }

  lemma HoldCallProtocol(cfg: Config, s: State, t: nat, call: ToolCall)
    requires Serving(s, t) && s.phase == PROCESSING && OneCallState(s) && Owes(s.conversation, call.callId)
    ensures ProtocolInv(HoldCall(cfg, s, t, call).state)
  {
    hide Owes, Orderly, ValidSequence, Scan, Blank, Describable, Served, PhaseInv, Numbered, NothingInFlight, Mishaps;
    OwesOrderly(s.conversation, call.callId);
    if !Describable(cfg.rules, call) {
      UndescribedProtocol(s, t, call);
      return;
    }
    HoldCallShape(cfg, s, t, call);
  }

  lemma RecordToolProtocol(cfg: Config, s: State, t: nat, call: ToolCall, id: Option<nat>, reply: ToolReply)
    requires Serving(s, t) && OneCallState(s) && Owes(s.conversation, call.callId) && !reply.Raises?
    ensures var r := RecordTool(cfg, s, t, call, id, reply);
            Serving(r, t) && r.phase == s.phase && OneCallState(r) && Whole(r.conversation)
  {
    hide Whole, Owes;
    RecordToolShape(cfg, s, t, call, id, reply);
    AnswerOne(s.conversation, call.callId, reply.content, Some(call.toolName),
              if reply.Succeeds? then reply.imageId else None);
  }

  lemma StrandProtocol(s: State, t: nat, call: ToolCall, id: Option<nat>, kept: Option<bool>)
    requires Serving(s, t) && s.phase == EXECUTING_TOOL && OneCallState(s) && Owes(s.conversation, call.callId)
    ensures ProtocolInv(Strand(s, t, call, id, kept))
  {
    hide Owes, Orderly, ShapeInv;
    StrandShape(s, t, call, id, kept);
    var r := Strand(s, t, call, id, kept);
    assert r.log[|r.log| - 1] == CallRaised(t, call);
    OwesOrderly(s.conversation, call.callId);
    ServingNewest(s, t);
  }

  lemma OwesOrderly(ms: seq<Message>, callId: string)
    requires Owes(ms, callId)
    ensures Orderly(ms)
  {
  }

  lemma ServingNewest(s: State, t: nat)
    requires Serving(s, t)
    ensures t == s.counter
  {
  }

  lemma RefusePlanProtocol(cfg: Config, s: State, t: nat, call: ToolCall, kind: ErrorKind)
    requires Serving(s, t) && OneCallState(s) && Owes(s.conversation, call.callId)
    ensures ProtocolInv(RefusePlan(cfg, s, t, call, kind).state)
  {
    hide Owes, Whole, Orderly, ValidSequence;
    RefusePlanShape(cfg, s, t, call, kind);
    var result := ToolResult(PlanValidator.PROPOSE_PLAN, REFUSED);
    AnswerOne(s.conversation, call.callId, cfg.errorText(result), Some(PlanValidator.PROPOSE_PLAN), None);
    WholeMeaning(s.conversation
                 + [ToolMessage(cfg.errorText(result), call.callId, Some(PlanValidator.PROPOSE_PLAN), None)]);
  }

  lemma WholeMeaning(ms: seq<Message>)
    ensures Whole(ms) <==> Orderly(ms) && ValidSequence(ms)
  {
  }

  // ------------------------------------------------------------------------
  // Plans
  // ------------------------------------------------------------------------

  predicate PlanOwed(s: State) {
    s.pendingPlan.Some? && Owes(s.conversation, AnswerId(s.pendingPlan.value))
  }

  lemma ResumeProtocol(s: State, p: PendingPlan, content: string, result: ToolResult, env: Env)
    requires Serving(s, p.turn) && s.phase in {PENDING_APPROVAL, EXECUTING_TOOL} && OneCallState(s)
    requires Owes(s.conversation, AnswerId(p))
    ensures ProtocolInv(Resume(s, p, content, result, env).state)
  {
    hide Owes, Whole, ShapeInv, Delegate, AnswerId;
    AnswerPlanShape(s, p, content, result);
    AnswerOne(s.conversation, AnswerId(p), content, Some(PlanValidator.PROPOSE_PLAN), None);
    DelegateProtocol(AnswerPlan(s, p, content, result).(phase := PROCESSING), p.turn, env);
  }

  lemma ReleasePlanProtocol(s: State, t: nat, id: nat, es: Log) returns (r: State)
    requires PlanHeld(s, t, id) && OneCallState(s) && forall e <- es :: Harmless(e) && e.turn == t
    ensures r == Post(s.(pendingPlan := None), Info(t, APPROVAL_RESOLVED)).(
                   log := s.log + es, consumed := s.consumed + {id})
    ensures Serving(r, t) && Serving(r.(phase := EXECUTING_TOOL), t) && OneCallState(r)
    ensures !CancelSet(s) && CheckPendingPlan(s, id).None?
  {
    r := ReleasePlanShape(s, t, id, es);
  }

  lemma ApprovePlanProtocol(cfg: Config, s: State, t: nat, id: nat, automatic: bool, env: Env)
    requires PlanHeld(s, t, id) && OneCallState(s) && PlanOwed(s)
    ensures ProtocolInv(ApprovePlan(cfg, s, id, automatic, env).state)
  {
    hide RunPlan, Resume, Owes, ShapeInv, Consistent, Serving, Consent, OneCallState, Numbered, NothingInFlight,
      Unharmed;
    var p := s.pendingPlan.value;
    var summary := RunPlan(cfg, p, env);
    var run := PlanRun(t, id, automatic, p.review.plan, summary);
    ConsentedRun(s.(pendingPlan := None), p, automatic, run);
    var r := ReleasePlanProtocol(s, t, id, PlanEffects(t, id, automatic, run));
    PhaseOneCall(r, EXECUTING_TOOL);
    ResumeProtocol(r.(phase := EXECUTING_TOOL), p, cfg.summaryText(summary),
                   ToolResult(PlanValidator.PROPOSE_PLAN, if summary.completed then OK else PLAN_EXECUTION_FAILED),
                   env);
  }

  lemma PhaseOneCall(s: State, phase: Phase)
    requires OneCallState(s)
    ensures OneCallState(s.(phase := phase))
  {
  }

  lemma RejectPlanProtocol(cfg: Config, s: State, t: nat, id: nat, env: Env)
    requires PlanHeld(s, t, id) && OneCallState(s) && PlanOwed(s)
    ensures ProtocolInv(RejectPlan(cfg, s, id, env).state)
  {
    hide Resume, Owes, ShapeInv, Consistent, Serving, OneCallState;
    var r := ReleasePlanProtocol(s, t, id, [Rejected(t, id)]);
    var result := ToolResult(PlanValidator.PROPOSE_PLAN, USER_REJECTED);
    ResumeProtocol(r, s.pendingPlan.value, cfg.errorText(result), result, env);
  }

  lemma HoldPlanProtocol(s: State, t: nat, call: ToolCall, review: PlanReview.Review)
    requires Serving(s, t) && s.phase == PROCESSING && OneCallState(s) && Owes(s.conversation, call.callId)
    ensures var r := HoldPlan(s, t, call, review);
            && r.Done? && PlanHeld(r.state, t, s.nextApproval) && OneCallState(r.state) && PlanOwed(r.state)
            && ProtocolInv(Post(r.state, Info(t, APPROVAL_REQUIRED)))
  {
    hide ShapeInv, Scan, Orderly;
    HoldPlanShape(s, t, call, review);
    assert call.callId != "" by { EmptyIsBlank(); }
  }

  lemma EmptyIsBlank()
    ensures Blank("")
  {
  }

  lemma RequestPlanReviewProtocol(cfg: Config, s: State, t: nat, call: ToolCall, env: Env)
    requires Serving(s, t) && s.phase == PROCESSING && OneCallState(s) && Owes(s.conversation, call.callId)
    ensures var r := RequestPlanReview(cfg, s, t, call, env);
            if r.Done? then ProtocolInv(r.state) else r == Raised(PlanRefused, s)
  {
    hide PlanReview.ReviewOf, HoldPlan, ApprovePlan, ShapeInv, Owes, Consistent;
    RequestPlanReviewShape(cfg, s, t, call, env);
    var review := PlanReview.ReviewOf(cfg.rules.registry,
                                      PlanModel.Payload(cfg.rules.decode(call.arguments) - {"overall_risk"}),
                                      env.freshPlanId, cfg.describe);
    if review.Some? {
      HoldPlanProtocol(s, t, call, review.value);
      var s1 := HoldPlan(s, t, call, review.value).state;
      ApprovePlanShape(cfg, s1, t, s.nextApproval, true, env);
      ApprovePlanProtocol(cfg, s1, t, s.nextApproval, true, env);
    }
  }

  lemma ProposePlanProtocol(cfg: Config, s: State, t: nat, call: ToolCall, env: Env)
    requires Serving(s, t) && s.phase == PROCESSING && OneCallState(s) && Owes(s.conversation, call.callId)
    ensures ProtocolInv(ProposePlan(cfg, s, t, call, env).state)
  {
    hide RequestPlanReview, RepairProposal, Owes, ShapeInv, Consistent;
    if RepairProposal(s.results) && s.repairs >= cfg.rules.maxPlanRepairs {
      RefusePlanProtocol(cfg, s, t, call, MAX_PLAN_REPAIRS_EXCEEDED);
    } else {
      var s1 := if RepairProposal(s.results) then s.(repairs := s.repairs + 1) else s;
      RequestPlanReviewProtocol(cfg, s1, t, call, env);
      RefusePlanProtocol(cfg, s1, t, call, PLAN_VALIDATION_FAILED);
    }
  }

  // ------------------------------------------------------------------------
  // Events
  // ------------------------------------------------------------------------

  lemma CallDone(cfg: Config, s: State, t: nat, calls: seq<ToolCall>, env: Env)
    requires Serving(s, t) && s.phase == PROCESSING && OneCallState(s) && |calls| == 1 && Whole(s.conversation)
    ensures ProtocolInv(RunCalls(cfg, s, t, calls, 1, env).state)
  {
    hide Delegate, ShapeInv, Consistent, ProposePlan, Gated, Whole;
    DelegateProtocol(s, t, env);
  }

  lemma RunCallProtocol(cfg: Config, s: State, t: nat, calls: seq<ToolCall>, env: Env)
    requires Serving(s, t) && s.phase == PROCESSING && OneCallState(s)
    requires |calls| == 1 && Owes(s.conversation, calls[0].callId)
    ensures ProtocolInv(RunCalls(cfg, s, t, calls, 0, env).state)
  {
    hide ProposePlan, Gated, HoldCall, RecordTool, Strand, Fail, ShapeInv, Consistent, Owes, Whole;
    if calls[0].toolName == PlanValidator.PROPOSE_PLAN {
      ProposePlanProtocol(cfg, s, t, calls[0], env);
    } else if Gated(cfg.rules, calls[0]) {
      HoldCallProtocol(cfg, s, t, calls[0]);
    } else {
      var s1 := s.(phase := EXECUTING_TOOL);
      if env.tool(0).Raises? {
        StrandProtocol(s1, t, calls[0], None, env.tool(0).kept);
        return;
      }
      RecordToolProtocol(cfg, s1, t, calls[0], None, env.tool(0));
      var s2 := RecordTool(cfg, s1, t, calls[0], None, env.tool(0));
      FailProtocol(s2, t, TOOL_FAILURE);
      CallDone(cfg, s2.(phase := PROCESSING), t, calls, env);
    }
  }

  lemma TakeRequestProtocol(cfg: Config, s: State, t: nat, text: Option<string>, calls: seq<ToolCall>, env: Env)
    requires Serving(s.(streaming := ""), t) && s.phase == PROCESSING && OneCallState(s) && Whole(s.conversation)
    requires OneCall(calls) && calls != []
    ensures ProtocolInv(TakeRequest(cfg, s, t, text, calls, env).state)
  {
    hide RunCalls, Fail, ShapeInv, Consistent, Owes, Whole, SpokenText;
    var s1 := s.(round := s.round + 1);
    if s1.round > cfg.rules.maxToolRounds {
      FailedRoundProtocol(s1, t);
    } else {
      assert calls == [calls[0]] && calls[0] in calls;
      AskOne(s.conversation, SpokenText(s.streaming, text), calls[0]);
      RunCallProtocol(cfg, Say(s1, AssistantMessage(SpokenText(s.streaming, text), calls)).(streaming := ""), t,
                      calls, env);
    }
  }

  /** The text streamed so far stays where it is when the round limit ends the turn. */
  lemma FailedRoundProtocol(s: State, t: nat)
    requires Serving(s.(streaming := ""), t) && OneCallState(s) && Whole(s.conversation)
    ensures ProtocolInv(Fail(s, t, MAX_TOOL_ROUNDS_EXCEEDED).state)
  {
    hide Orderly, ValidSequence;
    FailShape(s, t, MAX_TOOL_ROUNDS_EXCEEDED);
  }

  lemma FinishTurnProtocol(s: State, t: nat, text: Option<string>)
    requires Serving(s.(streaming := ""), t) && s.phase == PROCESSING && OneCallState(s) && Whole(s.conversation)
    ensures ProtocolInv(FinishTurn(s, t, text).state)
  {
    hide Orderly, ValidSequence, ShapeInv, FinalText;
    FinishTurnShape(s, t, text);
    SpeakOne(s.conversation, FinalText(s.streaming, text));
  }

  lemma TerminalProtocol(cfg: Config, s: State, env: Env)
    requires ProtocolInv(s) && s.events != [] && s.phase == PROCESSING
    requires Terminal(s.events[0]) && s.events[0].turn == s.counter
    ensures ProtocolInv(ProcessEvent(cfg, Popped(s), s.events[0], env).state)
  {
    hide FinishTurn, TakeRequest, Awaiting, AtStage, EventsUpTo, TurnsUpTo, WorkerOk, IdsBelow, Live, Orderly,
      ValidSequence;
    TerminalShape(cfg, s, env);
    AnswerShape(s);
    assert OneCallEvent(s.events[0]);
    match s.events[0]
    case Response(t, text, calls) =>
      if calls == [] {
        FinishTurnProtocol(Popped(s), t, text);
      } else {
        TakeRequestProtocol(cfg, Popped(s), t, text, calls, env);
      }
    case _ =>
  }

  lemma ProcessProtocol(cfg: Config, s: State, env: Env)
    requires ProtocolInv(s) && s.events != []
    ensures ProtocolInv(ProcessEvent(cfg, Popped(s), s.events[0], env).state)
  {
    hide FinishTurn, TakeRequest, Awaiting, AtStage, EventsUpTo, TurnsUpTo, WorkerOk, IdsBelow, Live, Orderly,
      ValidSequence, Owes;
    ProcessShape(cfg, s, env);
    var e := s.events[0];
    if Some(e.turn) == s.turn && Terminal(e) {
      if s.phase == PROCESSING {
        TerminalProtocol(cfg, s, env);
      } else {
        WedgedShape(s);
      }
    }
  }

  // ------------------------------------------------------------------------
  // Decisions, cancelling, starting, the worker
  // ------------------------------------------------------------------------

  lemma ReleaseCallProtocol(s: State, e: Effect) returns (r: State)
    requires ProtocolInv(s) && s.phase == PENDING_APPROVAL && s.pendingCall.Some? && Harmless(e) && e.turn == s.counter
    ensures r == Note(Post(s.(pendingCall := None), Info(s.counter, APPROVAL_RESOLVED)), e)
    ensures Serving(r, s.counter) && Serving(r.(phase := EXECUTING_TOOL), s.counter) && OneCallState(r)
    ensures Owes(s.conversation, s.pendingCall.value.call.callId)
    ensures s.turn == Some(s.counter) && s.pendingCall.value.turn == s.counter && !CancelSet(s)
  {
    hide ShapeInv, Owes, Serving;
    r := ReleaseCallShape(s, e);
  }

  lemma PendingPhase(s: State)
    requires ProtocolInv(s) && s.pendingCall.Some?
    ensures s.turn == Some(s.counter) && s.pendingCall.value.turn == s.counter && s.phase == PENDING_APPROVAL
  {
    PendingTurn(s);
  }

  lemma ApproveProtocol(cfg: Config, s: State, id: nat, env: Env)
    requires ProtocolInv(s)
    ensures ProtocolInv(Approve(cfg, s, id, env).state)
  {
    hide RecordTool, Delegate, Fail, Strand, Serving, ProtocolInv, OneCallState, Owes, Whole;
    if CheckPendingCall(s, id).None? {
      var t, call := s.counter, s.pendingCall.value.call;
      PendingPhase(s);
      var s2 := ReleaseCallProtocol(s, Approved(t, id));
      PhaseOneCall(s2, EXECUTING_TOOL);
      s2 := s2.(phase := EXECUTING_TOOL);
      if env.tool(0).Raises? {
        StrandProtocol(s2, t, call, Some(id), env.tool(0).kept);
        return;
      }
      RecordToolProtocol(cfg, s2, t, call, Some(id), env.tool(0));
      var s3 := RecordTool(cfg, s2, t, call, Some(id), env.tool(0));
      FailProtocol(s3, t, TOOL_FAILURE);
      BackToProcessing(s3, t);
      PhaseOneCall(s3, PROCESSING);
      DelegateProtocol(s3.(phase := PROCESSING), t, env);
    }
  }

  lemma RejectProtocol(cfg: Config, s: State, id: nat, env: Env)
    requires ProtocolInv(s)
    ensures ProtocolInv(Reject(cfg, s, id, env).state)
  {
    hide Delegate, Serving, ProtocolInv, OneCallState, Owes, Whole;
    if CheckPendingCall(s, id).None? {
      var t, call := s.counter, s.pendingCall.value.call;
      PendingPhase(s);
      var s1 := ReleaseCallProtocol(s, Rejected(t, id));
      var result := ToolResult(call.toolName, USER_REJECTED);
      var m := ToolMessage(cfg.errorText(result), call.callId, Some(call.toolName), None);
      AnswerOne(s.conversation, call.callId, cfg.errorText(result), Some(call.toolName), None);
      AnswerCallShape(s1, t, m, result);
      var s3 := Post(Say(Keep(s1, result), m), Info(t, TOOL_RESULT_READY)).(phase := PROCESSING);
      InfoOneCall(s1, s3, Info(t, TOOL_RESULT_READY));
      DelegateProtocol(s3, t, env);
    }
  }

  lemma InfoOneCall(s: State, r: State, e: Event)
    requires OneCallState(s) && e.Info? && r.events == s.events + [e] && r.worker == s.worker
    ensures OneCallState(r)
  {
  }

  lemma PlanDecisionProtocol(cfg: Config, s: State, id: nat, env: Env)
    requires ProtocolInv(s)
    ensures ProtocolInv(ApprovePlan(cfg, s, id, false, env).state)
    ensures ProtocolInv(RejectPlan(cfg, s, id, env).state)
  {
    hide RunPlan, Resume, Owes, Whole, AnswerId, Awaiting, Live;
    if CheckPendingPlan(s, id).None? {
      ApprovePlanProtocol(cfg, s, s.counter, id, false, env);
      RejectPlanProtocol(cfg, s, s.counter, id, env);
    }
  }

  /** Cancelling leaves no turn and no remembered start, so nothing is promised about the tail that is left. */
  lemma CancelProtocol(s: State)
    requires ProtocolInv(s)
    ensures ProtocolInv(Cancel(s))
  {
    hide ValidSequence, Scan, Awaiting, Live, ShapeInv;
    CancelShape(s);
    var n := if s.start.Some? && s.start.value <= |s.conversation| then s.start.value else |s.conversation|;
    assert Orderly(s.conversation[..n]) by {
      assert forall m <- s.conversation[..n] :: m in s.conversation;
    }
    CancelledPhase(s);
  }

  lemma CancelledPhase(s: State)
    requires ShapeInv(s)
    ensures Cancel(s).phase in {IDLE, ERROR} && Cancel(s).turn.None? && Cancel(s).start.None?
  {
  }

  /** A text of the conversation cannot be pruned, or its older turns cannot be summed up. */
  predicate ContextRaises(cfg: Config, ms: seq<Message>) {
    match Prune(ms, RETAINED_TURNS_COUNT, cfg.pruner)
    case None => true
    case Some((pruned, _)) =>
      CompactRaises(pruned, COMPACTION_TRIGGER_CHARS, RETAINED_TURNS_COUNT, cfg.pruner, cfg.summarizer)
  }

  /** Whether `m` came from `ms` or is one of the two summary messages, it asks for no more calls than before. */
  lemma CompactedCalls(ms: seq<Message>, k: nat, pruner: Pruner, summarizer: Summarizer, r: seq<Message>)
    requires Compact(ms, COMPACTION_TRIGGER_CHARS, k, pruner, summarizer).Some?
    requires r == Compact(ms, COMPACTION_TRIGGER_CHARS, k, pruner, summarizer).value.0
    requires forall m <- ms :: |m.toolCalls| <= 1
    ensures forall m <- r :: |m.toolCalls| <= 1
  {
    hide ContextGuard.Chars, PartitionOf, ValidSequence, Prune;
    if Compact(ms, COMPACTION_TRIGGER_CHARS, k, pruner, summarizer).value.1 {
      var pruned := Prune(ms, k, pruner).value.0;
      PrunedCalls(ms, k, pruner);
      var p := PartitionOf(pruned);
      PartitionRoundTrip(pruned);
      KeptCalls(pruned, p, k);
    }
  }

  lemma KeptCalls(ms: seq<Message>, p: Partition, k: nat)
    requires Reassemble(p) == ms && forall m <- ms :: |m.toolCalls| <= 1
    ensures forall text, m <- Reassemble(Partition(p.system, SummaryMessages(text),
                                                   Kept(p.turns, k))) :: |m.toolCalls| <= 1
  {
    OlderAndKept(p.turns, k);
    FlattenConcat(Older(p.turns, k), Kept(p.turns, k));
    assert forall m <- SystemSeq(p.system) :: m in ms;
    assert forall m <- Flatten(Kept(p.turns, k)) :: m in ms;
  }

  lemma PrunedCalls(ms: seq<Message>, k: nat, pruner: Pruner)
    requires Prune(ms, k, pruner).Some? && forall m <- ms :: |m.toolCalls| <= 1
    ensures forall m <- Prune(ms, k, pruner).value.0 :: |m.toolCalls| <= 1
  {
    hide ValidSequence, PartitionOf;
    var p := PartitionOf(ms);
    PartitionRoundTrip(ms);
    if |p.turns| > k && AnyChange(Older(p.turns, k), pruner) {
      OlderAndKept(p.turns, k);
      FlattenConcat(Older(p.turns, k), Kept(p.turns, k));
      FlattenConcat(PruneTurns(Older(p.turns, k), pruner), Kept(p.turns, k));
      assert forall m <- Flatten(Older(p.turns, k)) :: m in ms;
      PrunedTurnCalls(Older(p.turns, k), pruner);
      assert forall m <- SystemSeq(p.system) + p.summary :: m in ms;
      assert forall m <- Flatten(Kept(p.turns, k)) :: m in ms;
    }
  }

  lemma {:induction false} PrunedTurnCalls(ts: seq<seq<Message>>, pruner: Pruner)
    requires forall m <- Flatten(ts) :: |m.toolCalls| <= 1
    ensures forall m <- Flatten(PruneTurns(ts, pruner)) :: |m.toolCalls| <= 1
  {
    if ts != [] {
      assert PruneTurns(ts, pruner)[1..] == PruneTurns(ts[1..], pruner);
      assert forall m <- Flatten(ts[1..]) :: m in Flatten(ts);
      assert forall m <- ts[0] :: m in Flatten(ts);
      PrunedTurnCalls(ts[1..], pruner);
    }
  }

  /**
   * On a whole conversation the check before a turn raises exactly for a text that cannot be pruned or summed
   * up, never because of a sequence check; either way it leaves the conversation whole.
   */
  lemma CompactContextWhole(cfg: Config, s: State)
    requires Whole(s.conversation)
    ensures CompactContext(cfg, s).Broke? <==>
            s.pendingCall.None? && s.phase !in {PENDING_APPROVAL, EXECUTING_TOOL} && ContextRaises(cfg, s.conversation)
    ensures Whole(CompactContext(cfg, s).conversation)
  {
    hide Prune, Compact, ContextGuard.Chars, PartitionOf, AllAlike, AllWellFormed, ValidSequence, CompactRaises,
      PruneRaises;
    PruneKeepsProtocol(s.conversation, RETAINED_TURNS_COUNT, cfg.pruner);
    var prune := Prune(s.conversation, RETAINED_TURNS_COUNT, cfg.pruner);
    if prune.Some? {
      PruneWellFormed(s.conversation, RETAINED_TURNS_COUNT, cfg.pruner);
      PrunedCalls(s.conversation, RETAINED_TURNS_COUNT, cfg.pruner);
      var pruned := prune.value.0;
      CompactKeepsMeaning(pruned, COMPACTION_TRIGGER_CHARS, RETAINED_TURNS_COUNT, cfg.pruner, cfg.summarizer);
      var compact := Compact(pruned, COMPACTION_TRIGGER_CHARS, RETAINED_TURNS_COUNT, cfg.pruner, cfg.summarizer);
      if compact.Some? {
        CompactWellFormed(pruned, COMPACTION_TRIGGER_CHARS, RETAINED_TURNS_COUNT, cfg.pruner, cfg.summarizer);
        CompactedCalls(pruned, RETAINED_TURNS_COUNT, cfg.pruner, cfg.summarizer, compact.value.0);
      }
    }
  }

  lemma LaunchProtocol(s: State, compacted: seq<Message>) returns (r: State)
    requires s.phase == IDLE && s.turn == Some(s.counter) && s.start.Some?
             && Serving(s.(phase := PROCESSING), s.counter)
    requires OneCallState(s) && Whole(compacted)
    ensures r == Post(s.(conversation := compacted, phase := PROCESSING), Info(s.counter, PROMPT_SUBMITTED))
    ensures ProtocolInv(SubmitTask(r, s.counter)) && ProtocolInv(WedgeOf(r))
  {
    hide ShapeInv, Orderly, ValidSequence;
    r := LaunchShape(s, compacted);
  }

  lemma JamProtocol(s: State, conversation: seq<Message>)
    requires s.phase == IDLE && Serving(s.(phase := PROCESSING), s.counter) && OneCallState(s) && Whole(conversation)
    ensures ProtocolInv(Note(s.(conversation := conversation), BrokeOff(s.counter)))
  {
    hide ShapeInv, Orderly, ValidSequence;
    JamShape(s, conversation);
  }

  lemma StartPromptProtocol(cfg: Config, s: State, p: Prompt, env: Env)
    requires ProtocolInv(s) && !Runtime.Busy(s)
    ensures ProtocolInv(StartPrompt(cfg, s, p, env).state)
    ensures StartPrompt(cfg, s, p, env).Raised? <==>
            !ValidSequence(s.conversation) || ContextRaises(cfg, s.conversation + [UserMessage(p.text, p.imageId)])
  {
    hide CompactContext, SubmitTask, Live, EventsUpTo, TurnsUpTo, WorkerOk, IdsBelow, Orderly, ValidSequence,
      ContextRaises, LogUpTo, RaisedIn;
    var s1 := if s.phase == ERROR then s.(phase := IDLE) else s;
    if ValidSequence(s.conversation) {
      var s3 := OpenTurn(s1, p);
      OpenTurnShape(s1, p);
      PromptOne(s.conversation, p.text, p.imageId);
      CompactContextWhole(cfg, s3);
      var compaction := CompactContext(cfg, s3);
      if compaction.Compacted? {
        var r := LaunchProtocol(s3, compaction.conversation);
      } else {
        JamProtocol(s3, compaction.conversation);
      }
    }
  }

  lemma WorkerProtocol(s: State, step: Step)
    requires ProtocolInv(s) && OneCallStep(step)
    ensures step.DoTake? && s.worker.Resting? && s.tasks != [] ==> ProtocolInv(WorkerTake(s))
    ensures step.DoObserve? && s.worker.Working? ==> ProtocolInv(WorkerObserve(s, step.ev))
    ensures step.DoPost? && s.worker.Posting? ==> ProtocolInv(WorkerPost(s))
  {
    hide ShapeInv, Orderly, ValidSequence, Scan, Blank, AnswerId, Owes;
    if step.DoTake? && s.worker.Resting? && s.tasks != [] {
      TakeShape(s);
    } else if step.DoObserve? && s.worker.Working? {
      ObserveShape(s, step.ev);
      SilentRecord(s);
    } else if step.DoPost? && s.worker.Posting? {
      PostShape(s);
    }
  }

  lemma SilentRecord(s: State)
    requires s.worker.Working?
    ensures var r := Note(s, WentSilent(s.worker.turn));
            && (OwesRaised(s) ==> OwesRaised(r)) && (OwesUndescribed(s) ==> OwesUndescribed(r))
            && (UndescribedIn(r.log, s.counter) <==> UndescribedIn(s.log, s.counter))
  {
    hide Owes;
    assert forall e <- s.log :: e in s.log + [WentSilent(s.worker.turn)];
  }

  // ------------------------------------------------------------------------
  // Runs
  // ------------------------------------------------------------------------

  lemma SubmitProtocol(cfg: Config, s: State, p: Prompt, env: Env)
    requires ProtocolInv(s)
    ensures ProtocolInv(SubmitPrompt(cfg, s, p, env).state)
  {
    hide StartPrompt, Awaiting, Live, Orderly, ValidSequence, Scan, Blank, AnswerId;
    if !Runtime.Busy(s) {
      StartPromptProtocol(cfg, s, p, env);
    }
  }

  lemma PumpProtocol(cfg: Config, s: State, env: Env)
    requires ProtocolInv(s)
    ensures ProtocolInv(PumpPromptQueue(cfg, s, env).state)
  {
    hide StartPrompt, Awaiting, Live, Orderly, ValidSequence, Scan, Blank, AnswerId;
    if !Runtime.Busy(s) && s.prompts != [] {
      StartPromptProtocol(cfg, s.(prompts := s.prompts[1..]), s.prompts[0], env);
    }
  }

  lemma NextProtocol(cfg: Config, s: State, step: Step)
    requires ProtocolInv(s) && OneCallStep(step)
    ensures ProtocolInv(Next(cfg, s, step))
  {
    hide ProtocolInv, SubmitPrompt, PumpPromptQueue, ProcessEvent, Approve, Reject, ApprovePlan, RejectPlan, Cancel,
      WorkerTake, WorkerObserve, WorkerPost;
    match step
    case DoSubmit(p, env) => SubmitProtocol(cfg, s, p, env);
    case DoPump(env) => PumpProtocol(cfg, s, env);
    case DoProcess(env) =>
      if s.events != [] {
        ProcessProtocol(cfg, s, env);
      }
    case DoApprove(id, env) => ApproveProtocol(cfg, s, id, env);
    case DoReject(id, env) => RejectProtocol(cfg, s, id, env);
    case DoApprovePlan(id, env) => PlanDecisionProtocol(cfg, s, id, env);
    case DoRejectPlan(id, env) => PlanDecisionProtocol(cfg, s, id, env);
    case DoCancel => CancelProtocol(s);
    case _ => WorkerProtocol(s, step);
  }

  lemma {:induction false} RunProtocol(cfg: Config, s: State, steps: seq<Step>)
    requires ProtocolInv(s) && OneCallSteps(steps)
    ensures ProtocolInv(Run(cfg, s, steps))
  {
    hide ProtocolInv, Next;
    if steps != [] {
      RunProtocol(cfg, s, steps[..|steps| - 1]);
      NextProtocol(cfg, Run(cfg, s, steps[..|steps| - 1]), steps[|steps| - 1]);
    }
  }

  /** The only unanswered call is the one of this effect on the active turn's record. */
  predicate OwesCallOf(s: State, e: Effect)
    requires e.CallRaised? || e.CallUndescribed?
  {
    s.turn == Some(e.turn) && Scan({}, s.conversation) == Some({e.call.callId})
  }

  /**
   * With one tool call per response, in every run: whenever the provider is at work the conversation keeps
   * the protocol; while an approval is awaited the only unanswered call is the one that the decision will
   * answer; where a tool raised, or a call could not be described, it is that very call; and the conversation
   * keeps the protocol whenever a turn has ended without being cancelled since, or failed to start.
   */
  lemma ConversationInEveryRun(cfg: Config, steps: seq<Step>)
    requires OneCallSteps(steps)
    ensures var s := Run(cfg, Initial, steps);
            && (s.phase == PROCESSING && !Undescribed(s) ==> ValidSequence(s.conversation))
            && (Undescribed(s) ==> exists e <- s.log :: e.CallUndescribed? && OwesCallOf(s, e))
            && (s.phase == PENDING_APPROVAL ==>
                  PendingId(s).Some? && Scan({}, s.conversation) == Some({PendingId(s).value}))
            && (s.phase == EXECUTING_TOOL ==> exists e <- s.log :: e.CallRaised? && OwesCallOf(s, e))
            && (s.phase in {IDLE, ERROR} && (s.start.Some? || s.turn.Some?) ==> ValidSequence(s.conversation))
  {
    hide Run, Next, ShapeInv;
    InitialShape();
    RunProtocol(cfg, Initial, steps);
    ActiveIsNewest(Run(cfg, Initial, steps));
  }

  // ------------------------------------------------------------------------
  // Several calls in one response
  // ------------------------------------------------------------------------

  lemma AnswerFirst(ms: seq<Message>, calls: seq<ToolCall>, i: nat, m: Message)
    requires i < |calls| && DistinctIds(calls)
    requires Scan({}, ms) == Some(CallIds(calls[i..]))
    requires m.role == TOOL && m.toolCallId == Some(calls[i].callId)
    ensures Scan({}, ms + [m]) == Some(CallIds(calls[i + 1..]))
  {
    ScanAppend({}, ms, m);
    assert calls[i..] == [calls[i]] + calls[i + 1..];
    assert CallIds(calls[i..]) - {calls[i].callId} == CallIds(calls[i + 1..]) by {
      forall c <- calls[i + 1..]
        ensures c.callId != calls[i].callId
      {
        var k :| 0 <= k < |calls[i + 1..]| && calls[i + 1..][k] == c;
        assert calls[i + 1 + k] == c;
      }
    }
  }

  /** Answering a plan review adds the answer to the conversation and nothing else. */
  lemma ResumeSays(s: State, p: PendingPlan, content: string, result: ToolResult, env: Env)
    ensures var r := Resume(s, p, content, result, env).state;
            && r.conversation == s.conversation
               + [ToolMessage(content, AnswerId(p), Some(PlanValidator.PROPOSE_PLAN), None)]
            && r.pendingPlan == s.pendingPlan && r.pendingCall == s.pendingCall
  {
    hide AnswerId;
  }

  /** A message that answers the call with this id. */
  predicate Answers(m: Message, callId: string) {
    m.role == TOOL && m.toolCallId == Some(callId)
  }

  lemma ApprovedPlanSays(cfg: Config, s: State, t: nat, id: nat, automatic: bool, env: Env) returns (m: Message)
    requires PlanHeld(s, t, id) && s.pendingPlan.value.callId != ""
    ensures var r := ApprovePlan(cfg, s, id, automatic, env).state;
            && r.conversation == s.conversation + [m] && Answers(m, s.pendingPlan.value.callId)
            && r.pendingPlan.None? && r.pendingCall.None?
  {
    hide RunPlan, Resume, Consent;
    var p := s.pendingPlan.value;
    var summary := RunPlan(cfg, p, env);
    var run := PlanRun(t, id, automatic, p.review.plan, summary);
    ConsentedRun(s.(pendingPlan := None), p, automatic, run);
    var r := ReleasePlanShape(s, t, id, PlanEffects(t, id, automatic, run));
    var result := ToolResult(PlanValidator.PROPOSE_PLAN, if summary.completed then OK else PLAN_EXECUTION_FAILED);
    ResumeSays(r.(phase := EXECUTING_TOOL), p, cfg.summaryText(summary), result, env);
    m := ToolMessage(cfg.summaryText(summary), AnswerId(p), Some(PlanValidator.PROPOSE_PLAN), None);
  }

  /** A plan held for review leaves its proposal unanswered; a plan refused or started unasked answers it at once. */
  predicate Proposed(cfg: Config, s: State, r: State, call: ToolCall, answer: Option<Message>) {
    && r.pendingCall.None? && r.phase != EXECUTING_TOOL
    && match answer
       case None =>
         && r.pendingPlan.Some? && r.pendingPlan.value.callId == call.callId
         && r.conversation == s.conversation && r.tasks == s.tasks
       case Some(m) =>
         && r.pendingPlan.None? && r.conversation == s.conversation + [m] && Answers(m, call.callId)
         && (r.tasks != s.tasks ==> cfg.rules.autoApprove)
  }

  lemma ReviewProposed(cfg: Config, s: State, t: nat, call: ToolCall, env: Env) returns (answer: Option<Message>)
    requires Serving(s, t) && s.phase == PROCESSING && call.callId != ""
    ensures var o := RequestPlanReview(cfg, s, t, call, env);
            if o.Done? then Proposed(cfg, s, o.state, call, answer) else o == Raised(PlanRefused, s)
  {
    hide PlanReview.ReviewOf, ApprovePlan, ShapeInv, PlanHeld, Serving;
    RequestPlanReviewShape(cfg, s, t, call, env);
    var review := PlanReview.ReviewOf(cfg.rules.registry,
                                      PlanModel.Payload(cfg.rules.decode(call.arguments) - {"overall_risk"}),
                                      env.freshPlanId, cfg.describe);
    answer := None;
    if review.Some? {
      HoldPlanShape(s, t, call, review.value);
      ServingQuiet(s, t);
      if cfg.rules.autoApprove && review.value.overallRisk in {PlanModel.READ_ONLY, PlanModel.LOW} {
        var m := ApprovedPlanSays(cfg, HoldPlan(s, t, call, review.value).state, t, s.nextApproval, true, env);
        answer := Some(m);
      }
    }
  }

  lemma ServingQuiet(s: State, t: nat)
    requires Serving(s, t)
    ensures s.pendingCall.None? && s.pendingPlan.None? && !CancelSet(s)
  {
  }

  lemma PlanProposed(cfg: Config, s: State, t: nat, call: ToolCall, env: Env) returns (answer: Option<Message>)
    requires Serving(s, t) && s.phase == PROCESSING && call.callId != ""
    ensures Proposed(cfg, s, ProposePlan(cfg, s, t, call, env).state, call, answer)
  {
    hide RequestPlanReview, RepairProposal, Serving;
    ServingQuiet(s, t);
    var refused := ToolResult(PlanValidator.PROPOSE_PLAN, REFUSED);
    answer := Some(ToolMessage(cfg.errorText(refused), call.callId, Some(PlanValidator.PROPOSE_PLAN), None));
    if !(RepairProposal(s.results) && s.repairs >= cfg.rules.maxPlanRepairs) {
      var s1 := if RepairProposal(s.results) then s.(repairs := s.repairs + 1) else s;
      RepairedServing(s, t, s1.repairs);
      var reviewed := ReviewProposed(cfg, s1, t, call, env);
      if RequestPlanReview(cfg, s1, t, call, env).Done? {
        answer := reviewed;
      }
    }
  }

  lemma RepairedServing(s: State, t: nat, repairs: nat)
    requires Serving(s, t)
    ensures Serving(s.(repairs := repairs), t)
  {
  }

  /**
   * Where the work on a response's calls stops: those before j are answered, those from j on are not. A call
   * or a plan held back, a call whose tool raised, and one that could not be described, is the j-th; the worker
   * is handed a conversation with calls left open only after a plan that started unasked, as the (j - 1)-th call.
   */
  predicate StopsAt(cfg: Config, s: State, o: Outcome, t: nat, calls: seq<ToolCall>, j: nat) {
    var r := o.state;
    && j <= |calls| && Scan({}, r.conversation) == Some(CallIds(calls[j..]))
    && (r.pendingCall.Some? ==> j < |calls| && r.pendingCall.value.call == calls[j])
    && (r.pendingPlan.Some? ==> j < |calls| && r.pendingPlan.value.callId == calls[j].callId)
    && (r.phase == EXECUTING_TOOL ==> j < |calls| && r.log != [] && r.log[|r.log| - 1] == CallRaised(t, calls[j]))
    && (o.Raised? && o.fault == DescriptionFailed ==>
          j < |calls| && r.log != [] && r.log[|r.log| - 1] == CallUndescribed(t, calls[j]))
    && (r.tasks != s.tasks && j < |calls| ==>
          j > 0 && calls[j - 1].toolName == PlanValidator.PROPOSE_PLAN && cfg.rules.autoApprove)
  }

  lemma DelegateStops(cfg: Config, s: State, t: nat, calls: seq<ToolCall>, env: Env)
    requires Serving(s, t) && s.phase == PROCESSING && Scan({}, s.conversation) == Some(CallIds(calls[|calls|..]))
    ensures StopsAt(cfg, s, Delegate(s, t, env), t, calls, |calls|)
  {
    hide Scan, CallIds, Numbered, NothingInFlight, Mishaps;
  }

  lemma HoldStops(cfg: Config, s: State, t: nat, calls: seq<ToolCall>, i: nat)
    requires Serving(s, t) && s.phase == PROCESSING && i < |calls|
             && Scan({}, s.conversation) == Some(CallIds(calls[i..]))
    ensures StopsAt(cfg, s, HoldCall(cfg, s, t, calls[i]), t, calls, i)
  {
    hide Scan, CallIds, Numbered, NothingInFlight, Mishaps, Describable;
  }

  lemma StrandStops(cfg: Config, s: State, t: nat, calls: seq<ToolCall>, i: nat, kept: Option<bool>)
    requires Serving(s, t) && s.phase == EXECUTING_TOOL && i < |calls|
             && Scan({}, s.conversation) == Some(CallIds(calls[i..]))
    ensures StopsAt(cfg, s, Raised(ToolException, Strand(s, t, calls[i], None, kept)), t, calls, i)
  {
    hide Scan, CallIds, Numbered, NothingInFlight, Mishaps;
  }

  lemma FailStops(cfg: Config, s: State, t: nat, calls: seq<ToolCall>, j: nat)
    requires Serving(s, t) && j <= |calls| && Scan({}, s.conversation) == Some(CallIds(calls[j..]))
    ensures StopsAt(cfg, s, Fail(s, t, TOOL_FAILURE), t, calls, j)
  {
    hide Scan, CallIds, Numbered, NothingInFlight, Mishaps;
  }

  lemma ProposalStops(cfg: Config, s: State, t: nat, calls: seq<ToolCall>, i: nat, env: Env) returns (j: nat)
    requires Serving(s, t) && s.phase == PROCESSING && i < |calls| && DistinctIds(calls) && calls[i].callId != ""
    requires calls[i].toolName == PlanValidator.PROPOSE_PLAN && Scan({}, s.conversation) == Some(CallIds(calls[i..]))
    ensures i <= j && StopsAt(cfg, s, ProposePlan(cfg, s, t, calls[i], env), t, calls, j)
  {
    hide Scan, CallIds, Serving, ProposePlan, ShapeInv;
    ProposePlanShape(cfg, s, t, calls[i], env);
    var answer := PlanProposed(cfg, s, t, calls[i], env);
    j := i;
    if answer.Some? {
      AnswerFirst(s.conversation, calls, i, answer.value);
      j := i + 1;
    }
  }

  lemma ToolAnswered(cfg: Config, s: State, t: nat, calls: seq<ToolCall>, i: nat, env: Env) returns (r: State)
    requires Serving(s, t) && s.phase == EXECUTING_TOOL && i < |calls| && DistinctIds(calls) && calls[i].callId != ""
    requires Scan({}, s.conversation) == Some(CallIds(calls[i..])) && !env.tool(i).Raises?
    ensures r == RecordTool(cfg, s, t, calls[i], None, env.tool(i))
    ensures r.phase == EXECUTING_TOOL && r.tasks == s.tasks && Serving(r, t) && Serving(r.(phase := PROCESSING), t)
    ensures Scan({}, r.conversation) == Some(CallIds(calls[i + 1..]))
  {
    hide Scan, CallIds, Serving, DistinctIds;
    RecordToolShape(cfg, s, t, calls[i], None, env.tool(i));
    r := RecordTool(cfg, s, t, calls[i], None, env.tool(i));
    AnswerFirst(s.conversation, calls, i, r.conversation[|s.conversation|]);
    BackToProcessing(r, t);
  }

  lemma {:induction false} BatchStops(cfg: Config, s: State, t: nat, calls: seq<ToolCall>, i: nat, env: Env)
    returns (j: nat)
    requires Serving(s, t) && s.phase == PROCESSING
    requires i <= |calls| && DistinctIds(calls) && forall c <- calls :: c.callId != ""
    requires Scan({}, s.conversation) == Some(CallIds(calls[i..]))
    ensures i <= j && StopsAt(cfg, s, RunCalls(cfg, s, t, calls, i, env), t, calls, j)
    decreases |calls| - i
  {
    hide ProposePlan, Gated, Scan, CallIds, Serving, Delegate, HoldCall, Strand, Fail, DistinctIds, RecordTool;
    ServingQuiet(s, t);
    j := i;
    if i == |calls| {
      DelegateStops(cfg, s, t, calls, env);
    } else if calls[i].toolName == PlanValidator.PROPOSE_PLAN {
      j := ProposalStops(cfg, s, t, calls, i, env);
    } else if Gated(cfg.rules, calls[i]) {
      HoldStops(cfg, s, t, calls, i);
    } else {
      var s1 := s.(phase := EXECUTING_TOOL);
      ExecutingServing(s, t);
      if env.tool(i).Raises? {
        StrandStops(cfg, s1, t, calls, i, env.tool(i).kept);
        return;
      }
      var s2 := ToolAnswered(cfg, s1, t, calls, i, env);
      j := i + 1;
      if env.tool(i).Fails? {
        FailStops(cfg, s2, t, calls, j);
      } else {
        j := BatchStops(cfg, s2.(phase := PROCESSING), t, calls, i + 1, env);
      }
    }
  }

  lemma ExecutingServing(s: State, t: nat)
    requires Serving(s, t)
    ensures Serving(s.(phase := EXECUTING_TOOL), t)
  {
  }

  lemma OpenCalls(calls: seq<ToolCall>, j: nat)
    requires j <= |calls|
    ensures CallIds(calls[j..]) == {} <==> j == |calls|
  {
    if j < |calls| {
      assert calls[j..][0].callId in CallIds(calls[j..]);
    }
  }

  /**
   * Processing a response with several calls answers a first part of them. So the conversation that is left
   * to a decision, and the one that is handed to the worker after a plan that started unasked, is valid only
   * if no call follows the held one, the proposal itself included.
   */
  lemma BatchLeavesSuffix(cfg: Config, s: State, env: Env) returns (j: nat)
    requires ShapeInv(s) && s.phase == PROCESSING && ValidSequence(s.conversation) && s.events != []
    requires s.events[0].Response? && s.events[0].turn == s.counter && s.events[0].calls != []
    requires DistinctIds(s.events[0].calls) && (forall c <- s.events[0].calls :: c.callId != "")
    requires s.round < cfg.rules.maxToolRounds
    ensures var o := Attempt(cfg, s, DoProcess(env));
            && StopsAt(cfg, s, o, s.counter, s.events[0].calls, j)
            && (ValidSequence(o.state.conversation) <==> j == |s.events[0].calls|)
  {
    hide RunCalls, Scan, CallIds, Awaiting, Live, SpokenText, Serving, EventsUpTo, TurnsUpTo, LogUpTo, IdsBelow,
      WorkerOk;
    AnswerShape(s);
    var e, p := s.events[0], Popped(s);
    var asked := AssistantMessage(SpokenText(s.streaming, e.text), e.calls);
    var s1 := Say(p.(round := s.round + 1), asked).(streaming := "");
    AskedServing(p, s.counter, s.round + 1, asked);
    ScanAppend({}, s.conversation, asked);
    assert e.calls[0..] == e.calls;
    j := BatchStops(cfg, s1, s.counter, e.calls, 0, env);
    OpenCalls(e.calls, j);
  }

  lemma AskedServing(s: State, t: nat, round: nat, m: Message)
    requires Serving(s.(streaming := ""), t)
    ensures Serving(Say(s.(round := round), m).(streaming := ""), t)
  {
  }

  /** Deciding on a held call makes the conversation whole exactly if it was the last call of its response. */
  lemma HeldCallMustBeLast(ms: seq<Message>, calls: seq<ToolCall>, j: nat, content: string, name: Option<string>,
                           image: Option<string>)
    requires j < |calls| && DistinctIds(calls) && Scan({}, ms) == Some(CallIds(calls[j..]))
    ensures ValidSequence(ms + [ToolMessage(content, calls[j].callId, name, image)]) <==> j == |calls| - 1
  {
    AnswerFirst(ms, calls, j, ToolMessage(content, calls[j].callId, name, image));
    if j < |calls| - 1 {
      assert calls[j + 1..][0].callId in CallIds(calls[j + 1..]);
    } else {
      assert calls[j + 1..] == [] && CallIds([]) == {};
    }
  }
}
