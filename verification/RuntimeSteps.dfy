/**
 * What each step of the runtime does, in full: every lemma gives the whole state after a step from the state before
 * it and the inputs, so that nothing else changes.
 */
module RuntimeSteps {
  import opened PyText
  import opened Chat
  import opened StateMachine
  import opened RuntimeLog
  import opened Runtime
  import PlanModel
  import PlanReview
  import PlanExecutor
  import RuntimeShape
  import Turns

  // ------------------------------------------------------------------------
  // How turns go on and end
  // ------------------------------------------------------------------------

  /** The turn ends with an error, which is reported. */
  function Failed(s: State, t: nat, kind: ErrorKind): State {
    s.(phase := ERROR, turn := None, events := s.events + [AgentError(t, kind)], log := s.log + [Ended(t)])
  }

  /** The provider is asked for the next step; if an image of the conversation is gone, the turn ends instead. */
  function HandedOver(s: State, t: nat, env: Env): State {
    if env.imagesFound then s.(phase := PROCESSING, tasks := s.tasks + [t], log := s.log + [TaskSubmitted(t)])
    else Failed(s, t, IMAGE_NOT_FOUND)
  }

  /** The message that tells the provider what a tool returned: the text as it is, and the image of a success. */
  function AnswerTo(call: ToolCall, reply: ToolReply): Message
    requires !reply.Raises?
  {
    Message(TOOL, Some(reply.content), [], Some(call.callId), Some(call.toolName),
            if reply.Succeeds? then reply.imageId else None)
  }

  function KeptOf(call: ToolCall, reply: ToolReply): seq<ToolResult> {
    match reply
    case Succeeds(_, _) => [ToolResult(call.toolName, OK)]
    case Fails(_) => [ToolResult(call.toolName, FAILED)]
    case Raises(None) => []
    case Raises(Some(success)) => [ToolResult(call.toolName, if success then OK else FAILED)]
  }

  // ------------------------------------------------------------------------
  // Decisions on a call
  // ------------------------------------------------------------------------

  /** The user decides on the call that is pending, and the turn is not cancelled. */
  predicate DecidesCall(s: State, id: nat) {
    && s.phase == PENDING_APPROVAL && s.pendingCall.Some? && s.pendingCall.value.id == id
    && s.turn == Some(s.pendingCall.value.turn) && s.counter !in s.cancelled
  }

  /**
   * Approving the pending call hands it to its tool. What the tool returns is appended to the conversation, word for
   * word; a success takes the turn on, a failure ends it, and an exception leaves it where it is.
   */
  lemma ApprovedCall(cfg: Config, s: State, id: nat, env: Env)
    requires DecidesCall(s, id)
    ensures var p, reply := s.pendingCall.value, env.tool(0);
            var r := s.(pendingCall := None, results := s.results + KeptOf(p.call, reply),
                        events := s.events + [Info(p.turn, APPROVAL_RESOLVED)],
                        log := s.log + [Approved(p.turn, id), CallDispatched(p.turn, Some(id), p.call)]);
            Attempt(cfg, s, DoApprove(id, env)) ==
            if reply.Raises? then
              Raised(ToolException, r.(phase := EXECUTING_TOOL, log := r.log + [CallRaised(p.turn, p.call)]))
            else
              var answered := r.(conversation := s.conversation + [AnswerTo(p.call, reply)],
                                 events := r.events + [Info(p.turn, TOOL_RESULT_READY)]);
              Done(if reply.Succeeds? then HandedOver(answered, p.turn, env)
                   else Failed(answered, p.turn, TOOL_FAILURE))
  {
    var p := s.pendingCall.value;
    var a, d, e := Approved(p.turn, id), CallDispatched(p.turn, Some(id), p.call), CallRaised(p.turn, p.call);
    assert s.log + [a] + [d] == s.log + [a, d];
    assert s.results + [] == s.results;
  }

  /** Rejecting the pending call answers it with the rejection, and the turn goes on. */
  lemma RejectedCall(cfg: Config, s: State, id: nat, env: Env)
    requires DecidesCall(s, id)
    ensures var p := s.pendingCall.value;
            var result := ToolResult(p.call.toolName, USER_REJECTED);
            var r := s.(pendingCall := None, results := s.results + [result],
                        conversation := s.conversation + [
                          Message(TOOL, Some(cfg.errorText(result)), [], Some(p.call.callId), Some(p.call.toolName),
                                  None)],
                        events := s.events + [Info(p.turn, APPROVAL_RESOLVED), Info(p.turn, TOOL_RESULT_READY)],
                        log := s.log + [Rejected(p.turn, id)]);
            Attempt(cfg, s, DoReject(id, env)) == Done(HandedOver(r, p.turn, env))
  {
    var t := s.pendingCall.value.turn;
    assert s.events + [Info(t, APPROVAL_RESOLVED)] + [Info(t, TOOL_RESULT_READY)]
        == s.events + [Info(t, APPROVAL_RESOLVED), Info(t, TOOL_RESULT_READY)];
  }

  /** A decision on no pending call is refused, one on a cancelled turn only takes the question away. */
  lemma UndecidedCall(cfg: Config, s: State, id: nat, env: Env)
    requires !DecidesCall(s, id)
    ensures var r := if s.phase != PENDING_APPROVAL || s.pendingCall.None? then Raised(NoPendingApproval, s)
                     else if s.pendingCall.value.id != id || s.turn != Some(s.pendingCall.value.turn)
                     then Raised(InvalidApproval, s)
                     else Done(s.(pendingCall := None));
            Attempt(cfg, s, DoApprove(id, env)) == r && Attempt(cfg, s, DoReject(id, env)) == r
  {
  }

  // ------------------------------------------------------------------------
  // Decisions on a plan
  // ------------------------------------------------------------------------

  /** The user decides on the plan that is pending, for the first time, and the turn is not cancelled. */
  predicate DecidesPlan(s: State, id: nat) {
    && s.phase == PENDING_APPROVAL && s.pendingPlan.Some? && s.pendingPlan.value.id == id
    && s.turn == Some(s.pendingPlan.value.turn) && id !in s.consumed && s.counter !in s.cancelled
  }

  /** The call that an answer about a plan belongs to; a plan that came with no call id gets one. */
  function PlanCallId(p: PendingPlan): string {
    if p.callId == "" then "call_plan_" + Decimal(p.id) else p.callId
  }

  /** The decision on the pending plan: it is answered with this text and result, and the turn goes on. */
  function PlanAnswered(s: State, text: string, outcome: ResultType, effects: Log, env: Env): State
    requires s.pendingPlan.Some?
  {
    var p := s.pendingPlan.value;
    HandedOver(s.(pendingPlan := None, consumed := s.consumed + {p.id},
                  results := s.results + [ToolResult("propose_plan", outcome)],
                  conversation := s.conversation + [
                    Message(TOOL, Some(text), [], Some(PlanCallId(p)), Some("propose_plan"), None)],
                  events := s.events + [Info(p.turn, APPROVAL_RESOLVED), Info(p.turn, TOOL_RESULT_READY)],
                  log := s.log + effects), p.turn, env)
  }

  /** What running the pending plan reports: its tools are asked without a policy, for it is approved as a whole. */
  function PlanReport(cfg: Config, s: State, env: Env): PlanExecutor.Summary
    requires s.pendingPlan.Some?
  {
    PlanExecutor.Execute(cfg.rules.registry, PlanExecutor.Setting(None, None, env.step),
                         s.pendingPlan.value.review.plan, env.freshPlanId)
  }

  lemma EventPair(events: seq<Event>, a: Event, b: Event)
    ensures events + [a] + [b] == events + [a, b]
  {
  }

  /** Approving the pending plan runs it and answers its call with the summary, whether it completed or not. */
  lemma ApprovedPlan(cfg: Config, s: State, id: nat, env: Env)
    requires DecidesPlan(s, id)
    ensures var p, summary := s.pendingPlan.value, PlanReport(cfg, s, env);
            Attempt(cfg, s, DoApprovePlan(id, env)) ==
            Done(PlanAnswered(s, cfg.summaryText(summary), if summary.completed then OK else PLAN_EXECUTION_FAILED,
                              [Approved(p.turn, id), PlanRun(p.turn, id, false, p.review.plan, summary)], env))
  {
    hide PlanExecutor.Execute;
    var p, summary := s.pendingPlan.value, PlanReport(cfg, s, env);
    var a, run := Approved(p.turn, id), PlanRun(p.turn, id, false, p.review.plan, summary);
    EventPair(s.events, Info(p.turn, APPROVAL_RESOLVED), Info(p.turn, TOOL_RESULT_READY));
    assert s.log + [a] + [run] == s.log + [a, run];
  }

  /** A plan that starts unasked runs in the same way, but that no approval is recorded. */
  lemma UnaskedPlan(cfg: Config, s: State, id: nat, env: Env)
    requires DecidesPlan(s, id)
    ensures var p, summary := s.pendingPlan.value, PlanReport(cfg, s, env);
            ApprovePlan(cfg, s, id, true, env) ==
            Done(PlanAnswered(s, cfg.summaryText(summary), if summary.completed then OK else PLAN_EXECUTION_FAILED,
                              [PlanRun(p.turn, id, true, p.review.plan, summary)], env))
  {
    hide PlanExecutor.Execute;
    var p := s.pendingPlan.value;
    EventPair(s.events, Info(p.turn, APPROVAL_RESOLVED), Info(p.turn, TOOL_RESULT_READY));
  }

  /** Rejecting the pending plan answers its call with the rejection. */
  lemma RejectedPlan(cfg: Config, s: State, id: nat, env: Env)
    requires DecidesPlan(s, id)
    ensures var p := s.pendingPlan.value;
            Attempt(cfg, s, DoRejectPlan(id, env)) ==
            Done(PlanAnswered(s, cfg.errorText(ToolResult("propose_plan", USER_REJECTED)), USER_REJECTED,
                              [Rejected(p.turn, id)], env))
  {
    var p := s.pendingPlan.value;
    EventPair(s.events, Info(p.turn, APPROVAL_RESOLVED), Info(p.turn, TOOL_RESULT_READY));
  }

  lemma UndecidedPlan(cfg: Config, s: State, id: nat, env: Env)
    requires !DecidesPlan(s, id)
    ensures var r := if s.phase != PENDING_APPROVAL || s.pendingPlan.None? then Raised(NoPendingApproval, s)
                     else if s.pendingPlan.value.id != id || s.turn != Some(s.pendingPlan.value.turn)
                             || id in s.consumed
                     then Raised(InvalidApproval, s)
                     else Done(s.(pendingPlan := None));
            Attempt(cfg, s, DoApprovePlan(id, env)) == r && Attempt(cfg, s, DoRejectPlan(id, env)) == r
  {
  }

  // ------------------------------------------------------------------------
  // A proposed plan
  // ------------------------------------------------------------------------

  /** The turn ends because a proposal is refused: its call is answered with the reason. */
  function ProposalRefused(cfg: Config, s: State, t: nat, call: ToolCall, kind: ErrorKind): State {
    var result := ToolResult("propose_plan", REFUSED);
    Failed(s.(results := s.results + [result],
              conversation := s.conversation + [
                Message(TOOL, Some(cfg.errorText(result)), [], Some(call.callId), Some("propose_plan"),
                        None)]), t, kind)
  }

  function ProposalHeld(s: State, t: nat, call: ToolCall, review: PlanReview.Review): State {
    s.(phase := PENDING_APPROVAL, nextApproval := s.nextApproval + 1,
       pendingPlan := Some(PendingPlan(s.nextApproval, t, call.callId, review)),
       log := s.log + [PlanReviewed(t, s.nextApproval, review.plan)])
  }

  /**
   * A proposal after a failed plan counts as a repair and is refused if there were too many; a plan that does not
   * pass its review is refused; else it is held for the user, or runs unasked if that is allowed and its risk low.
   */
  lemma ProposedPlan(cfg: Config, s: State, t: nat, call: ToolCall, env: Env)
    requires s.phase == PROCESSING && s.turn == Some(t) && s.counter !in s.cancelled && s.nextApproval !in s.consumed
    ensures var repairing := ToolResult("propose_plan", PLAN_EXECUTION_FAILED) in s.results;
            var tried := s.(repairs := s.repairs + if repairing then 1 else 0);
            var review := PlanReview.ReviewOf(
              cfg.rules.registry, PlanModel.Payload(cfg.rules.decode(call.arguments)), env.freshPlanId, cfg.describe);
            ProposePlan(cfg, s, t, call, env) ==
            if repairing && s.repairs >= cfg.rules.maxPlanRepairs
            then Done(ProposalRefused(cfg, s, t, call, MAX_PLAN_REPAIRS_EXCEEDED))
            else if review.None? then Done(ProposalRefused(cfg, tried, t, call, PLAN_VALIDATION_FAILED))
            else
              var held := ProposalHeld(tried, t, call, review.value);
              if cfg.rules.autoApprove && review.value.overallRisk in {PlanModel.READ_ONLY, PlanModel.LOW}
              then
                var summary := PlanReport(cfg, held, env);
                Done(PlanAnswered(held, cfg.summaryText(summary),
                                  if summary.completed then OK else PLAN_EXECUTION_FAILED,
                                  [PlanRun(t, s.nextApproval, true, review.value.plan, summary)], env))
              else Done(held.(events := held.events + [Info(t, APPROVAL_REQUIRED)]))
  {
    hide PlanReview.ReviewOf, ApprovePlan, PlanReport, PlanAnswered;
    PayloadIgnoresRisk(cfg.rules.decode(call.arguments));
    assert RepairProposal(s.results) <==> ToolResult("propose_plan", PLAN_EXECUTION_FAILED) in s.results;
    var tried := s.(repairs := s.repairs + if RepairProposal(s.results) then 1 else 0);
    var review := PlanReview.ReviewOf(
      cfg.rules.registry, PlanModel.Payload(cfg.rules.decode(call.arguments)), env.freshPlanId, cfg.describe);
    if review.Some? {
      var held := ProposalHeld(tried, t, call, review.value);
      assert HoldPlan(tried, t, call, review.value) == Done(held);
      if cfg.rules.autoApprove && review.value.overallRisk in {PlanModel.READ_ONLY, PlanModel.LOW} {
        UnaskedPlan(cfg, held, s.nextApproval, env);
      }
    }
  }

  lemma PayloadIgnoresRisk(entries: map<string, PlanModel.Value>)
    ensures PlanModel.Payload(entries - {"overall_risk"}) == PlanModel.Payload(entries)
  {
  }

  // ------------------------------------------------------------------------
  // The calls of a response
  // ------------------------------------------------------------------------

  /** The calls from i to j, exclusively, went to their tools, which returned; none but the last failed. */
  predicate Ran(cfg: Config, calls: seq<ToolCall>, i: nat, j: nat, env: Env)
    requires i <= j <= |calls|
  {
    forall k :: i <= k < j ==>
      && calls[k].toolName != "propose_plan" && !Gated(cfg.rules, calls[k])
      && (env.tool(k).Succeeds? || (env.tool(k).Fails? && k == j - 1))
  }

  /** What these calls leave: every reply in the conversation, word for word and in order. */
  function AfterCalls(s: State, t: nat, calls: seq<ToolCall>, i: nat, j: nat, env: Env): State
    requires i <= j <= |calls| && forall k :: i <= k < j ==> !env.tool(k).Raises?
  {
    s.(conversation := s.conversation +
                       seq(j - i, k requires 0 <= k < j - i => AnswerTo(calls[i + k], env.tool(i + k))),
       results := s.results + seq(j - i, k requires 0 <= k < j - i =>
                                    ToolResult(calls[i + k].toolName,
                                               if env.tool(i + k).Succeeds? then OK else FAILED)),
       events := s.events + seq(j - i, k requires 0 <= k < j - i => Info(t, TOOL_RESULT_READY)),
       log := s.log + seq(j - i, k requires 0 <= k < j - i => CallDispatched(t, None, calls[i + k])))
  }

  /** How the work on the calls ends, once those before the j-th ran and left state s. */
  predicate EndsAt(cfg: Config, s: State, t: nat, calls: seq<ToolCall>, i: nat, j: nat, env: Env, o: Outcome)
    requires i <= j <= |calls|
  {
    if i < j && env.tool(j - 1).Fails? then o == Done(Failed(s, t, TOOL_FAILURE))
    else if j == |calls| then o == Done(HandedOver(s, t, env))
    else if calls[j].toolName == "propose_plan" then o == ProposePlan(cfg, s, t, calls[j], env)
    else if Gated(cfg.rules, calls[j]) then
      if Describable(cfg.rules, calls[j]) then
        o == Done(s.(phase := PENDING_APPROVAL, nextApproval := s.nextApproval + 1,
                     pendingCall := Some(PendingCall(s.nextApproval, t, calls[j])),
                     events := s.events + [Info(t, APPROVAL_REQUIRED)],
                     log := s.log + [CallRequested(t, s.nextApproval, calls[j])]))
      else o == Raised(DescriptionFailed, s.(log := s.log + [CallUndescribed(t, calls[j])]))
    else
      && env.tool(j).Raises?
      && o == Raised(ToolException, s.(phase := EXECUTING_TOOL, results := s.results + KeptOf(calls[j], env.tool(j)),
                                       log := s.log + [CallDispatched(t, None, calls[j]), CallRaised(t, calls[j])]))
  }

  lemma NoneRan(s: State, t: nat, calls: seq<ToolCall>, i: nat, env: Env)
    requires i <= |calls|
    ensures AfterCalls(s, t, calls, i, i, env) == s
  {
  }

  /** The state after one call that returned, back in PROCESSING. */
  lemma OneMoreRan(s: State, t: nat, calls: seq<ToolCall>, i: nat, j: nat, env: Env)
    requires i < j <= |calls| && forall k :: i <= k < j ==> !env.tool(k).Raises?
    ensures AfterCalls(AfterCalls(s, t, calls, i, i + 1, env), t, calls, i + 1, j, env) ==
            AfterCalls(s, t, calls, i, j, env)
  {
    var a := AfterCalls(AfterCalls(s, t, calls, i, i + 1, env), t, calls, i + 1, j, env);
    var b := AfterCalls(s, t, calls, i, j, env);
    assert a.conversation == b.conversation;
    assert a.results == b.results;
    assert a.events == b.events;
    assert a.log == b.log;
  }

  lemma OneRan(cfg: Config, s: State, t: nat, calls: seq<ToolCall>, i: nat, env: Env)
    requires i < |calls| && s.phase == PROCESSING && !env.tool(i).Raises?
    ensures RecordTool(cfg, s.(phase := EXECUTING_TOOL), t, calls[i], None, env.tool(i))
         == AfterCalls(s, t, calls, i, i + 1, env).(phase := EXECUTING_TOOL)
  {
    var r := AfterCalls(s, t, calls, i, i + 1, env);
    assert r.conversation == s.conversation + [AnswerTo(calls[i], env.tool(i))];
    assert r.results == s.results + [ToolResult(calls[i].toolName, if env.tool(i).Succeeds? then OK else FAILED)];
    assert r.events == s.events + [Info(t, TOOL_RESULT_READY)];
    assert r.log == s.log + [CallDispatched(t, None, calls[i])];
  }

  lemma {:induction false} CallsRun(cfg: Config, s: State, t: nat, calls: seq<ToolCall>, i: nat, env: Env)
    returns (j: nat)
    requires i <= |calls| && s.phase == PROCESSING && s.counter !in s.cancelled
    ensures i <= j <= |calls| && Ran(cfg, calls, i, j, env)
    ensures EndsAt(cfg, AfterCalls(s, t, calls, i, j, env), t, calls, i, j, env, RunCalls(cfg, s, t, calls, i, env))
    decreases |calls| - i
  {
    hide ProposePlan, Gated, Describable, RecordTool, AfterCalls, Strand;
    j := i;
    NoneRan(s, t, calls, i, env);
    if i < |calls| && calls[i].toolName != "propose_plan" && !Gated(cfg.rules, calls[i]) {
      if env.tool(i).Raises? {
        StrandedAt(s, t, calls[i], env.tool(i));
        return;
      }
      OneRan(cfg, s, t, calls, i, env);
      var s1 := AfterCalls(s, t, calls, i, i + 1, env);
      AfterKeeps(s, t, calls, i, env);
      if env.tool(i).Fails? {
        j := i + 1;
        return;
      }
      j := CallsRun(cfg, s1, t, calls, i + 1, env);
      OneMoreRan(s, t, calls, i, j, env);
    }
  }

  lemma AfterKeeps(s: State, t: nat, calls: seq<ToolCall>, i: nat, env: Env)
    requires i < |calls| && !env.tool(i).Raises?
    ensures var r := AfterCalls(s, t, calls, i, i + 1, env);
            r.phase == s.phase && r.counter == s.counter && r.cancelled == s.cancelled
  {
  }

  lemma StrandedAt(s: State, t: nat, call: ToolCall, reply: ToolReply)
    requires reply.Raises?
    ensures Strand(s.(phase := EXECUTING_TOOL), t, call, None, reply.kept) ==
            s.(phase := EXECUTING_TOOL, results := s.results + KeptOf(call, reply),
               log := s.log + [CallDispatched(t, None, call), CallRaised(t, call)])
  {
    assert s.log + [CallDispatched(t, None, call)] + [CallRaised(t, call)]
        == s.log + [CallDispatched(t, None, call), CallRaised(t, call)];
    assert s.results + [] == s.results;
  }

  // ------------------------------------------------------------------------
  // Events
  // ------------------------------------------------------------------------

  /** The text of an answer: what was streamed to the main thread, else the text that came with it, if any. */
  function SpokenBy(streaming: string, text: Option<string>): Option<string> {
    if streaming == "" && text == Some("") then None
    else if streaming == "" then text
    else Some(streaming)
  }

  /** The oldest event belongs to the active turn. */
  predicate HasNews(s: State) {
    s.events != [] && s.turn == Some(s.events[0].turn)
  }

  /** Events that ask for nothing: stale ones are counted, deltas streamed, notices dropped, errors end the turn. */
  lemma PlainEvent(cfg: Config, s: State, env: Env)
    requires s.events != []
    ensures var e, rest := s.events[0], s.(events := s.events[1..]);
            var o := Attempt(cfg, s, DoProcess(env));
            if !HasNews(s) then o == Done(rest.(stale := s.stale + 1))
            else match e
              case Delta(_, d) => o == Done(rest.(streaming := s.streaming + d))
              case Info(_, _) => o == Done(rest)
              case AgentError(t, _) =>
                o == if s.phase in {PROCESSING, PENDING_APPROVAL, EXECUTING_TOOL}
                     then Done(rest.(phase := ERROR, turn := None, log := s.log + [Ended(t)]))
                     else Raised(InvalidTransition, rest)
              case Response(_, _, _) => s.counter in s.cancelled ==> o == Done(rest)
  {
  }

  /** An answer without calls is the final one: it joins the conversation and completes the turn. */
  lemma FinalAnswer(cfg: Config, s: State, env: Env)
    requires HasNews(s) && s.events[0].Response? && s.events[0].calls == []
    requires s.phase == PROCESSING && s.counter !in s.cancelled
    ensures var e := s.events[0];
            var spoken := SpokenBy(s.streaming, e.text);
            var text := if spoken.Some? then spoken.value else DEFAULT_FINAL_TEXT;
            Attempt(cfg, s, DoProcess(env)) ==
            Done(s.(phase := IDLE, turn := None, streaming := "",
                    conversation := s.conversation + [Message(ASSISTANT, Some(text), [], None, None, None)],
                    events := s.events[1..] + [Info(e.turn, FINAL_RESPONSE_READY)], log := s.log + [Ended(e.turn)]))
  {
  }

  /**
   * An answer with calls counts as a round. Beyond the allowed rounds the turn ends; else the request joins the
   * conversation, and its calls are worked off one by one up to the first that asks the user, fails or raises.
   */
  lemma CallingAnswer(cfg: Config, s: State, env: Env) returns (j: nat)
    requires HasNews(s) && s.events[0].Response? && s.events[0].calls != []
    requires s.phase == PROCESSING && s.counter !in s.cancelled
    ensures var e, o := s.events[0], Attempt(cfg, s, DoProcess(env));
            var counted := s.(events := s.events[1..], round := s.round + 1);
            if s.round + 1 > cfg.rules.maxToolRounds then o == Done(Failed(counted, e.turn, MAX_TOOL_ROUNDS_EXCEEDED))
            else
              var asked := counted.(streaming := "", conversation := s.conversation + [
                Message(ASSISTANT, SpokenBy(s.streaming, e.text), e.calls, None, None, None)]);
              && j <= |e.calls| && Ran(cfg, e.calls, 0, j, env)
              && EndsAt(cfg, AfterCalls(asked, e.turn, e.calls, 0, j, env), e.turn, e.calls, 0, j, env, o)
  {
    hide RunCalls, AfterCalls, EndsAt, Ran;
    var e := s.events[0];
    j := 0;
    if s.round + 1 <= cfg.rules.maxToolRounds {
      var asked := s.(events := s.events[1..], round := s.round + 1, streaming := "", conversation := s.conversation + [
        Message(ASSISTANT, SpokenBy(s.streaming, e.text), e.calls, None, None, None)]);
      j := CallsRun(cfg, asked, e.turn, e.calls, 0, env);
    }
  }

  // ------------------------------------------------------------------------
  // Starting and cancelling
  // ------------------------------------------------------------------------

  /** The conversation that a start goes on with: one that is not whole is cut back to where its last turn began. */
  function Mended(s: State): seq<Message> {
    if ValidSequence(s.conversation) || s.start.None? || s.start.value > |s.conversation| then s.conversation
    else s.conversation[..s.start.value]
  }

  /** The turn is open, with the prompt as its first message; nothing is left of the turn before. */
  function Opened(s: State, p: Prompt): State {
    s.(phase := IDLE, counter := s.counter + 1, turn := Some(s.counter + 1), round := 0, repairs := 0, streaming := "",
       results := [], start := Some(|Mended(s)|),
       conversation := Mended(s) + [Message(USER, Some(p.text), [], None, None, p.imageId)],
       log := s.log + [Started(s.counter + 1)])
  }

  /** Where the turn opens, how the conversation is pruned and then compacted, and how the start may end. */
  predicate StartsAs(cfg: Config, s: State, p: Prompt, env: Env, o: Outcome) {
    var t, begun := s.counter + 1, Opened(s, p);
    if !ValidSequence(s.conversation) && s.start.None?
    then o == Raised(BrokenConversation, s.(phase := IDLE))
    else
      match Turns.Prune(begun.conversation, 2, cfg.pruner)
      case None => o == Raised(CompactionFailed, begun.(log := begun.log + [BrokeOff(t)]))
      case Some((pruned, _)) =>
        match Turns.Compact(pruned, 10000, 2, cfg.pruner, cfg.summarizer)
        case None =>
          o == Raised(CompactionFailed, begun.(conversation := pruned, log := begun.log + [BrokeOff(t)]))
        case Some((compacted, _)) =>
          var r := begun.(conversation := compacted, events := s.events + [Info(t, PROMPT_SUBMITTED)]);
          o == Done(if env.imagesFound
                    then r.(phase := PROCESSING, tasks := s.tasks + [t], log := r.log + [TaskSubmitted(t)])
                    else r.(phase := ERROR, events := r.events + [AgentError(t, IMAGE_NOT_FOUND)],
                            log := r.log + [MissedImage(t)]))
  }

  lemma PromptStarts(cfg: Config, s: State, p: Prompt, env: Env)
    requires s.phase in {IDLE, ERROR} && s.pendingCall.None?
    ensures StartsAs(cfg, s, p, env, StartPrompt(cfg, s, p, env))
  {
    hide ValidSequence, Turns.Prune, Turns.Compact;
    var s1 := if s.phase == ERROR then s.(phase := IDLE) else s;
    assert s1 == s.(phase := IDLE);
    if ValidSequence(s.conversation) || s.start.Some? {
      assert Recover(s1).Done?;
      assert OpenTurn(Recover(s1).state, p) == Opened(s, p);
    }
  }

  /** Nothing is under way: no turn is active, and no decision or answer is awaited. */
  predicate AtRest(s: State) {
    s.turn.None? && s.phase in {IDLE, ERROR}
  }

  lemma RestIsNotBusy(s: State)
    ensures AtRest(s) <==> !Busy(s)
  {
    match s.phase case IDLE => case PROCESSING => case PENDING_APPROVAL => case EXECUTING_TOOL => case ERROR =>
  }

  /** A submitted prompt starts at once if nothing is under way; else it waits, up to twenty of them. */
  lemma SubmittedPrompt(cfg: Config, s: State, p: Prompt, env: Env)
    requires s.pendingCall.Some? ==> s.phase == PENDING_APPROVAL
    ensures var o := Attempt(cfg, s, DoSubmit(p, env));
            if AtRest(s) then StartsAs(cfg, s, p, env, o)
            else o == if |s.prompts| >= 20 then Raised(QueueFull, s) else Done(s.(prompts := s.prompts + [p]))
  {
    hide StartPrompt, StartsAs;
    RestIsNotBusy(s);
    if AtRest(s) {
      PromptStarts(cfg, s, p, env);
    }
  }

  /** A tick starts the oldest waiting prompt if nothing is under way, and forgets how that ends. */
  lemma PumpedPrompt(cfg: Config, s: State, env: Env)
    requires s.pendingCall.Some? ==> s.phase == PENDING_APPROVAL
    ensures var o := Attempt(cfg, s, DoPump(env));
            if AtRest(s) && s.prompts != []
            then
              exists start ::
                StartsAs(cfg, s.(prompts := s.prompts[1..]), s.prompts[0], env, start) && o == Done(start.state)
            else o == Done(s)
  {
    hide StartPrompt, StartsAs;
    RestIsNotBusy(s);
    if AtRest(s) && s.prompts != [] {
      PromptStarts(cfg, s.(prompts := s.prompts[1..]), s.prompts[0], env);
    }
  }

  /** Cancelling drops what is pending and takes the conversation back to the start of the turn, if that is inside. */
  lemma Cancelled(cfg: Config, s: State)
    ensures var cut := s.(pendingCall := None, pendingPlan := None, repairs := 0, start := None,
                          conversation := if s.start.Some? && s.start.value <= |s.conversation|
                                          then s.conversation[..s.start.value] else s.conversation);
            Attempt(cfg, s, DoCancel) ==
            Done(match s.turn
                 case None => cut
                 case Some(t) => cut.(phase := IDLE, turn := None, cancelled := s.cancelled + {s.counter},
                                      events := s.events + [Info(t, CANCEL_REQUESTED)], log := s.log + [Ended(t)]))
  {
  }

  // ------------------------------------------------------------------------
  // The worker
  // ------------------------------------------------------------------------

  /** Taking a task: the oldest one, unless its turn was cancelled before. */
  lemma TakenTask(cfg: Config, s: State)
    ensures Attempt(cfg, s, DoTake) ==
            Done(if !s.worker.Resting? || s.tasks == [] then s
                 else s.(tasks := s.tasks[1..],
                         worker := if s.tasks[0] in s.cancelled then Resting else Working(s.tasks[0], "")))
  {
  }

  /** Posting an event: it joins the queue, and unless it was the last one the worker goes on with its stream. */
  lemma PostedEvent(cfg: Config, s: State)
    ensures Attempt(cfg, s, DoPost) ==
            Done(match s.worker
                 case Posting(t, text, e, last) =>
                   s.(events := s.events + [e], worker := if last then Resting else Working(t, text))
                 case _ => s)
  {
  }

  // ------------------------------------------------------------------------
  // The premises
  // ------------------------------------------------------------------------

  /** What the lemmas on single steps ask of the state holds in every run. */
  lemma PremisesInEveryRun(cfg: Config, steps: seq<Step>)
    ensures var s := Run(cfg, Initial, steps);
            && (s.pendingCall.Some? || s.pendingPlan.Some? ==> s.phase == PENDING_APPROVAL)
            && s.nextApproval !in s.consumed
            && (s.turn.Some? ==> s.counter !in s.cancelled)
            && (HasNews(s) && s.events[0].Response? ==> s.phase == PROCESSING)
  {
    hide Run, RuntimeShape.ShapeInv;
    RuntimeShape.InitialShape();
    RuntimeShape.RunShape(cfg, Initial, steps);
    PremisesOf(Run(cfg, Initial, steps));
  }

  lemma PremisesOf(s: State)
    requires RuntimeShape.ShapeInv(s)
    ensures s.pendingCall.Some? || s.pendingPlan.Some? ==> s.phase == PENDING_APPROVAL
    ensures s.nextApproval !in s.consumed
    ensures s.turn.Some? ==> s.counter !in s.cancelled
    ensures HasNews(s) && s.events[0].Response? ==> s.phase == PROCESSING
  {
    hide RuntimeShape.EventsUpTo, RuntimeShape.TurnsUpTo, RuntimeShape.LogUpTo, RuntimeShape.WorkerOk,
      RuntimeShape.Mishaps, RuntimeShape.Awaiting, RuntimeShape.Live;
    if HasNews(s) && s.events[0].Response? {
      RuntimeShape.LiveTail(s.events, s.counter);
      assert RuntimeShape.Live(s.events, s.counter)[0] == s.events[0];
    }
  }
}
