/**
 * The runtime object of agent/runtime.py: the same protocol, field by field. Every method is proved to do
 * what the transition system of module Runtime says.
 */
module AgentRuntimeObject {
  import opened PyText
  import opened Chat
  import opened StateMachine
  import opened RuntimeLog
  import opened Runtime
  import Turns
  import PlanModel
  import PlanValidator
  import PlanReview
  import PlanExecutor
  import Policy

  /** A call that returned, or the exception it raised. */
  function Result(fault: Option<Fault>, s: State): Outcome {
    if fault.None? then Done(s) else Raised(fault.value, s)
  }

  class AgentRuntime {
    const cfg: Config
    var phase: Phase
    var turnCounter: nat
    var currentTurn: Option<nat>
    var pendingApproval: Option<PendingCall>
    var pendingPlanReview: Option<PendingPlan>
    var currentToolRound: nat
    var currentPlanRepairs: nat
    var streamingText: string
    var currentToolResults: seq<ToolResult>
    var conversation: seq<Message>
    var activeConversationStart: Option<nat>
    var nextApproval: nat
    var consumedPlanTokens: set<nat>
    var promptQueue: seq<Prompt>
    var staleEventsCount: nat
    var cancelledTurns: set<nat>
    var eventQueue: seq<Event>
    var taskQueue: seq<nat>
    var worker: Worker
    var effects: seq<Effect>

    ghost function Abs(): State
      reads this
    {
      State(phase, turnCounter, currentTurn, pendingApproval, pendingPlanReview, currentToolRound, currentPlanRepairs,
            streamingText, currentToolResults, conversation, activeConversationStart, nextApproval, consumedPlanTokens,
            promptQueue, staleEventsCount, cancelledTurns, eventQueue, taskQueue, worker, effects)
    }

    constructor (config: Config)
      ensures cfg == config && Abs() == Initial
    {
      cfg := config;
      phase, turnCounter, currentTurn := IDLE, 0, None;
      pendingApproval, pendingPlanReview := None, None;
      currentToolRound, currentPlanRepairs, streamingText, currentToolResults := 0, 0, "", [];
      conversation, activeConversationStart := [], None;
      nextApproval, consumedPlanTokens, promptQueue, staleEventsCount := 0, {}, [], 0;
      cancelledTurns, eventQueue, taskQueue, worker, effects := {}, [], [], Resting, [];
    }

    method TransitionTo(target: Phase) returns (fault: Option<Fault>)
      modifies this
      ensures Result(fault, Abs()) == To(old(Abs()), target)
    {
      if !Allowed(phase, target) {
        return Some(InvalidTransition);
      }
      phase := target;
      fault := None;
    }

    method PutEvent(e: Event)
      modifies this
      ensures Abs() == Post(old(Abs()), e)
    {
      eventQueue := eventQueue + [e];
    }

    method AddMessage(m: Message)
      modifies this
      ensures Abs() == Say(old(Abs()), m)
    {
      conversation := conversation + [m];
    }

    method AddResult(r: ToolResult)
      modifies this
      ensures Abs() == Keep(old(Abs()), r)
    {
      currentToolResults := currentToolResults + [r];
    }

    method Record(e: Effect)
      modifies this
      ensures Abs() == Note(old(Abs()), e)
    {
      effects := effects + [e];
    }

    method CloseTurn(t: nat)
      modifies this
      ensures Abs() == Close(old(Abs()), t)
    {
      Record(Ended(t));
      currentTurn := None;
    }

    method FailTurn(t: nat, kind: ErrorKind) returns (fault: Option<Fault>)
      modifies this
      ensures Result(fault, Abs()) == Fail(old(Abs()), t, kind)
    {
      fault := TransitionTo(ERROR);
      if fault.None? {
        PutEvent(AgentError(t, kind));
        CloseTurn(t);
      }
    }

    method SubmitToWorker(t: nat)
      modifies this
      ensures Abs() == SubmitTask(old(Abs()), t)
    {
      taskQueue := taskQueue + [t];
      Record(TaskSubmitted(t));
    }

    method DelegateStep(t: nat, env: Env) returns (fault: Option<Fault>)
      modifies this
      ensures Result(fault, Abs()) == Delegate(old(Abs()), t, env)
    {
      hide Fail, SubmitTask;
      if !env.imagesFound {
        fault := FailTurn(t, IMAGE_NOT_FOUND);
      } else {
        SubmitToWorker(t);
        fault := None;
      }
    }

    method DiscardActiveTurnContext()
      modifies this
      ensures Abs() == Discard(old(Abs()))
    {
      if activeConversationStart.None? {
        return;
      }
      var start := activeConversationStart.value;
      if start <= |conversation| {
        conversation := conversation[..start];
      }
      activeConversationStart := None;
    }

    method MaybeCompactContext() returns (fault: Option<Fault>)
      modifies this
      ensures var r := CompactContext(cfg, old(Abs()));
              && Abs() == old(Abs()).(conversation := r.conversation)
              && fault == if r.Broke? then Some(CompactionFailed) else None
    {
      hide Turns.Prune, Turns.Compact;
      if pendingApproval.Some? || phase in {PENDING_APPROVAL, EXECUTING_TOOL} {
        return None;
      }
      var pruned := Turns.PruneConversation(conversation, Turns.RETAINED_TURNS_COUNT, cfg.pruner);
      if pruned.None? {
        return Some(CompactionFailed);
      }
      conversation := pruned.value.0;
      var compacted := Turns.CompactConversation(conversation, Turns.COMPACTION_TRIGGER_CHARS,
                                                 Turns.RETAINED_TURNS_COUNT,
                                                 cfg.pruner, cfg.summarizer);
      if compacted.None? {
        return Some(CompactionFailed);
      }
      conversation := compacted.value.0;
      fault := None;
    }

    // ----------------------------------------------------------------------
    // Prompts
    // ----------------------------------------------------------------------

    method RecoverConversation() returns (fault: Option<Fault>)
      modifies this
      ensures Result(fault, Abs()) == Recover(old(Abs()))
    {
      hide ValidSequence, Discard;
      fault := None;
      if !ValidSequence(conversation) {
        if activeConversationStart.None? {
          return Some(BrokenConversation);
        }
        DiscardActiveTurnContext();
      }
    }

    method ResetProgress()
      modifies this
      ensures Abs() == old(Abs()).(results := [], round := 0, repairs := 0, streaming := "")
    {
      currentToolResults := [];
      currentToolRound := 0;
      currentPlanRepairs := 0;
      streamingText := "";
    }

    method NumberTurn()
      modifies this
      ensures var s := old(Abs());
              Abs() == s.(counter := s.counter + 1, turn := Some(s.counter + 1), start := Some(|s.conversation|))
    {
      turnCounter := turnCounter + 1;
      currentTurn := Some(turnCounter);
      activeConversationStart := Some(|conversation|);
    }

    method BeginTurn(p: Prompt)
      modifies this
      ensures Abs() == OpenTurn(old(Abs()), p)
    {
      hide Say, Note;
      NumberTurn();
      ResetProgress();
      Record(Started(turnCounter));
      AddMessage(UserMessage(p.text, p.imageId));
    }

    method StartPromptNow(p: Prompt, env: Env) returns (fault: Option<Fault>)
      modifies this
      ensures Result(fault, Abs()) == StartPrompt(cfg, old(Abs()), p, env)
    {
      hide Recover, OpenTurn, CompactContext, SubmitTask;
      if phase in {PROCESSING, EXECUTING_TOOL} {
        return Some(ActiveTurn);
      }
      if phase == ERROR {
        phase := IDLE;
      }
      fault := RecoverConversation();
      if fault.Some? {
        return;
      }
      BeginTurn(p);
      fault := MaybeCompactContext();
      if fault.Some? {
        Record(BrokeOff(turnCounter));
        return;
      }
      fault := TransitionTo(PROCESSING);
      if fault.Some? {
        return;
      }
      PutEvent(Info(turnCounter, PROMPT_SUBMITTED));
      if env.imagesFound {
        SubmitToWorker(turnCounter);
      } else {
        fault := TransitionTo(ERROR);
        if fault.None? {
          PutEvent(AgentError(turnCounter, IMAGE_NOT_FOUND));
          Record(MissedImage(turnCounter));
        }
      }
    }

    method Submit(p: Prompt, env: Env) returns (fault: Option<Fault>)
      modifies this
      ensures Result(fault, Abs()) == SubmitPrompt(cfg, old(Abs()), p, env)
    {
      hide StartPrompt;
      if currentTurn.Some? || phase in {PROCESSING, EXECUTING_TOOL, PENDING_APPROVAL} {
        if |promptQueue| >= MAX_QUEUED_PROMPTS {
          return Some(QueueFull);
        }
        promptQueue := promptQueue + [p];
        return None;
      }
      fault := StartPromptNow(p, env);
    }

    method Pump(env: Env)
      modifies this
      ensures Done(Abs()) == PumpPromptQueue(cfg, old(Abs()), env)
    {
      hide StartPrompt;
      if currentTurn.Some? || phase in {PROCESSING, EXECUTING_TOOL, PENDING_APPROVAL} || promptQueue == [] {
        return;
      }
      var queued := promptQueue[0];
      promptQueue := promptQueue[1..];
      var fault := StartPromptNow(queued, env);
    }

    // ----------------------------------------------------------------------
    // Tool calls
    // ----------------------------------------------------------------------

    method LeaveStranded(t: nat, call: ToolCall, id: Option<nat>, kept: Option<bool>)
      modifies this
      ensures Abs() == Strand(old(Abs()), t, call, id, kept)
    {
      Record(CallDispatched(t, id, call));
      Record(CallRaised(t, call));
      if kept.Some? {
        AddResult(ToolResult(call.toolName, if kept.value then OK else FAILED));
      }
    }

    method RecordToolResult(t: nat, call: ToolCall, id: Option<nat>, reply: ToolReply)
      requires !reply.Raises?
      modifies this
      ensures Abs() == RecordTool(cfg, old(Abs()), t, call, id, reply)
    {
      Record(CallDispatched(t, id, call));
      AddResult(ToolResult(call.toolName, if reply.Succeeds? then OK else FAILED));
      AddMessage(ToolMessage(reply.content, call.callId, Some(call.toolName),
                                                  if reply.Succeeds? then reply.imageId else None));
      PutEvent(Info(t, TOOL_RESULT_READY));
    }

    method RequestApproval(t: nat, call: ToolCall) returns (fault: Option<Fault>)
      modifies this
      ensures Result(fault, Abs()) == HoldCall(cfg, old(Abs()), t, call)
    {
      hide Policy.DescriptionRaises;
      var text := Policy.HumanDescription(call.toolName, cfg.rules.decode(call.arguments), cfg.wording);
      if text.None? {
        Record(CallUndescribed(t, call));
        return Some(DescriptionFailed);
      }
      var id := nextApproval;
      nextApproval := nextApproval + 1;
      pendingApproval := Some(PendingCall(id, t, call));
      fault := TransitionTo(PENDING_APPROVAL);
      if fault.None? {
        Record(CallRequested(t, id, call));
        PutEvent(Info(t, APPROVAL_REQUIRED));
      }
    }

    method RefuseProposal(t: nat, call: ToolCall, kind: ErrorKind) returns (fault: Option<Fault>)
      modifies this
      ensures Result(fault, Abs()) == RefusePlan(cfg, old(Abs()), t, call, kind)
    {
      fault := TransitionTo(ERROR);
      if fault.None? {
        var result := ToolResult(PlanValidator.PROPOSE_PLAN, REFUSED);
        AddMessage(ToolMessage(cfg.errorText(result), call.callId, Some(PlanValidator.PROPOSE_PLAN), None));
        AddResult(result);
        PutEvent(AgentError(t, kind));
        CloseTurn(t);
      }
    }

    method HoldReview(t: nat, call: ToolCall, review: PlanReview.Review) returns (fault: Option<Fault>)
      modifies this
      ensures Result(fault, Abs()) == HoldPlan(old(Abs()), t, call, review)
    {
      var id := nextApproval;
      nextApproval := nextApproval + 1;
      pendingPlanReview := Some(PendingPlan(id, t, call.callId, review));
      fault := TransitionTo(PENDING_APPROVAL);
      if fault.None? {
        Record(PlanReviewed(t, id, review.plan));
      }
    }

    method RequestReview(t: nat, call: ToolCall, env: Env) returns (fault: Option<Fault>)
      modifies this
      ensures Result(fault, Abs()) == RequestPlanReview(cfg, old(Abs()), t, call, env)
    {
      hide PlanReview.ReviewOf, HoldPlan, ApprovePlan, PlanModel.Payload;
      var review, errors, raised := PlanReview.BuildPlanReview(
        cfg.rules.registry, PlanModel.Payload(cfg.rules.decode(call.arguments) - {"overall_risk"}), env.freshPlanId,
        cfg.describe);
      if review.None? {
        return Some(PlanRefused);
      }
      var id := nextApproval;
      fault := HoldReview(t, call, review.value);
      if fault.Some? {
        return;
      }
      if cfg.rules.autoApprove && review.value.overallRisk in {PlanModel.READ_ONLY, PlanModel.LOW} {
        fault := ApprovePlanReview(id, true, env);
      } else {
        PutEvent(Info(t, APPROVAL_REQUIRED));
      }
    }

    method Propose(t: nat, call: ToolCall, env: Env) returns (fault: Option<Fault>)
      modifies this
      ensures Result(fault, Abs()) == ProposePlan(cfg, old(Abs()), t, call, env)
    {
      hide RequestPlanReview, RefusePlan, RepairProposal;
      if RepairProposal(currentToolResults) {
        if currentPlanRepairs >= cfg.rules.maxPlanRepairs {
          fault := RefuseProposal(t, call, MAX_PLAN_REPAIRS_EXCEEDED);
          return;
        }
        currentPlanRepairs := currentPlanRepairs + 1;
      }
      fault := RequestReview(t, call, env);
      if fault.Some? {
        fault := RefuseProposal(t, call, PLAN_VALIDATION_FAILED);
      }
    }

    method RunToolCalls(t: nat, calls: seq<ToolCall>, env: Env) returns (fault: Option<Fault>)
      modifies this
      ensures Result(fault, Abs()) == RunCalls(cfg, old(Abs()), t, calls, 0, env)
    {
      hide ProposePlan, Gated, HoldCall, RecordTool, Strand, Fail, Delegate;
      for i := 0 to |calls|
        invariant RunCalls(cfg, Abs(), t, calls, i, env) == RunCalls(cfg, old(Abs()), t, calls, 0, env)
      {
        if turnCounter in cancelledTurns {
          return None;
        }
        var call := calls[i];
        if call.toolName == PlanValidator.PROPOSE_PLAN {
          fault := Propose(t, call, env);
          return;
        }
        if Gated(cfg.rules, call) {
          fault := RequestApproval(t, call);
          return;
        }
        fault := TransitionTo(EXECUTING_TOOL);
        if fault.Some? {
          return;
        }
        if env.tool(i).Raises? {
          LeaveStranded(t, call, None, env.tool(i).kept);
          return Some(ToolException);
        }
        RecordToolResult(t, call, None, env.tool(i));
        if env.tool(i).Fails? {
          fault := FailTurn(t, TOOL_FAILURE);
          return;
        }
        fault := TransitionTo(PROCESSING);
        if fault.Some? {
          return;
        }
      }
      if turnCounter in cancelledTurns {
        return None;
      }
      fault := DelegateStep(t, env);
    }

    // ----------------------------------------------------------------------
    // Events
    // ----------------------------------------------------------------------

    method Finish(t: nat, text: Option<string>) returns (fault: Option<Fault>)
      modifies this
      ensures Result(fault, Abs()) == FinishTurn(old(Abs()), t, text)
    {
      hide FinalText;
      fault := TransitionTo(IDLE);
      if fault.None? {
        var finalText := FinalText(streamingText, text);
        streamingText := "";
        AddMessage(AssistantMessage(Some(finalText), []));
        PutEvent(Info(t, FINAL_RESPONSE_READY));
        CloseTurn(t);
      }
    }

    method TakeToolRequest(t: nat, text: Option<string>, calls: seq<ToolCall>, env: Env) returns (fault: Option<Fault>)
      modifies this
      ensures Result(fault, Abs()) == TakeRequest(cfg, old(Abs()), t, text, calls, env)
    {
      hide RunCalls, Fail, SpokenText;
      currentToolRound := currentToolRound + 1;
      if currentToolRound > cfg.rules.maxToolRounds {
        fault := FailTurn(t, MAX_TOOL_ROUNDS_EXCEEDED);
        return;
      }
      AddMessage(AssistantMessage(SpokenText(streamingText, text), calls));
      streamingText := "";
      fault := RunToolCalls(t, calls, env);
    }

    method Process(event: Event, env: Env) returns (fault: Option<Fault>)
      modifies this
      ensures Result(fault, Abs()) == ProcessEvent(cfg, old(Abs()), event, env)
    {
      hide FinishTurn, TakeRequest;
      fault := None;
      if Some(event.turn) != currentTurn {
        staleEventsCount := staleEventsCount + 1;
        return;
      }
      match event
      case Delta(_, d) =>
        streamingText := streamingText + d;
      case Info(_, _) =>
      case AgentError(t, _) =>
        fault := TransitionTo(ERROR);
        if fault.None? {
          CloseTurn(t);
        }
      case Response(t, text, calls) =>
        if turnCounter in cancelledTurns {
          return;
        }
        if calls == [] {
          fault := Finish(t, text);
        } else {
          fault := TakeToolRequest(t, text, calls, env);
        }
    }

    // ----------------------------------------------------------------------
    // The user's decisions
    // ----------------------------------------------------------------------

    method ApproveCall(id: nat, env: Env) returns (fault: Option<Fault>)
      modifies this
      ensures Result(fault, Abs()) == Approve(cfg, old(Abs()), id, env)
    {
      hide RecordTool, Strand, Fail, Delegate;
      if pendingApproval.None? || phase != PENDING_APPROVAL {
        return Some(NoPendingApproval);
      }
      var pending := pendingApproval.value;
      if pending.id != id || Some(pending.turn) != currentTurn {
        return Some(InvalidApproval);
      }
      pendingApproval := None;
      if turnCounter in cancelledTurns {
        return None;
      }
      PutEvent(Info(pending.turn, APPROVAL_RESOLVED));
      Record(Approved(pending.turn, id));
      fault := TransitionTo(EXECUTING_TOOL);
      if fault.Some? {
        return;
      }
      if env.tool(0).Raises? {
        LeaveStranded(pending.turn, pending.call, Some(id), env.tool(0).kept);
        return Some(ToolException);
      }
      RecordToolResult(pending.turn, pending.call, Some(id), env.tool(0));
      if env.tool(0).Fails? {
        fault := FailTurn(pending.turn, TOOL_FAILURE);
        return;
      }
      fault := TransitionTo(PROCESSING);
      if fault.None? {
        fault := DelegateStep(pending.turn, env);
      }
    }

    method RejectCall(id: nat, env: Env) returns (fault: Option<Fault>)
      modifies this
      ensures Result(fault, Abs()) == Reject(cfg, old(Abs()), id, env)
    {
      hide Delegate;
      if pendingApproval.None? || phase != PENDING_APPROVAL {
        return Some(NoPendingApproval);
      }
      var pending := pendingApproval.value;
      if pending.id != id || Some(pending.turn) != currentTurn {
        return Some(InvalidApproval);
      }
      pendingApproval := None;
      if turnCounter in cancelledTurns {
        return None;
      }
      PutEvent(Info(pending.turn, APPROVAL_RESOLVED));
      Record(Rejected(pending.turn, id));
      var result := ToolResult(pending.call.toolName, USER_REJECTED);
      AddResult(result);
      AddMessage(ToolMessage(cfg.errorText(result), pending.call.callId, Some(pending.call.toolName), None));
      PutEvent(Info(pending.turn, TOOL_RESULT_READY));
      fault := TransitionTo(PROCESSING);
      if fault.None? {
        fault := DelegateStep(pending.turn, env);
      }
    }

    method AnswerReview(p: PendingPlan, content: string, result: ToolResult, env: Env) returns (fault: Option<Fault>)
      modifies this
      ensures Result(fault, Abs()) == Resume(old(Abs()), p, content, result, env)
    {
      hide Delegate, AnswerId;
      AddMessage(ToolMessage(content, AnswerId(p), Some(PlanValidator.PROPOSE_PLAN), None));
      AddResult(result);
      PutEvent(Info(p.turn, TOOL_RESULT_READY));
      fault := TransitionTo(PROCESSING);
      if fault.None? {
        fault := DelegateStep(p.turn, env);
      }
    }

    method RunReviewedPlan(p: PendingPlan, id: nat, automatic: bool, env: Env) returns (summary: PlanExecutor.Summary)
      modifies this
      ensures summary == RunPlan(cfg, p, env)
      ensures Abs() == Note(old(Abs()), PlanRun(p.turn, id, automatic, p.review.plan, summary)).(
                         consumed := old(Abs()).consumed + {id})
    {
      hide PlanExecutor.Execute;
      summary := PlanExecutor.ExecutePlan(cfg.rules.registry, PlanSetting(env), p.review.plan, env.freshPlanId);
      Record(PlanRun(p.turn, id, automatic, p.review.plan, summary));
      consumedPlanTokens := consumedPlanTokens + {id};
    }

    method ResolveReview(p: PendingPlan, automatic: bool)
      modifies this
      ensures Abs() == Consent(old(Abs()), p, automatic)
    {
      hide Post, Note;
      PutEvent(Info(p.turn, APPROVAL_RESOLVED));
      if automatic {
        return;
      }
      Record(Approved(p.turn, p.id));
    }

    method ApprovePlanReview(id: nat, automatic: bool, env: Env) returns (fault: Option<Fault>)
      modifies this
      ensures Result(fault, Abs()) == ApprovePlan(cfg, old(Abs()), id, automatic, env)
    {
      hide Resume, RunPlan;
      if pendingPlanReview.None? || phase != PENDING_APPROVAL {
        return Some(NoPendingApproval);
      }
      var p := pendingPlanReview.value;
      if p.id != id || Some(p.turn) != currentTurn || id in consumedPlanTokens {
        return Some(InvalidApproval);
      }
      pendingPlanReview := None;
      if turnCounter in cancelledTurns {
        return None;
      }
      ResolveReview(p, automatic);
      fault := TransitionTo(EXECUTING_TOOL);
      if fault.Some? {
        return;
      }
      var summary := RunReviewedPlan(p, id, automatic, env);
      var outcome := if summary.completed then OK else PLAN_EXECUTION_FAILED;
      fault := AnswerReview(p, cfg.summaryText(summary), ToolResult(PlanValidator.PROPOSE_PLAN, outcome), env);
    }

    method RejectPlanReview(id: nat, env: Env) returns (fault: Option<Fault>)
      modifies this
      ensures Result(fault, Abs()) == RejectPlan(cfg, old(Abs()), id, env)
    {
      hide Resume;
      if pendingPlanReview.None? || phase != PENDING_APPROVAL {
        return Some(NoPendingApproval);
      }
      var p := pendingPlanReview.value;
      if p.id != id || Some(p.turn) != currentTurn || id in consumedPlanTokens {
        return Some(InvalidApproval);
      }
      pendingPlanReview := None;
      if turnCounter in cancelledTurns {
        return None;
      }
      consumedPlanTokens := consumedPlanTokens + {id};
      PutEvent(Info(p.turn, APPROVAL_RESOLVED));
      Record(Rejected(p.turn, id));
      var result := ToolResult(PlanValidator.PROPOSE_PLAN, USER_REJECTED);
      fault := AnswerReview(p, cfg.errorText(result), result, env);
    }

    method ClearPending()
      modifies this
      ensures Abs() == old(Abs()).(pendingCall := None, pendingPlan := None, repairs := 0)
    {
      pendingApproval := None;
      pendingPlanReview := None;
      currentPlanRepairs := 0;
    }

    method Abandon()
      requires currentTurn.Some?
      modifies this
      ensures Abs() == AbandonTurn(old(Abs()))
    {
      var cancelledTurn := currentTurn.value;
      cancelledTurns := cancelledTurns + {turnCounter};
      PutEvent(Info(cancelledTurn, CANCEL_REQUESTED));
      CloseTurn(cancelledTurn);
      if phase != IDLE {
        phase := IDLE;
      }
    }

    method CancelCurrentTurn()
      modifies this
      ensures Abs() == Cancel(old(Abs()))
    {
      hide Discard, AbandonTurn;
      ClearPending();
      DiscardActiveTurnContext();
      if currentTurn.Some? {
        Abandon();
      }
    }
  }
}
