/**
 * The turn protocol of the agent runtime (agent/runtime.py, agent/worker.py) as a transition system: the
 * main thread's calls are atomic steps, the worker's steps fall between them in any order, and everything
 * a user, a tool or a provider may do is an argument of the step.
 */
module Runtime {
  import opened PyText
  import opened Chat
  import opened StateMachine
  import opened RuntimeLog
  import Turns
  import PlanModel
  import PlanValidator
  import PlanReview
  import PlanExecutor
  import Policy

  const MAX_QUEUED_PROMPTS: nat := 20
  const DEFAULT_FINAL_TEXT: string := "İşlem tamamlandı."

  // ------------------------------------------------------------------------
  // State
  // ------------------------------------------------------------------------

  datatype Notice =
    | PROMPT_SUBMITTED
    | APPROVAL_REQUIRED
    | APPROVAL_RESOLVED
    | TOOL_RESULT_READY
    | FINAL_RESPONSE_READY
    | CANCEL_REQUESTED

  datatype ErrorKind =
    | IMAGE_NOT_FOUND
    | MAX_TOOL_ROUNDS_EXCEEDED
    | MAX_PLAN_REPAIRS_EXCEEDED
    | PLAN_VALIDATION_FAILED
    | TOOL_FAILURE
    | PROVIDER_FAILURE
    | WORKER_EXCEPTION

  /** Queue entries, each with the turn it belongs to; notices reach the user interface only. */
  datatype Event =
    | Delta(turn: nat, delta: string)
    | Response(turn: nat, text: Option<string>, calls: seq<ToolCall>)
    | AgentError(turn: nat, kind: ErrorKind)
    | Info(turn: nat, notice: Notice)

  datatype PendingCall = PendingCall(id: nat, turn: nat, call: ToolCall)
  datatype PendingPlan = PendingPlan(id: nat, turn: nat, callId: string, review: PlanReview.Review)

  datatype ResultType = OK | FAILED | PLAN_EXECUTION_FAILED | USER_REJECTED | REFUSED
  datatype ToolResult = ToolResult(tool: string, outcome: ResultType)

  datatype Prompt = Prompt(text: string, imageId: Option<string>)

  /**
   * The worker thread: between tasks, inside the provider's stream, or about to put an event into the
   * queue (`last`: no more events for this task). `text` is what the task has streamed so far.
   */
  datatype Worker =
    | Resting
    | Working(turn: nat, text: string)
    | Posting(turn: nat, text: string, event: Event, last: bool)

  datatype State = State(
    phase: Phase,
    counter: nat,
    turn: Option<nat>,
    pendingCall: Option<PendingCall>,
    pendingPlan: Option<PendingPlan>,
    round: nat,
    repairs: nat,
    streaming: string,
    results: seq<ToolResult>,
    conversation: seq<Message>,
    start: Option<nat>,
    nextApproval: nat,
    consumed: set<nat>,
    prompts: seq<Prompt>,
    stale: nat,
    cancelled: set<nat>,
    events: seq<Event>,
    tasks: seq<nat>,
    worker: Worker,
    log: seq<Effect>)

  const Initial: State := State(IDLE, 0, None, None, None, 0, 0, "", [], [], None, 0, {}, [], 0, {}, [], [], Resting,
                                [])

  /** `errorText` and `summaryText` write JSON, `wording` words the description of a call. */
  datatype Config = Config(
    rules: Rules,
    describe: PlanReview.Describer,
    wording: Policy.Wording,
    errorText: ToolResult -> string,
    summaryText: PlanExecutor.Summary -> string,
    pruner: Turns.Pruner,
    summarizer: Turns.Summarizer)

  /**
   * What a dispatched tool reports; or an exception escapes, from its execution or its verification, or from the
   * attempt to record its result, which is then already kept (`kept`: with success or not).
   */
  datatype ToolReply =
    | Succeeds(content: string, imageId: Option<string>)
    | Fails(content: string)
    | Raises(kept: Option<bool>)

  /** What happens outside the runtime during one call of it. */
  datatype Env = Env(tool: nat -> ToolReply, step: (nat, PlanModel.PlanStep) -> PlanExecutor.StepOutcome,
                     imagesFound: bool, freshPlanId: string)

  datatype Fault =
    | InvalidTransition
    | ActiveTurn
    | BrokenConversation
    | QueueFull
    | NoPendingApproval
    | InvalidApproval
    | PlanRefused
    | CompactionFailed
    | ToolException
    | DescriptionFailed

  /** The state after a call, or the exception that left it, with the state at that moment. */
  datatype Outcome = Done(state: State) | Raised(fault: Fault, state: State) {
    predicate IsFailure() { Raised? }
    function PropagateFailure(): Outcome
      requires Raised?
    {
      this
    }
    function Extract(): State
      requires Done?
    {
      state
    }
  }

  // ------------------------------------------------------------------------
  // Small steps
  // ------------------------------------------------------------------------

  function To(s: State, target: Phase): Outcome {
    if Allowed(s.phase, target) then Done(s.(phase := target)) else Raised(InvalidTransition, s)
  }

  function Post(s: State, e: Event): State {
    s.(events := s.events + [e])
  }

  function Note(s: State, e: Effect): State {
    s.(log := s.log + [e])
  }

  function Say(s: State, m: Message): State {
    s.(conversation := s.conversation + [m])
  }

  function Keep(s: State, r: ToolResult): State {
    s.(results := s.results + [r])
  }

  /** The cancel event belongs to the turn started last. */
  predicate CancelSet(s: State) {
    s.counter in s.cancelled
  }

  function Close(s: State, t: nat): State {
    Note(s, Ended(t)).(turn := None)
  }

  function Fail(s: State, t: nat, kind: ErrorKind): Outcome {
    var s1 :- To(s, ERROR);
    Done(Close(Post(s1, AgentError(t, kind)), t))
  }

  function SubmitTask(s: State, t: nat): State {
    Note(s, TaskSubmitted(t)).(tasks := s.tasks + [t])
  }

  /** Hand the next step of turn t to the worker, unless an image of the conversation is gone. */
  function Delegate(s: State, t: nat, env: Env): Outcome {
    if !env.imagesFound then Fail(s, t, IMAGE_NOT_FOUND)
    else Done(SubmitTask(s, t))
  }

  /** Truncate the conversation to where the active turn began, if that index is still inside. */
  function Discard(s: State): State {
    if s.start.None? then s
    else if s.start.value <= |s.conversation|
    then s.(conversation := s.conversation[..s.start.value], start := None)
    else s.(start := None)
  }

  function OrNone(text: Option<string>): Option<string> {
    if text == Some("") then None else text
  }

  /** Text streamed on the main thread wins over the text of the response. */
  function SpokenText(streaming: string, text: Option<string>): Option<string> {
    if streaming != "" then Some(streaming) else OrNone(text)
  }

  function FinalText(streaming: string, text: Option<string>): string {
    match SpokenText(streaming, text) case Some(spoken) => spoken case None => DEFAULT_FINAL_TEXT
  }

  // ------------------------------------------------------------------------
  // Starting a turn
  // ------------------------------------------------------------------------

  /** The conversation after the check before a new turn, and whether something inside it raised. */
  datatype Compaction = Compacted(conversation: seq<Message>) | Broke(conversation: seq<Message>)

  /** Prune, then compact. */
  function CompactContext(cfg: Config, s: State): Compaction {
    if s.pendingCall.Some? || s.phase in {PENDING_APPROVAL, EXECUTING_TOOL} then Compacted(s.conversation)
    else
      match Turns.Prune(s.conversation, Turns.RETAINED_TURNS_COUNT, cfg.pruner)
      case None => Broke(s.conversation)
      case Some((pruned, _)) =>
        match Turns.Compact(pruned, Turns.COMPACTION_TRIGGER_CHARS, Turns.RETAINED_TURNS_COUNT, cfg.pruner,
                            cfg.summarizer)
        case None => Broke(pruned)
        case Some((compacted, _)) => Compacted(compacted)
  }

  /** Make sure a conversation is whole before a prompt is added to it. */
  function Recover(s: State): Outcome {
    if ValidSequence(s.conversation) then Done(s)
    else if s.start.None? then Raised(BrokenConversation, s)
    else Done(Discard(s))
  }

  function OpenTurn(s: State, p: Prompt): State {
    var t := s.counter + 1;
    var s1 := s.(counter := t, turn := Some(t), results := [], round := 0, repairs := 0, streaming := "",
                 start := Some(|s.conversation|));
    Say(Note(s1, Started(t)), UserMessage(p.text, p.imageId))
  }

  function StartPrompt(cfg: Config, s: State, p: Prompt, env: Env): Outcome {
    if s.phase in {PROCESSING, EXECUTING_TOOL} then Raised(ActiveTurn, s)
    else
      var s1 := if s.phase == ERROR then s.(phase := IDLE) else s;
      var s2 :- Recover(s1);
      var s3 := OpenTurn(s2, p);
      var compaction := CompactContext(cfg, s3);
      var compactedState := s3.(conversation := compaction.conversation);
      // The turn is not closed here either: it keeps its id in state IDLE.
      if compaction.Broke? then Raised(CompactionFailed, Note(compactedState, BrokeOff(s3.counter)))
      else
        var s4 :- To(compactedState, PROCESSING);
        var s5 := Post(s4, Info(s4.counter, PROMPT_SUBMITTED));
        if env.imagesFound then Done(SubmitTask(s5, s5.counter))
        else
          // The turn is not closed here: it keeps its id in state ERROR.
          var s6 :- To(s5, ERROR);
          Done(Note(Post(s6, AgentError(s6.counter, IMAGE_NOT_FOUND)), MissedImage(s6.counter)))
  }

  predicate Busy(s: State) {
    s.turn.Some? || s.phase in {PROCESSING, EXECUTING_TOOL, PENDING_APPROVAL}
  }

  function SubmitPrompt(cfg: Config, s: State, p: Prompt, env: Env): Outcome {
    if !Busy(s) then StartPrompt(cfg, s, p, env)
    else if |s.prompts| >= MAX_QUEUED_PROMPTS then Raised(QueueFull, s)
    else Done(s.(prompts := s.prompts + [p]))
  }

  /** Start the oldest queued prompt; a failure to start it is swallowed and the prompt is gone. */
  function PumpPromptQueue(cfg: Config, s: State, env: Env): Outcome {
    if Busy(s) || s.prompts == [] then Done(s)
    else Done(StartPrompt(cfg, s.(prompts := s.prompts[1..]), s.prompts[0], env).state)
  }

  // ------------------------------------------------------------------------
  // Tool calls
  // ------------------------------------------------------------------------

  function RecordTool(cfg: Config, s: State, t: nat, call: ToolCall, id: Option<nat>, reply: ToolReply): State
    requires !reply.Raises?
  {
    var result := ToolResult(call.toolName, if reply.Succeeds? then OK else FAILED);
    var image := if reply.Succeeds? then reply.imageId else None;
    Post(Say(Keep(Note(s, CallDispatched(t, id, call)), result),
             ToolMessage(reply.content, call.callId, Some(call.toolName), image)),
         Info(t, TOOL_RESULT_READY))
  }

  /** The execution of a call raised: no answer is recorded for it and the state stays where it is. */
  function Strand(s: State, t: nat, call: ToolCall, id: Option<nat>, kept: Option<bool>): State {
    var s1 := Note(Note(s, CallDispatched(t, id, call)), CallRaised(t, call));
    if kept.None? then s1 else Keep(s1, ToolResult(call.toolName, if kept.value then OK else FAILED))
  }

  /** Ask the user about a call; where it cannot be described, an exception leaves the state as it is. */
  function HoldCall(cfg: Config, s: State, t: nat, call: ToolCall): Outcome {
    if !Describable(cfg.rules, call) then Raised(DescriptionFailed, Note(s, CallUndescribed(t, call)))
    else
      var id := s.nextApproval;
      var s1 :- To(s.(pendingCall := Some(PendingCall(id, t, call)), nextApproval := id + 1), PENDING_APPROVAL);
      Done(Post(Note(s1, CallRequested(t, id, call)), Info(t, APPROVAL_REQUIRED)))
  }

  predicate RepairProposal(results: seq<ToolResult>) {
    exists i :: 0 <= i < |results| && results[i] == ToolResult(PlanValidator.PROPOSE_PLAN, PLAN_EXECUTION_FAILED)
  }

  /** End the turn because a plan is refused: the call is answered with the reason. */
  function RefusePlan(cfg: Config, s: State, t: nat, call: ToolCall, kind: ErrorKind): Outcome {
    var s1 :- To(s, ERROR);
    var result := ToolResult(PlanValidator.PROPOSE_PLAN, REFUSED);
    var s2 := Keep(Say(s1, ToolMessage(cfg.errorText(result), call.callId, Some(PlanValidator.PROPOSE_PLAN), None)),
                   result);
    Done(Close(Post(s2, AgentError(t, kind)), t))
  }

  function HoldPlan(s: State, t: nat, call: ToolCall, review: PlanReview.Review): Outcome {
    var id := s.nextApproval;
    var s1 :- To(s.(pendingPlan := Some(PendingPlan(id, t, call.callId, review)), nextApproval := id + 1),
                 PENDING_APPROVAL);
    Done(Note(s1, PlanReviewed(t, id, review.plan)))
  }

  /** Validate a proposed plan and hold it for review; a low-risk one may be approved on the spot. */
  function RequestPlanReview(cfg: Config, s: State, t: nat, call: ToolCall, env: Env): Outcome {
    match PlanReview.ReviewOf(cfg.rules.registry,
                              PlanModel.Payload(cfg.rules.decode(call.arguments) - {"overall_risk"}),
                              env.freshPlanId, cfg.describe)
    case None => Raised(PlanRefused, s)
    case Some(review) =>
      var s1 :- HoldPlan(s, t, call, review);
      if cfg.rules.autoApprove && review.overallRisk in {PlanModel.READ_ONLY, PlanModel.LOW}
      then ApprovePlan(cfg, s1, s.nextApproval, true, env)
      else Done(Post(s1, Info(t, APPROVAL_REQUIRED)))
  }

  /** A call of `propose_plan`; any exception while the review is built counts as a refusal. */
  function ProposePlan(cfg: Config, s: State, t: nat, call: ToolCall, env: Env): Outcome {
    if RepairProposal(s.results) && s.repairs >= cfg.rules.maxPlanRepairs
    then RefusePlan(cfg, s, t, call, MAX_PLAN_REPAIRS_EXCEEDED)
    else
      var s1 := if RepairProposal(s.results) then s.(repairs := s.repairs + 1) else s;
      match RequestPlanReview(cfg, s1, t, call, env)
      case Done(s2) => Done(s2)
      case Raised(_, s2) => RefusePlan(cfg, s2, t, call, PLAN_VALIDATION_FAILED)
  }

  /** The calls of one response from the i-th on. */
  function RunCalls(cfg: Config, s: State, t: nat, calls: seq<ToolCall>, i: nat, env: Env): Outcome
    requires i <= |calls|
    decreases |calls| - i
  {
    if CancelSet(s) then Done(s)
    else if i == |calls| then Delegate(s, t, env)
    else if calls[i].toolName == PlanValidator.PROPOSE_PLAN then ProposePlan(cfg, s, t, calls[i], env)
    else if Gated(cfg.rules, calls[i]) then HoldCall(cfg, s, t, calls[i])
    else
      var s1 :- To(s, EXECUTING_TOOL);
      if env.tool(i).Raises? then Raised(ToolException, Strand(s1, t, calls[i], None, env.tool(i).kept))
      else
        var s2 := RecordTool(cfg, s1, t, calls[i], None, env.tool(i));
        if env.tool(i).Fails? then Fail(s2, t, TOOL_FAILURE)
        else
          var s3 :- To(s2, PROCESSING);
          RunCalls(cfg, s3, t, calls, i + 1, env)
  }

  // ------------------------------------------------------------------------
  // Events
  // ------------------------------------------------------------------------

  function FinishTurn(s: State, t: nat, text: Option<string>): Outcome {
    var s1 :- To(s, IDLE);
    var s2 := Say(s1, AssistantMessage(Some(FinalText(s.streaming, text)), [])).(streaming := "");
    Done(Close(Post(s2, Info(t, FINAL_RESPONSE_READY)), t))
  }

  function TakeRequest(cfg: Config, s: State, t: nat, text: Option<string>, calls: seq<ToolCall>, env: Env): Outcome {
    var s1 := s.(round := s.round + 1);
    if s1.round > cfg.rules.maxToolRounds then Fail(s1, t, MAX_TOOL_ROUNDS_EXCEEDED)
    else RunCalls(cfg, Say(s1, AssistantMessage(SpokenText(s.streaming, text), calls)).(streaming := ""), t, calls, 0,
                  env)
  }

  function ProcessEvent(cfg: Config, s: State, e: Event, env: Env): Outcome {
    if Some(e.turn) != s.turn then Done(s.(stale := s.stale + 1))
    else
      match e
      case Delta(_, d) => Done(s.(streaming := s.streaming + d))
      case Info(_, _) => Done(s)
      case AgentError(t, _) =>
        var s1 :- To(s, ERROR);
        Done(Close(s1, t))
      case Response(t, text, calls) =>
        if CancelSet(s) then Done(s)
        else if calls == [] then FinishTurn(s, t, text)
        else TakeRequest(cfg, s, t, text, calls, env)
  }

  // ------------------------------------------------------------------------
  // The user's decisions
  // ------------------------------------------------------------------------

  function CheckPendingCall(s: State, id: nat): Option<Fault> {
    if s.pendingCall.None? || s.phase != PENDING_APPROVAL then Some(NoPendingApproval)
    else if s.pendingCall.value.id != id || Some(s.pendingCall.value.turn) != s.turn then Some(InvalidApproval)
    else None
  }

  function Approve(cfg: Config, s: State, id: nat, env: Env): Outcome {
    var fault := CheckPendingCall(s, id);
    if fault.Some? then Raised(fault.value, s)
    else
      var p := s.pendingCall.value;
      var s1 := s.(pendingCall := None);
      if CancelSet(s) then Done(s1)
      else
        var s2 :- To(Note(Post(s1, Info(p.turn, APPROVAL_RESOLVED)), Approved(p.turn, id)), EXECUTING_TOOL);
        if env.tool(0).Raises? then Raised(ToolException, Strand(s2, p.turn, p.call, Some(id), env.tool(0).kept))
        else
          var s3 := RecordTool(cfg, s2, p.turn, p.call, Some(id), env.tool(0));
          if env.tool(0).Fails? then Fail(s3, p.turn, TOOL_FAILURE)
          else
            var s4 :- To(s3, PROCESSING);
            Delegate(s4, p.turn, env)
  }

  function Reject(cfg: Config, s: State, id: nat, env: Env): Outcome {
    var fault := CheckPendingCall(s, id);
    if fault.Some? then Raised(fault.value, s)
    else
      var p := s.pendingCall.value;
      var s1 := s.(pendingCall := None);
      if CancelSet(s) then Done(s1)
      else
        var result := ToolResult(p.call.toolName, USER_REJECTED);
        var s2 := Keep(Note(Post(s1, Info(p.turn, APPROVAL_RESOLVED)), Rejected(p.turn, id)), result);
        var s3 := Post(Say(s2, ToolMessage(cfg.errorText(result), p.call.callId, Some(p.call.toolName), None)),
                       Info(p.turn, TOOL_RESULT_READY));
        var s4 :- To(s3, PROCESSING);
        Delegate(s4, p.turn, env)
  }

  function CheckPendingPlan(s: State, id: nat): Option<Fault> {
    if s.pendingPlan.None? || s.phase != PENDING_APPROVAL then Some(NoPendingApproval)
    else if s.pendingPlan.value.id != id || Some(s.pendingPlan.value.turn) != s.turn || id in s.consumed
    then Some(InvalidApproval)
    else None
  }

  /** The call id that the answer to a plan review carries. */
  function AnswerId(p: PendingPlan): string {
    if p.callId != "" then p.callId else "call_plan_" + Decimal(p.id)
  }

  function AnswerPlan(s: State, p: PendingPlan, content: string, result: ToolResult): State {
    Post(Keep(Say(s, ToolMessage(content, AnswerId(p), Some(PlanValidator.PROPOSE_PLAN), None)), result),
         Info(p.turn, TOOL_RESULT_READY))
  }

  /** Answer the call behind a plan review and let the provider go on. */
  function Resume(s: State, p: PendingPlan, content: string, result: ToolResult, env: Env): Outcome {
    var s1 :- To(AnswerPlan(s, p, content, result), PROCESSING);
    Delegate(s1, p.turn, env)
  }

  function PlanSetting(env: Env): PlanExecutor.Setting {
    PlanExecutor.Setting(None, None, env.step)
  }

  /** Approved plans run without a policy and without a hook. */
  function RunPlan(cfg: Config, p: PendingPlan, env: Env): PlanExecutor.Summary {
    PlanExecutor.Execute(cfg.rules.registry, PlanSetting(env), p.review.plan, env.freshPlanId)
  }

  /** The decision on a plan as the log has it; a plan that starts unasked has none. */
  function Consent(s: State, p: PendingPlan, automatic: bool): State {
    var s1 := Post(s, Info(p.turn, APPROVAL_RESOLVED));
    if automatic then s1 else Note(s1, Approved(p.turn, p.id))
  }

  function ApprovePlan(cfg: Config, s: State, id: nat, automatic: bool, env: Env): Outcome {
    var fault := CheckPendingPlan(s, id);
    if fault.Some? then Raised(fault.value, s)
    else
      var p := s.pendingPlan.value;
      var s1 := s.(pendingPlan := None);
      if CancelSet(s) then Done(s1)
      else
        var s2 :- To(Consent(s1, p, automatic), EXECUTING_TOOL);
        var summary := RunPlan(cfg, p, env);
        var s3 := Note(s2, PlanRun(p.turn, id, automatic, p.review.plan, summary)).(consumed := s.consumed + {id});
        var result := ToolResult(PlanValidator.PROPOSE_PLAN, if summary.completed then OK else PLAN_EXECUTION_FAILED);
        Resume(s3, p, cfg.summaryText(summary), result, env)
  }

  function RejectPlan(cfg: Config, s: State, id: nat, env: Env): Outcome {
    var fault := CheckPendingPlan(s, id);
    if fault.Some? then Raised(fault.value, s)
    else
      var p := s.pendingPlan.value;
      var s1 := s.(pendingPlan := None);
      if CancelSet(s) then Done(s1)
      else
        var result := ToolResult(PlanValidator.PROPOSE_PLAN, USER_REJECTED);
        var s2 := Note(Post(s1, Info(p.turn, APPROVAL_RESOLVED)), Rejected(p.turn, id)).(consumed := s.consumed + {id});
        Resume(s2, p, cfg.errorText(result), result, env)
  }

  function AbandonTurn(s: State): State
    requires s.turn.Some?
  {
    var s1 := Post(s.(cancelled := s.cancelled + {s.counter}), Info(s.turn.value, CANCEL_REQUESTED));
    Close(s1, s.turn.value).(phase := IDLE)
  }

  function Cancel(s: State): State {
    var s1 := Discard(s.(pendingCall := None, pendingPlan := None, repairs := 0));
    if s1.turn.None? then s1 else AbandonTurn(s1)
  }

  // ------------------------------------------------------------------------
  // The worker
  // ------------------------------------------------------------------------

  /** What the provider's stream yields next; `Exhausted` is its end without a terminal event. */
  datatype StreamEvent =
    | Text(delta: string)
    | CallFragment
    | Failure(isCancelled: bool)
    | Completed(calls: seq<ToolCall>)
    | Exhausted
    | Exception

  function TextOrNone(text: string): Option<string> {
    if text == "" then None else Some(text)
  }

  function WorkerTake(s: State): State
    requires s.worker.Resting? && s.tasks != []
  {
    var s1 := s.(tasks := s.tasks[1..]);
    if s.tasks[0] in s.cancelled then s1 else s1.(worker := Working(s.tasks[0], ""))
  }

  /** One stream event; the cancel event is looked at before anything is made of it. */
  function WorkerObserve(s: State, ev: StreamEvent): State
    requires s.worker.Working?
  {
    var t, text := s.worker.turn, s.worker.text;
    if ev.Exception? then s.(worker := Posting(t, text, AgentError(t, WORKER_EXCEPTION), true))
    else if ev.Exhausted? then Note(s, WentSilent(t)).(worker := Resting)
    else if t in s.cancelled then s.(worker := Resting)
    else
      match ev
      case Text(d) => s.(worker := Posting(t, text + d, Delta(t, d), false))
      case CallFragment => s
      case Failure(isCancelled) =>
        if isCancelled then Note(s, WentSilent(t)).(worker := Resting)
        else s.(worker := Posting(t, text, AgentError(t, PROVIDER_FAILURE), true))
      case Completed(calls) => s.(worker := Posting(t, text, Response(t, TextOrNone(text), calls), true))
      case _ => s
  }

  function WorkerPost(s: State): State
    requires s.worker.Posting?
  {
    Post(s, s.worker.event).(worker := if s.worker.last then Resting else Working(s.worker.turn, s.worker.text))
  }

  // ------------------------------------------------------------------------
  // Runs
  // ------------------------------------------------------------------------

  datatype Step =
    | DoSubmit(prompt: Prompt, env: Env)
    | DoPump(env: Env)
    | DoProcess(env: Env)
    | DoApprove(id: nat, env: Env)
    | DoReject(id: nat, env: Env)
    | DoApprovePlan(id: nat, env: Env)
    | DoRejectPlan(id: nat, env: Env)
    | DoCancel
    | DoTake
    | DoObserve(ev: StreamEvent)
    | DoPost

  /** One step; a step that is not possible changes nothing. */
  function Attempt(cfg: Config, s: State, step: Step): Outcome {
    match step
    case DoSubmit(p, env) => SubmitPrompt(cfg, s, p, env)
    case DoPump(env) => PumpPromptQueue(cfg, s, env)
    case DoProcess(env) =>
      if s.events == [] then Done(s) else ProcessEvent(cfg, s.(events := s.events[1..]), s.events[0], env)
    case DoApprove(id, env) => Approve(cfg, s, id, env)
    case DoReject(id, env) => Reject(cfg, s, id, env)
    case DoApprovePlan(id, env) => ApprovePlan(cfg, s, id, false, env)
    case DoRejectPlan(id, env) => RejectPlan(cfg, s, id, env)
    case DoCancel => Done(Cancel(s))
    case DoTake => Done(if s.worker.Resting? && s.tasks != [] then WorkerTake(s) else s)
    case DoObserve(ev) => Done(if s.worker.Working? then WorkerObserve(s, ev) else s)
    case DoPost => Done(if s.worker.Posting? then WorkerPost(s) else s)
  }

  /** An exception leaves the state as it was when it was raised. */
  function Next(cfg: Config, s: State, step: Step): State {
    Attempt(cfg, s, step).state
  }

  /** The state after a sequence of steps. */
  function Run(cfg: Config, s: State, steps: seq<Step>): State {
    if steps == [] then s else Next(cfg, Run(cfg, s, steps[..|steps| - 1]), steps[|steps| - 1])
  }
}
