/** What cancelling undoes, and the states that only cancelling, or nothing, leaves. */
module RuntimeCancel {
  import opened PyText
  import opened Chat
  import opened StateMachine
  import opened RuntimeLog
  import opened Runtime
  import opened RuntimeShape
  import opened RuntimeProtocol
  import opened Turns
  import ContextGuard
  import PlanModel
  import PlanReview
  import PlanValidator
  import RuntimeConsent
  import RuntimeQueue

  // ------------------------------------------------------------------------
  // While a turn lasts, its conversation only grows
  // ------------------------------------------------------------------------

  /** No other turn was started; if one is active it is the same; and until a cancellation messages are only added. */
  predicate Extends(s: State, r: State) {
    && r.counter == s.counter
    && (r.turn.Some? ==> r.turn == s.turn && r.start == s.start && s.conversation <= r.conversation)
    && (r.start.Some? ==> r.start == s.start && s.conversation <= r.conversation)
  }

  lemma ExtendsTrans(a: State, b: State, c: State)
    requires Extends(a, b) && Extends(b, c)
    ensures Extends(a, c)
  {
  }

  lemma FailExtends(s: State, t: nat, kind: ErrorKind)
    ensures Extends(s, Fail(s, t, kind).state)
  {
  }

  lemma DelegateExtends(s: State, t: nat, env: Env)
    ensures Extends(s, Delegate(s, t, env).state)
  {
  }

  lemma StrandExtends(s: State, t: nat, call: ToolCall, id: Option<nat>, kept: Option<bool>)
    ensures Extends(s, Strand(s, t, call, id, kept))
  {
  }

  lemma RecordToolExtends(cfg: Config, s: State, t: nat, call: ToolCall, id: Option<nat>, reply: ToolReply)
    requires !reply.Raises?
    ensures Extends(s, RecordTool(cfg, s, t, call, id, reply))
  {
  }

  lemma HoldCallExtends(cfg: Config, s: State, t: nat, call: ToolCall)
    ensures Extends(s, HoldCall(cfg, s, t, call).state)
  {
  }

  lemma RefusePlanExtends(cfg: Config, s: State, t: nat, call: ToolCall, kind: ErrorKind)
    ensures Extends(s, RefusePlan(cfg, s, t, call, kind).state)
  {
  }

  lemma ResumeExtends(s: State, p: PendingPlan, content: string, result: ToolResult, env: Env)
    ensures Extends(s, Resume(s, p, content, result, env).state)
  {
    hide AnswerId;
  }

  lemma PlanDecisionsExtend(cfg: Config, s: State, id: nat, automatic: bool, env: Env)
    ensures Extends(s, ApprovePlan(cfg, s, id, automatic, env).state)
    ensures Extends(s, RejectPlan(cfg, s, id, env).state)
  {
    hide RunPlan, Resume;
    if CheckPendingPlan(s, id).None? {
      var p := s.pendingPlan.value;
      var s1 := Post(s.(pendingPlan := None), Info(p.turn, APPROVAL_RESOLVED));
      var summary := RunPlan(cfg, p, env);
      var ran := Note(Consent(s.(pendingPlan := None), p, automatic).(phase := EXECUTING_TOOL),
                      PlanRun(p.turn, id, automatic, p.review.plan, summary)).(consumed := s.consumed + {id});
      ResumeExtends(ran, p, cfg.summaryText(summary),
                    ToolResult(PlanValidator.PROPOSE_PLAN, if summary.completed then OK else PLAN_EXECUTION_FAILED),
                    env);
      var result := ToolResult(PlanValidator.PROPOSE_PLAN, USER_REJECTED);
      ResumeExtends(Note(s1, Rejected(p.turn, id)).(consumed := s.consumed + {id}), p, cfg.errorText(result), result,
                    env);
    }
  }

  lemma RequestPlanReviewExtends(cfg: Config, s: State, t: nat, call: ToolCall, env: Env)
    ensures Extends(s, RequestPlanReview(cfg, s, t, call, env).state)
  {
    hide PlanReview.ReviewOf, ApprovePlan;
    var review := PlanReview.ReviewOf(cfg.rules.registry,
                                      PlanModel.Payload(cfg.rules.decode(call.arguments) - {"overall_risk"}),
                                      env.freshPlanId, cfg.describe);
    if review.Some? && HoldPlan(s, t, call, review.value).Done? {
      PlanDecisionsExtend(cfg, HoldPlan(s, t, call, review.value).state, s.nextApproval, true, env);
    }
  }

  lemma ProposePlanExtends(cfg: Config, s: State, t: nat, call: ToolCall, env: Env)
    ensures Extends(s, ProposePlan(cfg, s, t, call, env).state)
  {
    hide RequestPlanReview, RepairProposal, RefusePlan;
    var s1 := if RepairProposal(s.results) then s.(repairs := s.repairs + 1) else s;
    RequestPlanReviewExtends(cfg, s1, t, call, env);
    var s2 := RequestPlanReview(cfg, s1, t, call, env).state;
    RefusePlanExtends(cfg, s2, t, call, PLAN_VALIDATION_FAILED);
    RefusePlanExtends(cfg, s, t, call, MAX_PLAN_REPAIRS_EXCEEDED);
    ExtendsTrans(s1, s2, RefusePlan(cfg, s2, t, call, PLAN_VALIDATION_FAILED).state);
  }

  lemma {:induction false} RunCallsExtends(cfg: Config, s: State, t: nat, calls: seq<ToolCall>, i: nat, env: Env)
    requires i <= |calls|
    ensures Extends(s, RunCalls(cfg, s, t, calls, i, env).state)
    decreases |calls| - i
  {
    hide ProposePlan, Gated, HoldCall, RecordTool, Strand, Fail, Delegate;
    if i == |calls| {
      DelegateExtends(s, t, env);
    } else if calls[i].toolName == PlanValidator.PROPOSE_PLAN {
      ProposePlanExtends(cfg, s, t, calls[i], env);
    } else if Gated(cfg.rules, calls[i]) {
      HoldCallExtends(cfg, s, t, calls[i]);
    } else {
      var s1 := s.(phase := EXECUTING_TOOL);
      if env.tool(i).Raises? {
        StrandExtends(s1, t, calls[i], None, env.tool(i).kept);
        return;
      }
      RecordToolExtends(cfg, s1, t, calls[i], None, env.tool(i));
      var s2 := RecordTool(cfg, s1, t, calls[i], None, env.tool(i));
      FailExtends(s2, t, TOOL_FAILURE);
      RunCallsExtends(cfg, s2.(phase := PROCESSING), t, calls, i + 1, env);
    }
  }

  lemma ProcessExtends(cfg: Config, s: State, e: Event, env: Env)
    ensures Extends(s, ProcessEvent(cfg, s, e, env).state)
  {
    hide RunCalls, Fail, SpokenText, FinalText;
    if e.Response? {
      var s1 := s.(round := s.round + 1);
      FailExtends(s1, e.turn, MAX_TOOL_ROUNDS_EXCEEDED);
      RunCallsExtends(cfg, Say(s1, AssistantMessage(SpokenText(s.streaming, e.text), e.calls)).(streaming := ""),
                      e.turn,
                      e.calls, 0, env);
    }
  }

  lemma ApproveExtends(cfg: Config, s: State, id: nat, env: Env)
    ensures Extends(s, Approve(cfg, s, id, env).state)
  {
    hide RecordTool, Strand, Fail, Delegate;
    if CheckPendingCall(s, id).None? {
      var p := s.pendingCall.value;
      var s2 := Note(Post(s.(pendingCall := None), Info(p.turn, APPROVAL_RESOLVED)), Approved(p.turn, id)).(
        phase := EXECUTING_TOOL);
      if env.tool(0).Raises? {
        StrandExtends(s2, p.turn, p.call, Some(id), env.tool(0).kept);
        return;
      }
      RecordToolExtends(cfg, s2, p.turn, p.call, Some(id), env.tool(0));
      var s3 := RecordTool(cfg, s2, p.turn, p.call, Some(id), env.tool(0));
      FailExtends(s3, p.turn, TOOL_FAILURE);
      DelegateExtends(s3.(phase := PROCESSING), p.turn, env);
    }
  }

  lemma RejectExtends(cfg: Config, s: State, id: nat, env: Env)
    ensures Extends(s, Reject(cfg, s, id, env).state)
  {
  }

  lemma WorkerExtends(s: State, ev: StreamEvent)
    ensures s.worker.Resting? && s.tasks != [] ==> Extends(s, WorkerTake(s))
    ensures s.worker.Working? ==> Extends(s, WorkerObserve(s, ev))
    ensures s.worker.Posting? ==> Extends(s, WorkerPost(s))
  {
  }

  /** As `Extends`, for calls that may also start the next turn. */
  predicate ExtendsOrStarts(s: State, r: State) {
    Extends(s, r) || (r.counter == s.counter + 1 && (r.turn.Some? ==> r.turn.value == r.counter))
  }

  lemma StartExtends(cfg: Config, s: State, p: Prompt, env: Env)
    ensures ExtendsOrStarts(s, StartPrompt(cfg, s, p, env).state) || !s.turn.None?
  {
    hide CompactContext, ValidSequence;
  }

  /** Every step either goes on with the active turn or has nothing to do with it any more. */
  lemma NextExtends(cfg: Config, s: State, step: Step)
    ensures ExtendsOrStarts(s, Next(cfg, s, step))
  {
    hide StartPrompt, ProcessEvent, Approve, Reject, ApprovePlan, RejectPlan, WorkerTake, WorkerObserve, WorkerPost;
    match step
    case DoSubmit(p, env) => StartExtends(cfg, s, p, env);
    case DoPump(env) =>
      if s.prompts != [] {
        StartExtends(cfg, s.(prompts := s.prompts[1..]), s.prompts[0], env);
      }
    case DoProcess(env) =>
      if s.events != [] {
        ProcessExtends(cfg, Popped(s), s.events[0], env);
      }
    case DoApprove(id, env) => ApproveExtends(cfg, s, id, env);
    case DoReject(id, env) => RejectExtends(cfg, s, id, env);
    case DoApprovePlan(id, env) => PlanDecisionsExtend(cfg, s, id, false, env);
    case DoRejectPlan(id, env) => PlanDecisionsExtend(cfg, s, id, false, env);
    case DoCancel =>
    case DoTake => WorkerExtends(s, Exhausted);
    case DoObserve(ev) => WorkerExtends(s, ev);
    case DoPost => WorkerExtends(s, Exhausted);
  }

  /**
   * Through any steps that a turn outlives, its conversation only grows and its start stays where it was; so it
   * does after the turn's end, until a cancellation or another turn.
   */
  lemma {:induction false} TurnOnlyGrows(cfg: Config, s: State, steps: seq<Step>)
    ensures s.counter <= Run(cfg, s, steps).counter
    ensures var r := Run(cfg, s, steps);
            s.turn == Some(s.counter) && r.turn == s.turn && ShapeInv(s) ==>
              r.start == s.start && s.conversation <= r.conversation
    ensures var r := Run(cfg, s, steps);
            r.counter == s.counter && r.start.Some? ==> r.start == s.start && s.conversation <= r.conversation
  {
    hide Next, ShapeInv;
    if steps != [] {
      var before := steps[..|steps| - 1];
      TurnOnlyGrows(cfg, s, before);
      NextExtends(cfg, Run(cfg, s, before), steps[|steps| - 1]);
    }
  }

  // ------------------------------------------------------------------------
  // What starting a prompt leaves
  // ------------------------------------------------------------------------

  /**
   * Compaction takes place when the pruned conversation, with the new prompt, is long and has more turns than
   * are kept, and nothing in it raises.
   */
  predicate Compacts(cfg: Config, ms: seq<Message>) {
    && Prune(ms, RETAINED_TURNS_COUNT, cfg.pruner).Some?
    && var pruned := Prune(ms, RETAINED_TURNS_COUNT, cfg.pruner).value.0;
       && ContextGuard.Chars(pruned) > COMPACTION_TRIGGER_CHARS && |PartitionOf(pruned).turns| > RETAINED_TURNS_COUNT
       && !CompactRaises(pruned, COMPACTION_TRIGGER_CHARS, RETAINED_TURNS_COUNT, cfg.pruner, cfg.summarizer)
  }

  function Front(ms: seq<Message>): seq<Message>
    requires ms != []
  {
    ms[..|ms| - 1]
  }

  /**
   * Without compaction every message stays in its place, at most stripped of old tool data and images; so it
   * does where the check raises.
   */
  lemma PrunedInPlace(cfg: Config, s: State)
    requires Whole(s.conversation) && s.pendingCall.None? && s.phase == IDLE && !Compacts(cfg, s.conversation)
    ensures AllAlike(s.conversation, CompactContext(cfg, s).conversation)
  {
    hide Prune, ContextGuard.Chars, PartitionOf, AllAlike, CompactRaises, PruneRaises, ValidSequence;
    AlikeSelf(s.conversation);
    PruneKeepsProtocol(s.conversation, RETAINED_TURNS_COUNT, cfg.pruner);
    var prune := Prune(s.conversation, RETAINED_TURNS_COUNT, cfg.pruner);
    if prune.Some? {
      PruneWellFormed(s.conversation, RETAINED_TURNS_COUNT, cfg.pruner);
      CompactKeepsMeaning(prune.value.0, COMPACTION_TRIGGER_CHARS, RETAINED_TURNS_COUNT, cfg.pruner, cfg.summarizer);
    }
  }

  /** Prompt p may be started at once in s, and no compaction takes place when it is. */
  predicate StartsPlainly(cfg: Config, s: State, p: Prompt) {
    && !Runtime.Busy(s) && ValidSequence(s.conversation)
    && !Compacts(cfg, s.conversation + [UserMessage(p.text, p.imageId)])
  }

  /** A prompt that starts without compaction finds the earlier messages in their places and its own index right. */
  lemma StartInPlace(cfg: Config, s: State, p: Prompt, env: Env)
    requires ProtocolInv(s)
    ensures var r := StartPrompt(cfg, s, p, env).state;
            StartsPlainly(cfg, s, p) ==>
              && r.turn == Some(r.counter) && r.start == Some(|s.conversation|)
              && |r.conversation| == |s.conversation| + 1
              && AllAlike(s.conversation, Front(r.conversation))
  {
    hide CompactContext, ValidSequence, Compacts, ShapeInv, Orderly, ContextRaises;
    if StartsPlainly(cfg, s, p) {
      StartPromptProtocol(cfg, s, p, env);
      QuietStart(s);
      PromptOne(s.conversation, p.text, p.imageId);
      var s1 := if s.phase == ERROR then s.(phase := IDLE) else s;
      var s3 := OpenTurn(s1, p);
      PrunedInPlace(cfg, s3);
      AlikeFront(s3.conversation, CompactContext(cfg, s3).conversation);
      assert Front(s3.conversation) == s.conversation;
    }
  }

  lemma AlikeFront(a: seq<Message>, b: seq<Message>)
    requires AllAlike(a, b) && a != []
    ensures AllAlike(Front(a), Front(b))
  {
  }

  lemma QuietStart(s: State)
    requires ShapeInv(s) && !Runtime.Busy(s)
    ensures s.pendingCall.None? && s.phase in {IDLE, ERROR}
  {
  }

  // ------------------------------------------------------------------------
  // Cancelling
  // ------------------------------------------------------------------------

  /** The turn of s is still active, or has ended uncancelled and its start is remembered; no other turn was started. */
  predicate Remembers(s: State, r: State) {
    r.turn == s.turn || (r.counter == s.counter && r.start.Some?)
  }

  /**
   * Cancelling a turn, at any point of its life or after its end, puts the conversation back to what the turn
   * found exactly when the remembered start is the position of its prompt.
   */
  lemma CancelRestoresIff(cfg: Config, s: State, steps: seq<Step>)
    requires ShapeInv(s) && s.turn == Some(s.counter) && s.start.Some? && s.conversation != []
    requires Remembers(s, Run(cfg, s, steps))
    ensures Cancel(Run(cfg, s, steps)).conversation == Front(s.conversation) <==> s.start.value == |s.conversation| - 1
  {
    hide Run, ShapeInv;
    TurnOnlyGrows(cfg, s, steps);
    var r := Run(cfg, s, steps);
    var n := |s.conversation| - 1;
    assert r.conversation[..n] == s.conversation[..n];
  }

  /**
   * If no compaction took place when a prompt was started, cancelling its turn, active or ended, restores the
   * conversation as it was before, pruned, and the next prompt starts from a valid conversation.
   */
  lemma CancelRestores(cfg: Config, s: State, p: Prompt, env: Env, steps: seq<Step>)
    requires ProtocolInv(s)
    ensures var started := StartPrompt(cfg, s, p, env).state;
            var last := Run(cfg, started, steps);
            StartsPlainly(cfg, s, p) && Remembers(started, last) ==>
              AllAlike(s.conversation, Cancel(last).conversation) && ValidSequence(Cancel(last).conversation)
  {
    hide Run, StartPrompt, ShapeInv, ValidSequence, AllWellFormed, AllAlike, Compacts;
    var started := StartPrompt(cfg, s, p, env).state;
    var last := Run(cfg, started, steps);
    if StartsPlainly(cfg, s, p) && Remembers(started, last) {
      StartInPlace(cfg, s, p, env);
      StartPromptProtocol(cfg, s, p, env);
      CancelRestoresIff(cfg, started, steps);
      AlikeValid(s.conversation, Cancel(last).conversation);
    }
  }

  /**
   * In every run whose responses asked for one call each: a prompt that starts, submitted or from the queue, with
   * no compaction taking place, may be cancelled at any later point of its turn, whatever calls, approvals,
   * exceptions and stray events were in flight, or after its end, and the messages from before it are back,
   * pruned and valid.
   */
  lemma CancelInEveryRun(cfg: Config, before: seq<Step>, step: Step, during: seq<Step>)
    requires OneCallSteps(before)
    ensures var s := Run(cfg, Initial, before);
            var started := Next(cfg, s, step);
            var last := Run(cfg, started, during);
            RuntimeConsent.Starts(s, step) && StartsPlainly(cfg, s, RuntimeConsent.Given(s, step))
              && Remembers(started, last) ==>
              var r := Next(cfg, last, DoCancel);
              AllAlike(s.conversation, r.conversation) && ValidSequence(r.conversation)
  {
    hide Run, StartPrompt, ProtocolInv, ValidSequence, AllAlike, Compacts, Cancel;
    InitialProtocol();
    RunProtocol(cfg, Initial, before);
    var s := Run(cfg, Initial, before);
    if RuntimeConsent.Starts(s, step) {
      if step.DoSubmit? {
        CancelRestores(cfg, s, step.prompt, step.env, during);
      } else {
        PumpedProtocol(s);
        CancelRestores(cfg, s.(prompts := s.prompts[1..]), s.prompts[0], step.env, during);
      }
    }
  }

  lemma PumpedProtocol(s: State)
    requires ProtocolInv(s) && s.prompts != []
    ensures ProtocolInv(s.(prompts := s.prompts[1..]))
  {
    hide ShapeInv, ValidSequence, Scan, Orderly, AnswerId;
    PumpedShape(s);
  }

  lemma AlikeValid(a: seq<Message>, b: seq<Message>)
    requires AllAlike(a, b) && ValidSequence(a)
    ensures ValidSequence(b)
  {
    AlikeScan({}, a, b);
  }

  // ------------------------------------------------------------------------
  // Where cancelling goes wrong
  // ------------------------------------------------------------------------

  /**
   * Where compaction did go off, the remembered start is the old length, and the new conversation may well
   * be shorter: it counts two messages for the summary however many it replaces.
   */
  lemma CompactionMovesStart(cfg: Config, s: State, p: Prompt, env: Env)
    requires ProtocolInv(s) && !Runtime.Busy(s) && ValidSequence(s.conversation)
    requires Compacts(cfg, s.conversation + [UserMessage(p.text, p.imageId)])
    ensures var r := StartPrompt(cfg, s, p, env).state;
            var parts := PartitionOf(s.conversation + [UserMessage(p.text, p.imageId)]);
            && r.turn == Some(r.counter) && r.start == Some(|s.conversation|)
            && |r.conversation| == |s.conversation| + 1 + 2
                 - |parts.summary| - |Flatten(Older(parts.turns, RETAINED_TURNS_COUNT))|
  {
    hide CompactContext, ValidSequence, Compacts, ShapeInv, AllWellFormed, PartitionOf, Older;
    StartPromptProtocol(cfg, s, p, env);
    QuietStart(s);
    PromptOne(s.conversation, p.text, p.imageId);
    var s1 := if s.phase == ERROR then s.(phase := IDLE) else s;
    var s3 := OpenTurn(s1, p);
    CompactedLength(cfg, s3);
  }

  lemma CompactedLength(cfg: Config, s: State)
    requires Whole(s.conversation) && s.pendingCall.None? && s.phase == IDLE && Compacts(cfg, s.conversation)
    ensures CompactContext(cfg, s).Compacted?
    ensures var parts := PartitionOf(s.conversation);
            |CompactContext(cfg, s).conversation| == |s.conversation| + 2
              - |parts.summary| - |Flatten(Older(parts.turns, RETAINED_TURNS_COUNT))|
  {
    hide Prune, Compact, ContextGuard.Chars, PartitionOf, AllAlike, Older, Kept;
    var ms := s.conversation;
    PruneKeepsProtocol(ms, RETAINED_TURNS_COUNT, cfg.pruner);
    PruneWellFormed(ms, RETAINED_TURNS_COUNT, cfg.pruner);
    var pruned := Prune(ms, RETAINED_TURNS_COUNT, cfg.pruner).value.0;
    CompactKeepsMeaning(pruned, COMPACTION_TRIGGER_CHARS, RETAINED_TURNS_COUNT, cfg.pruner, cfg.summarizer);
    var r := Compact(pruned, COMPACTION_TRIGGER_CHARS, RETAINED_TURNS_COUNT, cfg.pruner, cfg.summarizer).value.0;
    PartitionLength(ms);
    PartitionLength(r);
    TwoAreKept(PartitionOf(ms).turns, PartitionOf(r).turns);
  }

  lemma PartitionLength(ms: seq<Message>)
    ensures var p := PartitionOf(ms);
            |ms| == |SystemSeq(p.system)| + |p.summary| + |Flatten(Older(p.turns, RETAINED_TURNS_COUNT))|
                    + |Flatten(Kept(p.turns, RETAINED_TURNS_COUNT))|
  {
    hide PartitionOf;
    PartitionRoundTrip(ms);
    var p := PartitionOf(ms);
    OlderAndKept(p.turns, RETAINED_TURNS_COUNT);
    FlattenConcat(Older(p.turns, RETAINED_TURNS_COUNT), Kept(p.turns, RETAINED_TURNS_COUNT));
  }

  lemma TwoAreKept(before: seq<seq<Message>>, after: seq<seq<Message>>)
    requires |before| > RETAINED_TURNS_COUNT && after == Kept(before, RETAINED_TURNS_COUNT)
    ensures Kept(after, RETAINED_TURNS_COUNT) == Kept(before, RETAINED_TURNS_COUNT)
    ensures Flatten(Older(after, RETAINED_TURNS_COUNT)) == []
  {
  }

  /** How many old messages a compaction of `ms` replaces by the two of its summary. */
  function Replaced(ms: seq<Message>): nat {
    var parts := PartitionOf(ms);
    |parts.summary| + |Flatten(Older(parts.turns, RETAINED_TURNS_COUNT))|
  }

  /**
   * So, after a compaction, cancelling at any point of the turn puts back what the turn found exactly if the
   * compaction replaced two messages, no more and no fewer.
   */
  lemma CancelAfterCompactionIff(cfg: Config, s: State, p: Prompt, env: Env, steps: seq<Step>)
    requires ProtocolInv(s)
    ensures var ms := s.conversation + [UserMessage(p.text, p.imageId)];
            var started := StartPrompt(cfg, s, p, env).state;
            var last := Run(cfg, started, steps);
            StartsCompacting(cfg, s, p) && Remembers(started, last) ==>
              && started.conversation != []
              && (Cancel(last).conversation == Front(started.conversation) <==> Replaced(ms) == 2)
  {
    hide Run, StartPrompt, ShapeInv, ValidSequence, Compacts, PartitionOf, Older;
    var started := StartPrompt(cfg, s, p, env).state;
    if StartsCompacting(cfg, s, p) && Remembers(started, Run(cfg, started, steps)) {
      CompactionMovesStart(cfg, s, p, env);
      StartPromptProtocol(cfg, s, p, env);
      StartedHasPrompt(cfg, s, p, env);
      CancelRestoresIff(cfg, started, steps);
    }
  }

  /** Prompt p may be started at once in s, and a compaction takes place when it is. */
  predicate StartsCompacting(cfg: Config, s: State, p: Prompt) {
    !Runtime.Busy(s) && ValidSequence(s.conversation)
      && Compacts(cfg, s.conversation + [UserMessage(p.text, p.imageId)])
  }

  lemma StartedHasPrompt(cfg: Config, s: State, p: Prompt, env: Env)
    requires ProtocolInv(s) && StartsCompacting(cfg, s, p)
    ensures StartPrompt(cfg, s, p, env).state.conversation != []
  {
    hide CompactContext, ValidSequence, Compacts, ShapeInv, Orderly, Compact;
    QuietStart(s);
    PromptOne(s.conversation, p.text, p.imageId);
    var s1 := if s.phase == ERROR then s.(phase := IDLE) else s;
    var s3 := OpenTurn(s1, p);
    CompactedKeepsSome(cfg, s3);
  }

  lemma CompactedKeepsSome(cfg: Config, s: State)
    requires Whole(s.conversation) && s.pendingCall.None? && s.phase == IDLE && Compacts(cfg, s.conversation)
    ensures CompactContext(cfg, s).Compacted? && CompactContext(cfg, s).conversation != []
  {
    hide Prune, Compact, ContextGuard.Chars, PartitionOf, AllAlike, Older, Turns.Kept, CompactRaises, PruneRaises;
    CompactedLength(cfg, s);
    PartitionLength(s.conversation);
  }

  /** A session that no prompt can be started in any more. */
  predicate Stuck(s: State) {
    s.phase in {IDLE, ERROR} && s.turn.None? && s.start.None? && !ValidSequence(s.conversation)
  }

  /**
   * Nothing the user, the provider or the timer does leads out of a stuck session, and every prompt is refused
   * or lost.
   */
  lemma StuckForGood(cfg: Config, s: State, step: Step)
    requires ShapeInv(s) && Stuck(s)
    ensures Stuck(Next(cfg, s, step)) && Next(cfg, s, step).conversation == s.conversation
    ensures step.DoSubmit? ==> Attempt(cfg, s, step).Raised?
  {
    hide ValidSequence, CompactContext, Awaiting, Live, FinishTurn, TakeRequest;
  }

  /**
   * A cancellation while a decision is awaited, with a start at or beyond the end, leaves the call unanswered
   * for good.
   */
  lemma StaleCancelGetsStuck(s: State)
    requires ProtocolInv(s) && s.phase == PENDING_APPROVAL && s.start.Some? && s.start.value >= |s.conversation|
    ensures Stuck(Cancel(s)) && Cancel(s).conversation == s.conversation
  {
    hide Scan, Awaiting, Live, AnswerId, AllWellFormed;
    assert s.conversation[..|s.conversation|] == s.conversation;
    assert PendingId(s).value in {PendingId(s).value};
  }

  /**
   * So a session gets stuck whenever a compaction replaced four or more messages, as every compaction after
   * the first does, and the user cancels instead of deciding on the turn's first call.
   */
  lemma CancelAfterCompactionSticks(cfg: Config, s: State, p: Prompt, env: Env, steps: seq<Step>)
    requires ProtocolInv(s) && OneCallSteps(steps)
    ensures var started := StartPrompt(cfg, s, p, env).state;
            var last := Run(cfg, started, steps);
            StartsWithLoss(cfg, s, p) && FirstDecision(started, last) ==> Stuck(Cancel(last))
  {
    hide Run, StartPrompt, ShapeInv, ValidSequence, Compacts, Stuck, Consistent, PartitionOf, Older;
    var started := StartPrompt(cfg, s, p, env).state;
    var last := Run(cfg, started, steps);
    if StartsWithLoss(cfg, s, p) && FirstDecision(started, last) {
      StartPromptProtocol(cfg, s, p, env);
      CompactionMovesStart(cfg, s, p, env);
      TurnOnlyGrows(cfg, started, steps);
      RunProtocol(cfg, started, steps);
      StaleCancelGetsStuck(last);
    }
  }

  /** Prompt p may be started at once in s, and a compaction that replaces four or more messages goes off. */
  predicate StartsWithLoss(cfg: Config, s: State, p: Prompt) {
    var ms := s.conversation + [UserMessage(p.text, p.imageId)];
    && !Runtime.Busy(s) && ValidSequence(s.conversation) && Compacts(cfg, ms)
    && |PartitionOf(ms).summary| + |Flatten(Older(PartitionOf(ms).turns, RETAINED_TURNS_COUNT))| >= 4
  }

  /** The first response of the turn asks for a decision, which is awaited. */
  predicate FirstDecision(started: State, s: State) {
    s.turn == started.turn && s.phase == PENDING_APPROVAL && |s.conversation| == |started.conversation| + 1
  }

  // ------------------------------------------------------------------------
  // Exactly when cancelling leaves a session stuck
  // ------------------------------------------------------------------------

  /** What a cancellation leaves of the conversation. */
  function Remainder(s: State): seq<Message> {
    if s.start.Some? && s.start.value <= |s.conversation| then s.conversation[..s.start.value] else s.conversation
  }

  /** The last message that a cancellation leaves is a request: its calls will never be answered. */
  predicate CutsExchange(s: State) {
    Remainder(s) != [] && AsksTools(Remainder(s)[|Remainder(s)| - 1])
  }

  /** With one call per message, a beginning of a conversation is valid exactly if it does not end in a request. */
  lemma {:induction false} PrefixScan(ms: seq<Message>, n: nat)
    requires Orderly(ms) && Scan({}, ms).Some? && n <= |ms|
    ensures Scan({}, ms[..n]) == Some(if n > 0 then CallIds(ms[n - 1].toolCalls) else {})
  {
    if n > 0 {
      PrefixScan(ms, n - 1);
      assert ms[..n] == ms[..n - 1] + [ms[n - 1]];
      ScanAppend({}, ms[..n - 1], ms[n - 1]);
      assert ms == ms[..n] + ms[n..];
      ScanConcat({}, ms[..n], ms[n..]);
      assert ms[n - 1] in ms;
      AdvanceOne(if n > 1 then CallIds(ms[n - 2].toolCalls) else {}, ms[n - 1]);
      if n > 1 {
        assert ms[n - 2] in ms;
        FewIds(ms[n - 2].toolCalls);
      }
    }
  }

  lemma FewIds(calls: seq<ToolCall>)
    requires |calls| <= 1
    ensures forall a, b :: a in CallIds(calls) && b in CallIds(calls) ==> a == b
    ensures CallIds(calls) == {} <==> calls == []
  {
    if calls != [] {
      assert calls[0].callId in CallIds(calls);
    }
  }

  lemma AdvanceOne(pending: set<string>, m: Message)
    requires m.WellFormed()
    ensures (forall a, b :: a in pending && b in pending ==> a == b) && Advance(pending, m).Some? ==>
              Advance(pending, m) == Some(CallIds(m.toolCalls))
  {
    assert CallIds([]) == {};
    if (forall a, b :: a in pending && b in pending ==> a == b) && m.role == TOOL && Advance(pending, m).Some? {
      assert pending - {m.toolCallId.value} == {};
    }
  }

  lemma RememberedScans(s: State)
    requires ProtocolInv(s) && (s.turn.Some? || s.start.Some?)
    ensures Orderly(s.conversation) && Scan({}, s.conversation).Some?
  {
    hide Scan, Orderly, Awaiting, Live, AnswerId;
  }

  /**
   * Cancelling an active turn, or one that has ended and whose start is remembered, leaves a session that no
   * prompt can be started in exactly if it cuts the conversation behind a request.
   */
  lemma CancelSticksIff(s: State)
    requires ProtocolInv(s) && (s.turn.Some? || s.start.Some?)
    ensures Stuck(Cancel(s)) <==> CutsExchange(s)
  {
    hide Scan, ProtocolInv, ShapeInv, Orderly;
    ProtocolShape(s);
    RememberedScans(s);
    var ms, n := s.conversation, |Remainder(s)|;
    assert ms[..|ms|] == ms;
    assert Remainder(s) == ms[..n];
    PrefixScan(ms, n);
    CancelOutcome(s);
    if n > 0 {
      LastAsks(ms, n);
    }
  }

  lemma ProtocolShape(s: State)
    requires ProtocolInv(s)
    ensures ShapeInv(s)
  {
  }

  lemma LastAsks(ms: seq<Message>, n: nat)
    requires Orderly(ms) && 0 < n <= |ms|
    ensures CallIds(ms[n - 1].toolCalls) == {} <==> !AsksTools(ms[n - 1])
  {
    assert ms[n - 1] in ms && ms[n - 1].WellFormed();
    FewIds(ms[n - 1].toolCalls);
  }

  lemma CancelOutcome(s: State)
    requires ShapeInv(s)
    ensures var r := Cancel(s);
            r.phase in {IDLE, ERROR} && r.turn.None? && r.start.None? && r.conversation == Remainder(s)
    ensures s.turn.None? ==> Cancel(s).phase == s.phase
  {
    hide Live, Awaiting, EventsUpTo, TurnsUpTo, LogUpTo, IdsBelow, WorkerOk, Mishaps;
  }

  lemma CancelSticksInEveryRun(cfg: Config, steps: seq<Step>)
    requires OneCallSteps(steps)
    ensures var s := Run(cfg, Initial, steps);
            s.turn.Some? || s.start.Some? ==> (Stuck(Next(cfg, s, DoCancel)) <==> CutsExchange(s))
  {
    hide Run, ProtocolInv, Cancel, Stuck, CutsExchange;
    InitialProtocol();
    RunProtocol(cfg, Initial, steps);
    if Run(cfg, Initial, steps).turn.Some? || Run(cfg, Initial, steps).start.Some? {
      CancelSticksIff(Run(cfg, Initial, steps));
    }
  }

  /** What is left of a conversation that was `before` when a turn was under way and is `after` once it ended. */
  function LeftByIdleCancel(start: nat, before: seq<Message>, after: seq<Message>): seq<Message> {
    if start <= |before| then before[..start] else if start <= |after| then after[..start] else after
  }

  /**
   * Cancelling while no turn is active, but the start of the last one is remembered, whichever way that turn
   * ended, takes away what it left behind that start, its final answer included; it changes nothing else and
   * leaves no trace.
   */
  lemma IdleCancelKeeps(cfg: Config, s: State, steps: seq<Step>)
    requires ShapeInv(s) && s.turn == Some(s.counter) && s.start.Some?
    ensures var r := Run(cfg, s, steps);
            r.turn.None? && r.counter == s.counter && r.start.Some? ==>
              Next(cfg, r, DoCancel) ==
                r.(conversation := LeftByIdleCancel(s.start.value, s.conversation, r.conversation),
                                           start := None, repairs := 0)
  {
    hide Run, ShapeInv, Awaiting, Live;
    TurnOnlyGrows(cfg, s, steps);
    RunShape(cfg, s, steps);
    var r := Run(cfg, s, steps);
    if r.turn.None? {
      PhasesOf(r);
      if r.start.Some? && s.start.value <= |s.conversation| && r.counter == s.counter {
        assert r.conversation[..s.start.value] == s.conversation[..s.start.value];
      }
    }
  }

  /** So cancelling while idle removes the messages of a turn that completed with a final answer. */
  lemma IdleCancelErasesLastTurn(cfg: Config, s: State, steps: seq<Step>, env: Env)
    requires ShapeInv(s) && s.turn == Some(s.counter) && s.start == Some(|s.conversation| - 1) && s.conversation != []
    requires var r := Run(cfg, s, steps);
             && r.turn == s.turn && r.events != [] && r.events[0].Response? && r.events[0].turn == s.counter
             && r.events[0].calls == []
    ensures var finished := Next(cfg, Run(cfg, s, steps), DoProcess(env));
            && finished.turn.None? && finished.phase == IDLE
            && |finished.conversation| > |s.conversation| && s.conversation <= finished.conversation
            && Cancel(finished).conversation == Front(s.conversation)
  {
    hide Run, ShapeInv, Next, FinalText, TextOrNone;
    TurnOnlyGrows(cfg, s, steps);
    RunShape(cfg, s, steps);
    var r := Run(cfg, s, steps);
    NewestIsActive(s, r, cfg, steps);
    FinalTextOf(cfg, r, env);
    FinishKeepsStart(cfg, r, env);
  }

  lemma NewestIsActive(s: State, r: State, cfg: Config, steps: seq<Step>)
    requires ShapeInv(r) && r.turn == s.turn && s.turn == Some(s.counter)
    ensures r.counter == s.counter
  {
  }

  lemma FinishKeepsStart(cfg: Config, s: State, env: Env)
    requires ShapeInv(s) && s.turn.Some? && s.events != []
    requires s.events[0].Response? && s.events[0].turn == s.turn.value && s.events[0].calls == []
    ensures Next(cfg, s, DoProcess(env)).start == s.start
  {
  }

  lemma InitialProtocol()
    ensures ProtocolInv(Initial)
  {
    InitialShape();
  }
}
