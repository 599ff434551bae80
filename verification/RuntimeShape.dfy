/** The inductive invariant of the turn protocol: phases, pending approvals, and the stream of the active turn. */
module RuntimeShape {
  import opened PyText
  import opened Chat
  import opened StateMachine
  import opened RuntimeLog
  import opened Runtime
  import PlanModel
  import PlanReview
  import PlanValidator

  // ------------------------------------------------------------------------
  // The stream of a turn
  // ------------------------------------------------------------------------

  predicate Streamed(e: Event, t: nat) {
    e.turn == t && !e.Info?
  }

  predicate Terminal(e: Event) {
    e.Response? || e.AgentError?
  }

  /** The events of turn t that the worker produced and the main thread has not seen, oldest first. */
  function Live(events: seq<Event>, t: nat): seq<Event> {
    if events == [] then []
    else
      Live(events[..|events| - 1], t) +
      if Streamed(events[|events| - 1], t) then [events[|events| - 1]] else []
  }

  /** As `Live`, with the event that the worker is about to put into the queue. */
  function Pipe(events: seq<Event>, worker: Worker, t: nat): seq<Event> {
    Live(events, t) + if worker.Posting? && Streamed(worker.event, t) then [worker.event] else []
  }

  predicate AllDeltas(es: seq<Event>) {
    forall i :: 0 <= i < |es| ==> es[i].Delta?
  }

  function TextOf(es: seq<Event>): string {
    if es == [] then "" else TextOf(es[..|es| - 1]) + if es[|es| - 1].Delta? then es[|es| - 1].delta else ""
  }

  lemma LiveAppend(events: seq<Event>, e: Event, t: nat)
    ensures Live(events + [e], t) == Live(events, t) + if Streamed(e, t) then [e] else []
  {
    assert (events + [e])[..|events + [e]| - 1] == events;
  }

  lemma {:induction false} LiveTail(events: seq<Event>, t: nat)
    requires events != []
    ensures Live(events, t) == (if Streamed(events[0], t) then [events[0]] else []) + Live(events[1..], t)
  {
    hide Streamed;
    var n := |events| - 1;
    if n == 0 {
      assert events[1..] == [] && events[..n] == [];
    } else {
      hide Live;
      var front, e := events[..n], events[n];
      LiveTail(front, t);
      LiveAppend(front, e, t);
      LiveAppend(front[1..], e, t);
      assert front + [e] == events && front[1..] + [e] == events[1..];
    }
  }

  lemma {:induction false} LiveNone(events: seq<Event>, t: nat)
    requires forall e <- events :: e.turn != t
    ensures Live(events, t) == []
  {
    if events != [] {
      LiveNone(events[..|events| - 1], t);
    }
  }

  lemma TextAppend(es: seq<Event>, e: Event)
    ensures TextOf(es + [e]) == TextOf(es) + if e.Delta? then e.delta else ""
  {
    assert (es + [e])[..|es + [e]| - 1] == es;
  }

  lemma {:induction false} TextTail(es: seq<Event>)
    requires es != []
    ensures TextOf(es) == (if es[0].Delta? then es[0].delta else "") + TextOf(es[1..])
  {
    var n := |es| - 1;
    if n == 0 {
      assert es[..0] == [] && es[1..] == [];
    } else {
      var front, e := es[..n], es[n];
      assert es == front + [e] && es[1..] == front[1..] + [e];
      TextTail(front);
      TextAppend(front, e);
      TextAppend(front[1..], e);
    }
  }

  /** The worker is in the middle of a task of turn t. */
  predicate Busy(worker: Worker, t: nat) {
    !worker.Resting? && worker.turn == t
  }

  /** A response that repeats the text its task streamed. */
  predicate Faithful(e: Event, text: string) {
    e.Response? ==> e.text == TextOrNone(text)
  }

  /** How far the step of the provider that turn t waits for has come. */
  datatype Stage = Queued | Streaming(text: string) | Answered(deltas: seq<Event>, answer: Event) | Lost

  predicate AtStage(stage: Stage, streaming: string, pipe: seq<Event>, tasks: seq<nat>, worker: Worker, log: Log,
                    t: nat)
  {
    match stage
    case Queued =>
      && multiset(tasks)[t] == 1 && !Busy(worker, t) && WentSilent(t) !in log
      && pipe == [] && streaming == ""
    case Streaming(text) =>
      && t !in tasks && Busy(worker, t) && worker.text == text && WentSilent(t) !in log
      && AllDeltas(pipe) && streaming + TextOf(pipe) == text
    case Answered(deltas, answer) =>
      && t !in tasks && !(worker.Working? && worker.turn == t) && WentSilent(t) !in log
      && (Busy(worker, t) ==> worker.last && worker.text == streaming + TextOf(deltas))
      && pipe == deltas + [answer] && AllDeltas(deltas)
      && Terminal(answer) && Faithful(answer, streaming + TextOf(deltas))
    case Lost =>
      t !in tasks && !Busy(worker, t) && AllDeltas(pipe) && WentSilent(t) in log
  }

  ghost predicate Awaiting(streaming: string, pipe: seq<Event>, tasks: seq<nat>, worker: Worker, log: Log, t: nat) {
    exists stage :: AtStage(stage, streaming, pipe, tasks, worker, log, t)
  }

  predicate NothingInFlight(s: State, t: nat) {
    && t !in s.tasks && !Busy(s.worker, t) && Live(s.events, t) == [] && s.streaming == ""
    && WentSilent(t) !in s.log
  }

  // ------------------------------------------------------------------------
  // The invariant
  // ------------------------------------------------------------------------

  predicate EventsUpTo(events: seq<Event>, n: nat) {
    forall e <- events :: e.turn <= n
  }

  predicate TurnsUpTo(turns: seq<nat>, n: nat) {
    forall t <- turns :: t <= n
  }

  predicate LogUpTo(log: Log, n: nat) {
    forall e <- log :: e.turn <= n
  }

  predicate IdsBelow(ids: set<nat>, n: nat) {
    forall id <- ids :: id < n
  }

  predicate WorkerOk(worker: Worker, n: nat) {
    && (worker.Resting? || worker.turn <= n)
    && (worker.Posting? ==>
          worker.event.turn == worker.turn && !worker.event.Info? && (worker.last <==> Terminal(worker.event)))
  }

  /** Every number in use was given out before; the active turn is the newest and not cancelled. */
  predicate Numbered(s: State) {
    && EventsUpTo(s.events, s.counter)
    && TurnsUpTo(s.tasks, s.counter)
    && WorkerOk(s.worker, s.counter)
    && LogUpTo(s.log, s.counter)
    && IdsBelow(s.cancelled, s.counter + 1)
    && IdsBelow(s.consumed, s.nextApproval)
    && (s.turn.Some? ==> s.turn.value == s.counter && s.counter !in s.cancelled)
  }

  predicate Quiet(s: State) {
    s.pendingCall.None? && s.pendingPlan.None?
  }

  predicate RaisedIn(log: Log, t: nat) {
    exists e <- log :: e.CallRaised? && e.turn == t
  }

  predicate UndescribedIn(log: Log, t: nat) {
    exists e <- log :: e.CallUndescribed? && e.turn == t
  }

  /**
   * Exactly these mishaps of turn t are on record: an image not found, a start broken off, a tool that raised, a
   * call that could not be described.
   */
  predicate Mishaps(log: Log, t: nat, missed: bool, broke: bool, raised: bool, undescribed: bool) {
    && (MissedImage(t) in log <==> missed)
    && (BrokeOff(t) in log <==> broke)
    && (RaisedIn(log, t) <==> raised)
    && (UndescribedIn(log, t) <==> undescribed)
  }

  predicate Unharmed(log: Log, t: nat) {
    Mishaps(log, t, false, false, false, false)
  }

  /** A turn is active and nobody works for it: its prompt named a missing image. */
  predicate Wedged(s: State) {
    s.phase == ERROR && s.turn.Some?
  }

  /** A turn is active and nobody works for it: the context check raised while it was being started. */
  predicate Jammed(s: State) {
    s.phase == IDLE && s.turn.Some?
  }

  /** A turn is active and nobody works for it: a tool raised. */
  predicate Stranded(s: State) {
    s.phase == EXECUTING_TOOL && s.turn.Some?
  }

  /** A turn is active and nobody works for it: a call of it that needs approval could not be described. */
  predicate Undescribed(s: State) {
    s.phase == PROCESSING && s.turn.Some? && UndescribedIn(s.log, s.turn.value)
  }

  ghost predicate PhaseInv(s: State) {
    match s.phase
    case IDLE =>
      Quiet(s) && (s.turn.Some? ==>
                     NothingInFlight(s, s.counter) && Mishaps(s.log, s.counter, false, true, false, false))
    case ERROR =>
      && Quiet(s)
      && (s.turn.Some? ==>
            && Mishaps(s.log, s.counter, true, false, false, false)
            && s.counter !in s.tasks && !Busy(s.worker, s.counter) && s.streaming == ""
            && Live(s.events, s.counter) <= [AgentError(s.counter, IMAGE_NOT_FOUND)])
    case PROCESSING =>
      && s.turn.Some? && Quiet(s)
      && (if UndescribedIn(s.log, s.counter)
          then NothingInFlight(s, s.counter) && Mishaps(s.log, s.counter, false, false, false, true)
          else
            && Unharmed(s.log, s.counter)
            && Awaiting(s.streaming, Pipe(s.events, s.worker, s.counter), s.tasks, s.worker, s.log, s.counter))
    case PENDING_APPROVAL =>
      && s.turn.Some? && NothingInFlight(s, s.counter) && Unharmed(s.log, s.counter)
      && (s.pendingCall.Some? <==> s.pendingPlan.None?)
      && (s.pendingCall.Some? ==> s.pendingCall.value.turn == s.counter)
      && (s.pendingPlan.Some? ==>
            && s.pendingPlan.value.turn == s.counter && s.pendingPlan.value.id !in s.consumed
            && s.pendingPlan.value.id < s.nextApproval)
    case EXECUTING_TOOL =>
      && s.turn.Some? && Quiet(s) && NothingInFlight(s, s.counter)
      && Mishaps(s.log, s.counter, false, false, true, false)
  }

  ghost predicate ShapeInv(s: State) {
    Numbered(s) && PhaseInv(s)
  }

  /** A call that returned, with the invariant kept and no turn left where a call failed. */
  ghost predicate Landed(o: Outcome) {
    o.Done? && ShapeInv(o.state) && o.state.phase != EXECUTING_TOOL && !Undescribed(o.state)
  }

  /** A call that returned, or was left by the exception of a tool or of a description, which halts the turn. */
  ghost predicate Served(o: Outcome) {
    || Landed(o)
    || (o.Raised? && o.fault == ToolException && ShapeInv(o.state) && Stranded(o.state))
    || (o.Raised? && o.fault == DescriptionFailed && ShapeInv(o.state) && Undescribed(o.state))
  }

  /** A call keeps the invariant; exactly the exception of a tool, or of a description, halts a turn where it is. */
  ghost predicate Preserved(s: State, o: Outcome) {
    && ShapeInv(o.state)
    && (o.Raised? && o.fault == ToolException <==> Stranded(o.state) && !Stranded(s))
    && (o.Raised? && o.fault == DescriptionFailed <==> Undescribed(o.state) && !Undescribed(s))
  }

  /** In the middle of a main-thread call that serves turn t. */
  predicate Serving(s: State, t: nat) {
    && Numbered(s) && s.turn == Some(t) && Quiet(s) && NothingInFlight(s, t) && Unharmed(s.log, t)
    && s.phase in {PROCESSING, EXECUTING_TOOL, PENDING_APPROVAL}
  }

  // ------------------------------------------------------------------------
  // Small steps
  // ------------------------------------------------------------------------

  lemma InitialShape()
    ensures ShapeInv(Initial)
  {
  }

  /** Putting a notice into the queue disturbs no stream. */
  lemma InfoShape(s: State, t: nat, n: Notice)
    requires t <= s.counter
    ensures Live(Post(s, Info(t, n)).events, t) == Live(s.events, t)
    ensures Numbered(s) ==> Numbered(Post(s, Info(t, n)))
  {
    LiveAppend(s.events, Info(t, n), t);
  }

  lemma FailShape(s: State, t: nat, kind: ErrorKind)
    requires Numbered(s) && s.turn == Some(t) && Quiet(s) && s.phase in {PROCESSING, EXECUTING_TOOL, PENDING_APPROVAL}
    ensures Landed(Fail(s, t, kind))
    ensures Fail(s, t, kind).state.phase == ERROR && Fail(s, t, kind).state.turn.None?
  {
  }

  lemma CloseShape(s: State, t: nat)
    requires Serving(s.(streaming := ""), t)
    ensures ShapeInv(Close(s.(phase := ERROR), t))
  {
  }

  lemma SubmitTaskShape(s: State, t: nat)
    requires Serving(s, t) && s.phase == PROCESSING
    ensures ShapeInv(SubmitTask(s, t)) && !Undescribed(SubmitTask(s, t))
  {
    var r := SubmitTask(s, t);
    assert multiset(r.tasks) == multiset(s.tasks) + multiset{t};
    assert AtStage(Queued, r.streaming, Pipe(r.events, r.worker, t), r.tasks, r.worker, r.log, t);
  }

  lemma DelegateShape(s: State, t: nat, env: Env)
    requires Serving(s, t) && s.phase == PROCESSING
    ensures Landed(Delegate(s, t, env))
  {
    if env.imagesFound {
      SubmitTaskShape(s, t);
    } else {
      FailShape(s, t, IMAGE_NOT_FOUND);
    }
  }

  lemma StrandShape(s: State, t: nat, call: ToolCall, id: Option<nat>, kept: Option<bool>)
    requires Serving(s, t) && s.phase == EXECUTING_TOOL
    ensures ShapeInv(Strand(s, t, call, id, kept)) && Stranded(Strand(s, t, call, id, kept))
  {
    hide EventsUpTo, TurnsUpTo, IdsBelow, WorkerOk, Live;
    var d, e := CallDispatched(t, id, call), CallRaised(t, call);
    assert Strand(s, t, call, id, kept).log == s.log + [d] + [e];
    assert e in s.log + [d] + [e];
  }

  lemma RecordToolShape(cfg: Config, s: State, t: nat, call: ToolCall, id: Option<nat>, reply: ToolReply)
    requires Serving(s, t) && !reply.Raises?
    ensures Serving(RecordTool(cfg, s, t, call, id, reply), t)
    ensures RecordTool(cfg, s, t, call, id, reply).phase == s.phase
  {
    hide EventsUpTo, TurnsUpTo, IdsBelow, WorkerOk, Live, LogUpTo, Mishaps;
    InfoShape(s, t, TOOL_RESULT_READY);
    HarmlessShape(s.log, [CallDispatched(t, id, call)], t, s.counter);
  }

  lemma UndescribedShape(s: State, t: nat, call: ToolCall)
    requires Serving(s, t) && s.phase == PROCESSING
    ensures ShapeInv(Note(s, CallUndescribed(t, call))) && Undescribed(Note(s, CallUndescribed(t, call)))
  {
    var e := CallUndescribed(t, call);
    assert e in s.log + [e];
  }

  lemma HoldCallShape(cfg: Config, s: State, t: nat, call: ToolCall)
    requires Serving(s, t) && s.phase == PROCESSING
    ensures Served(HoldCall(cfg, s, t, call))
    ensures Describable(cfg.rules, call) ==> Landed(HoldCall(cfg, s, t, call))
  {
    hide EventsUpTo, TurnsUpTo, WorkerOk, Live, LogUpTo, Mishaps, Describable;
    if !Describable(cfg.rules, call) {
      UndescribedShape(s, t, call);
      return;
    }
    FreshBelow(s.consumed, s.nextApproval);
    InfoShape(s, t, APPROVAL_REQUIRED);
    HarmlessShape(s.log, [CallRequested(t, s.nextApproval, call)], t, s.counter);
  }

  lemma RefusePlanShape(cfg: Config, s: State, t: nat, call: ToolCall, kind: ErrorKind)
    requires Serving(s, t)
    ensures Landed(RefusePlan(cfg, s, t, call, kind))
  {
  }

  // ------------------------------------------------------------------------
  // Plans
  // ------------------------------------------------------------------------

  /** A plan review is open and may be decided. */
  predicate PlanHeld(s: State, t: nat, id: nat) {
    && Numbered(s) && s.turn == Some(t) && s.phase == PENDING_APPROVAL && NothingInFlight(s, t) && Unharmed(s.log, t)
    && s.pendingCall.None?
    && s.pendingPlan.Some? && s.pendingPlan.value.id == id && s.pendingPlan.value.turn == t
    && id !in s.consumed && id < s.nextApproval
  }

  lemma AnswerPlanShape(s: State, p: PendingPlan, content: string, result: ToolResult)
    requires Serving(s, p.turn)
    ensures Serving(AnswerPlan(s, p, content, result).(phase := PROCESSING), p.turn)
    ensures AnswerPlan(s, p, content, result).phase == s.phase
  {
    hide AnswerId;
    InfoShape(s, p.turn, TOOL_RESULT_READY);
    var r := AnswerPlan(s, p, content, result).(phase := PROCESSING);
    assert r.events == Post(s, Info(p.turn, TOOL_RESULT_READY)).events;
  }

  lemma ResumeShape(s: State, p: PendingPlan, content: string, result: ToolResult, env: Env)
    requires Serving(s, p.turn) && s.phase in {PENDING_APPROVAL, EXECUTING_TOOL}
    ensures Landed(Resume(s, p, content, result, env))
  {
    hide AnswerPlan, Delegate, ShapeInv;
    AnswerPlanShape(s, p, content, result);
    DelegateShape(AnswerPlan(s, p, content, result).(phase := PROCESSING), p.turn, env);
  }

  lemma ConsumedBelow(ids: set<nat>, id: nat, n: nat)
    requires IdsBelow(ids, n) && id < n
    ensures IdsBelow(ids + {id}, n)
  {
  }

  /** An effect that is no mishap. */
  predicate Harmless(e: Effect) {
    !e.MissedImage? && !e.BrokeOff? && !e.CallRaised? && !e.CallUndescribed? && !e.WentSilent?
  }

  /** Writing harmless effects of a turn that was given out keeps all that is known of the log. */
  lemma HarmlessShape(log: Log, es: Log, t: nat, n: nat)
    requires forall e <- es :: Harmless(e) && e.turn <= n
    ensures LogUpTo(log, n) ==> LogUpTo(log + es, n)
    ensures Unharmed(log, t) ==> Unharmed(log + es, t)
    ensures WentSilent(t) in log + es <==> WentSilent(t) in log
  {
  }

  lemma ReleasePlanShape(s: State, t: nat, id: nat, es: Log) returns (r: State)
    requires PlanHeld(s, t, id) && forall e <- es :: Harmless(e) && e.turn == t
    ensures r == Post(s.(pendingPlan := None), Info(t, APPROVAL_RESOLVED)).(
                   log := s.log + es, consumed := s.consumed + {id})
    ensures Serving(r, t) && Serving(r.(phase := EXECUTING_TOOL), t)
    ensures !CancelSet(s) && CheckPendingPlan(s, id).None?
  {
    hide EventsUpTo, TurnsUpTo, IdsBelow, WorkerOk, Live, LogUpTo, Unharmed;
    InfoShape(s, t, APPROVAL_RESOLVED);
    ConsumedBelow(s.consumed, id, s.nextApproval);
    HarmlessShape(s.log, es, t, s.counter);
    r := Post(s.(pendingPlan := None), Info(t, APPROVAL_RESOLVED)).(log := s.log + es, consumed := s.consumed + {id});
  }

  /** What an approved plan writes: the user's consent, if there was one, and the run. */
  function PlanEffects(t: nat, id: nat, automatic: bool, run: Effect): Log {
    (if automatic then [] else [Approved(t, id)]) + [run]
  }

  lemma ConsentedRun(s: State, p: PendingPlan, automatic: bool, run: Effect)
    ensures Note(Consent(s, p, automatic), run) ==
            Post(s, Info(p.turn, APPROVAL_RESOLVED)).(log := s.log + PlanEffects(p.turn, p.id, automatic, run))
  {
    if automatic {
      assert s.log + ([] + [run]) == s.log + [run];
    } else {
      assert s.log + ([Approved(p.turn, p.id)] + [run]) == s.log + [Approved(p.turn, p.id)] + [run];
    }
  }

  lemma ApprovePlanShape(cfg: Config, s: State, t: nat, id: nat, automatic: bool, env: Env)
    requires PlanHeld(s, t, id)
    ensures Landed(ApprovePlan(cfg, s, id, automatic, env))
  {
    hide RunPlan, Resume, Consent, Landed, Serving, Numbered, NothingInFlight, Unharmed;
    var p := s.pendingPlan.value;
    var summary := RunPlan(cfg, p, env);
    var run := PlanRun(t, id, automatic, p.review.plan, summary);
    ConsentedRun(s.(pendingPlan := None), p, automatic, run);
    var r := ReleasePlanShape(s, t, id, PlanEffects(t, id, automatic, run));
    ResumeShape(r.(phase := EXECUTING_TOOL), p, cfg.summaryText(summary),
                ToolResult(PlanValidator.PROPOSE_PLAN, if summary.completed then OK else PLAN_EXECUTION_FAILED), env);
  }

  lemma RejectPlanShape(cfg: Config, s: State, t: nat, id: nat, env: Env)
    requires PlanHeld(s, t, id)
    ensures Landed(RejectPlan(cfg, s, id, env))
  {
    var r := ReleasePlanShape(s, t, id, [Rejected(t, id)]);
    var result := ToolResult(PlanValidator.PROPOSE_PLAN, USER_REJECTED);
    ResumeShape(r, s.pendingPlan.value, cfg.errorText(result), result, env);
  }

  lemma HoldPlanShape(s: State, t: nat, call: ToolCall, review: PlanReview.Review)
    requires Serving(s, t) && s.phase == PROCESSING
    ensures var r := HoldPlan(s, t, call, review);
            && r.Done? && PlanHeld(r.state, t, s.nextApproval)
            && ShapeInv(Post(r.state, Info(t, APPROVAL_REQUIRED)))
  {
    hide EventsUpTo, TurnsUpTo, WorkerOk, Live, LogUpTo, Mishaps;
    var id, r := s.nextApproval, HoldPlan(s, t, call, review).state;
    HarmlessShape(s.log, [PlanReviewed(t, id, review.plan)], t, s.counter);
    FreshBelow(s.consumed, id);
    InfoShape(r, t, APPROVAL_REQUIRED);
  }

  lemma FreshBelow(ids: set<nat>, n: nat)
    requires IdsBelow(ids, n)
    ensures IdsBelow(ids, n + 1) && n !in ids
  {
  }

  lemma RequestPlanReviewShape(cfg: Config, s: State, t: nat, call: ToolCall, env: Env)
    requires Serving(s, t) && s.phase == PROCESSING
    ensures var r := RequestPlanReview(cfg, s, t, call, env);
            if r.Done? then Landed(r) else r == Raised(PlanRefused, s)
  {
    hide PlanReview.ReviewOf, HoldPlan, ApprovePlan, ShapeInv;
    var review := PlanReview.ReviewOf(cfg.rules.registry,
                                      PlanModel.Payload(cfg.rules.decode(call.arguments) - {"overall_risk"}),
                                      env.freshPlanId, cfg.describe);
    if review.Some? {
      HoldPlanShape(s, t, call, review.value);
      var s1 := HoldPlan(s, t, call, review.value).state;
      ApprovePlanShape(cfg, s1, t, s.nextApproval, true, env);
    }
  }

  lemma ProposePlanShape(cfg: Config, s: State, t: nat, call: ToolCall, env: Env)
    requires Serving(s, t) && s.phase == PROCESSING
    ensures Landed(ProposePlan(cfg, s, t, call, env))
  {
    hide RequestPlanReview, RepairProposal;
    if RepairProposal(s.results) && s.repairs >= cfg.rules.maxPlanRepairs {
      RefusePlanShape(cfg, s, t, call, MAX_PLAN_REPAIRS_EXCEEDED);
      return;
    }
    var s1 := if RepairProposal(s.results) then s.(repairs := s.repairs + 1) else s;
    RequestPlanReviewShape(cfg, s1, t, call, env);
    RefusePlanShape(cfg, s1, t, call, PLAN_VALIDATION_FAILED);
  }

  // ------------------------------------------------------------------------
  // Tool calls and events
  // ------------------------------------------------------------------------

  lemma {:induction false} RunCallsShape(cfg: Config, s: State, t: nat, calls: seq<ToolCall>, i: nat, env: Env)
    requires Serving(s, t) && s.phase == PROCESSING && i <= |calls|
    ensures Served(RunCalls(cfg, s, t, calls, i, env))
    decreases |calls| - i
  {
    hide ProposePlan, Gated, HoldCall, RecordTool, Fail, Delegate, Strand, ShapeInv;
    if i == |calls| {
      DelegateShape(s, t, env);
    } else if calls[i].toolName == PlanValidator.PROPOSE_PLAN {
      ProposePlanShape(cfg, s, t, calls[i], env);
    } else if Gated(cfg.rules, calls[i]) {
      HoldCallShape(cfg, s, t, calls[i]);
    } else {
      var s1 := s.(phase := EXECUTING_TOOL);
      if env.tool(i).Raises? {
        StrandShape(s1, t, calls[i], None, env.tool(i).kept);
        return;
      }
      RecordToolShape(cfg, s1, t, calls[i], None, env.tool(i));
      var s2 := RecordTool(cfg, s1, t, calls[i], None, env.tool(i));
      FailShape(s2, t, TOOL_FAILURE);
      RunCallsShape(cfg, s2.(phase := PROCESSING), t, calls, i + 1, env);
    }
  }

  lemma TakeRequestShape(cfg: Config, s: State, t: nat, text: Option<string>, calls: seq<ToolCall>, env: Env)
    requires Serving(s.(streaming := ""), t) && s.phase == PROCESSING
    ensures Served(TakeRequest(cfg, s, t, text, calls, env))
  {
    hide RunCalls, ShapeInv, Fail;
    var s1 := s.(round := s.round + 1);
    if s1.round > cfg.rules.maxToolRounds {
      FailShape(s1, t, MAX_TOOL_ROUNDS_EXCEEDED);
      return;
    }
    RunCallsShape(cfg, Say(s1, AssistantMessage(SpokenText(s.streaming, text), calls)).(streaming := ""), t, calls, 0,
                  env);
  }

  lemma FinishTurnShape(s: State, t: nat, text: Option<string>)
    requires Serving(s.(streaming := ""), t) && s.phase == PROCESSING
    ensures Landed(FinishTurn(s, t, text))
  {
  }

  // ------------------------------------------------------------------------
  // Seeing an event
  // ------------------------------------------------------------------------

  /** The state once the oldest event is taken off the queue. */
  function Popped(s: State): State
    requires s.events != []
  {
    s.(events := s.events[1..])
  }

  lemma PoppedNumbered(s: State)
    requires Numbered(s) && s.events != []
    ensures Numbered(Popped(s)) && s.events[0].turn <= s.counter
  {
  }

  /** An event that does not belong to the stream of the active turn may be dropped. */
  lemma SkipShape(s: State)
    requires ShapeInv(s) && s.events != []
    requires s.turn.Some? ==> !Streamed(s.events[0], s.counter)
    ensures ShapeInv(Popped(s))
  {
    PoppedNumbered(s);
    LiveTail(s.events, s.counter);
    assert Pipe(Popped(s).events, s.worker, s.counter) == Pipe(s.events, s.worker, s.counter) || s.turn.None?;
  }

  lemma DeltasTail(e: Event, rest: seq<Event>)
    ensures AllDeltas([e] + rest) <==> e.Delta? && AllDeltas(rest)
  {
    var whole := [e] + rest;
    if AllDeltas(whole) {
      assert whole[0].Delta?;
      forall i | 0 <= i < |rest|
        ensures rest[i].Delta?
      {
        assert whole[i + 1].Delta?;
      }
    }
  }

  lemma PipeTail(events: seq<Event>, worker: Worker, t: nat)
    requires events != [] && Streamed(events[0], t)
    ensures Pipe(events, worker, t) == [events[0]] + Pipe(events[1..], worker, t)
    ensures TextOf(Pipe(events, worker, t)) ==
            (if events[0].Delta? then events[0].delta else "") + TextOf(Pipe(events[1..], worker, t))
    ensures AllDeltas(Pipe(events, worker, t)) <==> events[0].Delta? && AllDeltas(Pipe(events[1..], worker, t))
  {
    LiveTail(events, t);
    var whole, rest := Pipe(events, worker, t), Pipe(events[1..], worker, t);
    assert whole == [events[0]] + rest;
    TextTail(whole);
    assert whole[1..] == rest;
    DeltasTail(events[0], rest);
  }

  lemma DeltaText(streaming: string, e: Event, rest: seq<Event>)
    requires e.Delta?
    ensures streaming + TextOf([e] + rest) == streaming + e.delta + TextOf(rest)
    ensures AllDeltas([e] + rest) <==> AllDeltas(rest)
  {
    TextTail([e] + rest);
    assert ([e] + rest)[1..] == rest;
    DeltasTail(e, rest);
  }

  lemma DeltaStage(streaming: string, e: Event, rest: seq<Event>, tasks: seq<nat>, worker: Worker, log: Log, t: nat)
    requires Awaiting(streaming, [e] + rest, tasks, worker, log, t) && e.Delta?
    ensures Awaiting(streaming + e.delta, rest, tasks, worker, log, t)
  {
    hide TextOf, AllDeltas;
    var stage :| AtStage(stage, streaming, [e] + rest, tasks, worker, log, t);
    DeltaText(streaming, e, rest);
    if stage.Answered? {
      var whole := stage.deltas + [stage.answer];
      assert whole == [e] + rest && whole[0] == e;
      var later := stage.deltas[1..];
      assert stage.deltas == [e] + later;
      DeltaText(streaming, e, later);
      assert whole[1..] == rest && whole[1..] == later + [stage.answer];
      assert AtStage(Answered(later, stage.answer), streaming + e.delta, rest, tasks, worker, log, t);
    } else {
      assert AtStage(stage, streaming + e.delta, rest, tasks, worker, log, t);
    }
  }

  /** What the main thread has and what is under way move in step when a delta is taken off the queue. */
  lemma DeltaShape(s: State)
    requires ShapeInv(s) && s.events != [] && s.turn.Some?
    requires s.events[0].Delta? && s.events[0].turn == s.counter
    ensures ShapeInv(Popped(s).(streaming := s.streaming + s.events[0].delta))
  {
    PoppedNumbered(s);
    LiveTail(s.events, s.counter);
    PipeTail(s.events, s.worker, s.counter);
    if s.phase == PROCESSING {
      DeltaStage(s.streaming, s.events[0], Pipe(s.events[1..], s.worker, s.counter), s.tasks, s.worker, s.log,
                 s.counter);
    }
  }

  lemma AnswerStage(streaming: string, e: Event, rest: seq<Event>, tasks: seq<nat>, worker: Worker, log: Log, t: nat)
    requires Awaiting(streaming, [e] + rest, tasks, worker, log, t) && Terminal(e)
    ensures rest == [] && t !in tasks && Faithful(e, streaming) && WentSilent(t) !in log
    ensures Busy(worker, t) ==> worker.Posting? && worker.last
  {
    var pipe := [e] + rest;
    var stage :| AtStage(stage, streaming, pipe, tasks, worker, log, t);
    assert pipe[0] == e && !AllDeltas(pipe);
    assert stage.Answered?;
    assert stage.deltas == [];
    assert TextOf([]) == "" && streaming + "" == streaming;
  }

  /** A turn whose call could not be described has no event of its own in the queue. */
  lemma NotUndescribed(s: State)
    requires ShapeInv(s) && s.events != [] && s.turn.Some? && Streamed(s.events[0], s.counter)
    ensures !Undescribed(s)
  {
    hide EventsUpTo, TurnsUpTo, IdsBelow, WorkerOk, LogUpTo, Mishaps, Awaiting;
    LiveTail(s.events, s.counter);
  }

  lemma AtWork(s: State)
    requires ShapeInv(s) && s.phase == PROCESSING && !Undescribed(s)
    ensures s.turn == Some(s.counter) && Quiet(s) && Unharmed(s.log, s.counter)
    ensures Awaiting(s.streaming, Pipe(s.events, s.worker, s.counter), s.tasks, s.worker, s.log, s.counter)
  {
    hide EventsUpTo, TurnsUpTo, IdsBelow, WorkerOk, LogUpTo, Mishaps, Awaiting, Live;
  }

  /** When the answer of the provider is seen, nothing of the turn is under way any more and all text has arrived. */
  lemma AnswerShape(s: State)
    requires ShapeInv(s) && s.events != [] && s.phase == PROCESSING
    requires Terminal(s.events[0]) && s.events[0].turn == s.counter
    ensures Serving(Popped(s).(streaming := ""), s.counter)
    ensures Faithful(s.events[0], s.streaming) && !Undescribed(s)
  {
    hide EventsUpTo, TurnsUpTo, IdsBelow, LogUpTo, Mishaps, Awaiting, PhaseInv;
    ActiveIsNewest(s);
    NotUndescribed(s);
    AtWork(s);
    PoppedNumbered(s);
    PipeTail(s.events, s.worker, s.counter);
    AnswerStage(s.streaming, s.events[0], Pipe(s.events[1..], s.worker, s.counter), s.tasks, s.worker, s.log,
                s.counter);
  }

  /** Away from PROCESSING only a wedged turn has an event of its own in the queue, its error. */
  lemma WedgedShape(s: State)
    requires ShapeInv(s) && s.events != [] && s.phase != PROCESSING
    requires s.turn == Some(s.events[0].turn) && Streamed(s.events[0], s.counter)
    ensures Wedged(s) && s.events[0] == AgentError(s.counter, IMAGE_NOT_FOUND)
    ensures ShapeInv(Popped(s))
  {
    PoppedNumbered(s);
    LiveTail(s.events, s.counter);
    var live := Live(s.events, s.counter);
    assert live[0] == s.events[0];
    assert live == [s.events[0]] + Live(s.events[1..], s.counter);
  }

  /**
   * Processing an event keeps the invariant, and raises only for the error of a wedged turn, a tool or a
   * description.
   */
  lemma ProcessShape(cfg: Config, s: State, env: Env)
    requires ShapeInv(s) && s.events != []
    ensures var o := ProcessEvent(cfg, Popped(s), s.events[0], env);
            && Preserved(s, o)
            && (o.Raised? ==> o.fault in {InvalidTransition, ToolException, DescriptionFailed})
            && (o.Raised? && o.fault == InvalidTransition <==>
                  Wedged(s) && s.events[0] == AgentError(s.counter, IMAGE_NOT_FOUND))
  {
    hide FinishTurn, TakeRequest, Awaiting, AtStage, EventsUpTo, TurnsUpTo, WorkerOk, IdsBelow, Live, LogUpTo, RaisedIn;
    var e := s.events[0];
    if Some(e.turn) == s.turn && !e.Info? {
      NotUndescribed(s);
    }
    if Some(e.turn) != s.turn || e.Info? {
      SkipShape(s);
    } else if e.Delta? {
      DeltaShape(s);
    } else if s.phase == PROCESSING {
      TerminalShape(cfg, s, env);
    } else {
      WedgedShape(s);
    }
  }

  lemma TerminalShape(cfg: Config, s: State, env: Env)
    requires ShapeInv(s) && s.events != [] && s.phase == PROCESSING
    requires Terminal(s.events[0]) && s.events[0].turn == s.counter
    ensures var o := ProcessEvent(cfg, Popped(s), s.events[0], env);
            Served(o)
  {
    hide FinishTurn, TakeRequest, Awaiting, AtStage, EventsUpTo, TurnsUpTo, WorkerOk, IdsBelow, Live, LogUpTo, RaisedIn;
    AnswerShape(s);
    match s.events[0]
    case Response(t, text, calls) =>
      if calls == [] {
        FinishTurnShape(Popped(s), t, text);
      } else {
        TakeRequestShape(cfg, Popped(s), t, text, calls, env);
      }
    case AgentError(t, _) => CloseShape(Popped(s), t);
    case _ =>
  }

  // ------------------------------------------------------------------------
  // The worker
  // ------------------------------------------------------------------------

  lemma TakeStage(s: State)
    requires ShapeInv(s) && s.phase == PROCESSING && !Undescribed(s) && s.worker.Resting? && s.tasks != []
             && s.tasks[0] !in s.cancelled
    ensures Awaiting(s.streaming, Pipe(s.events, Working(s.tasks[0], ""), s.counter), s.tasks[1..],
                     Working(s.tasks[0], ""), s.log, s.counter)
  {
    var t := s.counter;
    var pipe, w := Pipe(s.events, s.worker, t), Working(s.tasks[0], "");
    var stage :| AtStage(stage, s.streaming, pipe, s.tasks, s.worker, s.log, t);
    assert s.tasks == [s.tasks[0]] + s.tasks[1..];
    assert multiset(s.tasks) == multiset{s.tasks[0]} + multiset(s.tasks[1..]);
    if s.tasks[0] == t {
      assert stage == Queued;
      assert AtStage(Streaming(""), s.streaming, pipe, s.tasks[1..], w, s.log, t);
    } else {
      assert AtStage(stage, s.streaming, pipe, s.tasks[1..], w, s.log, t);
    }
  }

  lemma DropStage(s: State)
    requires ShapeInv(s) && s.phase == PROCESSING && !Undescribed(s) && s.tasks != [] && s.tasks[0] in s.cancelled
    ensures Awaiting(s.streaming, Pipe(s.events, s.worker, s.counter), s.tasks[1..], s.worker, s.log, s.counter)
  {
    var pipe := Pipe(s.events, s.worker, s.counter);
    var stage :| AtStage(stage, s.streaming, pipe, s.tasks, s.worker, s.log, s.counter);
    assert s.tasks == [s.tasks[0]] + s.tasks[1..];
    assert multiset(s.tasks) == multiset{s.tasks[0]} + multiset(s.tasks[1..]);
    assert AtStage(stage, s.streaming, pipe, s.tasks[1..], s.worker, s.log, s.counter);
  }

  lemma TakeShape(s: State)
    requires ShapeInv(s) && s.worker.Resting? && s.tasks != []
    ensures ShapeInv(WorkerTake(s))
  {
    assert s.tasks[0] in s.tasks && forall t <- s.tasks[1..] :: t in s.tasks;
    if s.phase == PROCESSING && !Undescribed(s) {
      if s.tasks[0] in s.cancelled {
        DropStage(s);
      } else {
        TakeStage(s);
      }
    }
  }

  /** One stream event of turn `t`'s own task, seen as a move between stages. */
  lemma ObserveStage(s: State, ev: StreamEvent)
    requires ShapeInv(s) && s.phase == PROCESSING && !Undescribed(s) && s.worker.Working?
    ensures var r := WorkerObserve(s, ev);
            Awaiting(s.streaming, Pipe(s.events, r.worker, s.counter), s.tasks, r.worker, r.log, s.counter)
  {
    var t, r := s.counter, WorkerObserve(s, ev);
    var pipe, text := Pipe(s.events, s.worker, t), s.worker.text;
    var stage :| AtStage(stage, s.streaming, pipe, s.tasks, s.worker, s.log, t);
    var after := Pipe(s.events, r.worker, t);
    assert pipe + [] == pipe;
    if s.worker.turn != t {
      assert after == pipe;
      assert AtStage(stage, s.streaming, after, s.tasks, r.worker, r.log, t);
    } else if r.worker.Resting? {
      assert WentSilent(t) in r.log;
      assert AtStage(Lost, s.streaming, after, s.tasks, r.worker, r.log, t);
    } else if r.worker.Posting? {
      assert after == pipe + [r.worker.event] && r.log == s.log;
      ProducedStage(s.streaming, pipe, text, s.tasks, r.worker, s.log, t);
    } else {
      assert r == s;
    }
  }

  /** The event that the worker has just made of its stream. */
  lemma ProducedStage(streaming: string, pipe: seq<Event>, text: string, tasks: seq<nat>, worker: Worker, log: Log,
                      t: nat)
    requires t !in tasks && AllDeltas(pipe) && streaming + TextOf(pipe) == text && WentSilent(t) !in log
    requires worker.Posting? && worker.turn == t
    requires if worker.last then Terminal(worker.event) && Faithful(worker.event, text) && worker.text == text
             else worker.event.Delta? && worker.text == text + worker.event.delta
    ensures Awaiting(streaming, pipe + [worker.event], tasks, worker, log, t)
  {
    var e := worker.event;
    if worker.last {
      assert AtStage(Answered(pipe, e), streaming, pipe + [e], tasks, worker, log, t);
    } else {
      TextAppend(pipe, e);
      assert streaming + (TextOf(pipe) + e.delta) == streaming + TextOf(pipe) + e.delta;
      assert AtStage(Streaming(worker.text), streaming, pipe + [e], tasks, worker, log, t);
    }
  }

  lemma ObserveShape(s: State, ev: StreamEvent)
    requires ShapeInv(s) && s.worker.Working?
    ensures ShapeInv(WorkerObserve(s, ev))
  {
    hide EventsUpTo, TurnsUpTo, IdsBelow, Live, Awaiting, LogUpTo, Mishaps, Numbered, UndescribedIn, TextOf;
    ObserveNumbered(s, ev);
    ActiveIsNewest(s);
    SilentNote(s.log, s.worker.turn, s.counter);
    WorkerKeepsPhase(s, ev);
    if s.phase == PROCESSING && !Undescribed(s) {
      ObserveStage(s, ev);
    }
  }

  lemma ObserveNumbered(s: State, ev: StreamEvent)
    requires Numbered(s) && s.worker.Working?
    ensures Numbered(WorkerObserve(s, ev)) && s.worker.turn <= s.counter
  {
    hide EventsUpTo, TurnsUpTo, IdsBelow;
  }

  /** That a worker fell silent is no mishap of another kind. */
  lemma SilentNote(log: Log, t: nat, n: nat)
    requires t <= n
    ensures LogUpTo(log, n) ==> LogUpTo(log + [WentSilent(t)], n)
    ensures forall u, a, b, c, d :: Mishaps(log, u, a, b, c, d) ==> Mishaps(log + [WentSilent(t)], u, a, b, c, d)
  {
    forall u
      ensures RaisedIn(log + [WentSilent(t)], u) <==> RaisedIn(log, u)
      ensures UndescribedIn(log + [WentSilent(t)], u) <==> UndescribedIn(log, u)
    {
      assert forall e <- log :: e in log + [WentSilent(t)];
    }
  }

  lemma PostStage(s: State)
    requires ShapeInv(s) && s.phase == PROCESSING && !Undescribed(s) && s.worker.Posting?
    ensures var r := WorkerPost(s);
            Awaiting(s.streaming, Pipe(r.events, r.worker, s.counter), s.tasks, r.worker, s.log, s.counter)
  {
    var t, r := s.counter, WorkerPost(s);
    var pipe := Pipe(s.events, s.worker, t);
    var stage :| AtStage(stage, s.streaming, pipe, s.tasks, s.worker, s.log, t);
    LiveAppend(s.events, s.worker.event, t);
    assert Pipe(r.events, r.worker, t) == pipe;
    var live := Live(s.events, t);
    assert s.worker.turn == t ==> pipe == live + [s.worker.event];
    assert (live + [s.worker.event])[|live|] == s.worker.event;
    assert AtStage(stage, s.streaming, pipe, s.tasks, r.worker, s.log, t);
  }

  lemma PostShape(s: State)
    requires ShapeInv(s) && s.worker.Posting?
    ensures ShapeInv(WorkerPost(s))
  {
    LiveAppend(s.events, s.worker.event, s.counter);
    if s.phase == PROCESSING && !Undescribed(s) {
      PostStage(s);
    }
  }

  // ------------------------------------------------------------------------
  // Decisions, cancelling, starting
  // ------------------------------------------------------------------------

  lemma ReleaseCallShape(s: State, e: Effect) returns (r: State)
    requires ShapeInv(s) && s.phase == PENDING_APPROVAL && s.pendingCall.Some? && Harmless(e) && e.turn == s.counter
    ensures r == Note(Post(s.(pendingCall := None), Info(s.counter, APPROVAL_RESOLVED)), e)
    ensures Serving(r, s.counter) && Serving(r.(phase := EXECUTING_TOOL), s.counter)
    ensures s.turn == Some(s.counter) && s.pendingCall.value.turn == s.counter && !CancelSet(s)
  {
    hide EventsUpTo, TurnsUpTo, IdsBelow, WorkerOk, Live, LogUpTo, Unharmed;
    InfoShape(s, s.counter, APPROVAL_RESOLVED);
    HarmlessShape(s.log, [e], s.counter, s.counter);
    r := Note(Post(s.(pendingCall := None), Info(s.counter, APPROVAL_RESOLVED)), e);
  }

  lemma ApproveShape(cfg: Config, s: State, id: nat, env: Env)
    requires ShapeInv(s)
    ensures var o := Approve(cfg, s, id, env);
            if CheckPendingCall(s, id).Some? then o == Raised(CheckPendingCall(s, id).value, s) else Served(o)
  {
    hide RecordTool, Delegate, Fail, Strand, Serving, ShapeInv;
    if CheckPendingCall(s, id).None? {
      var t, call := s.counter, s.pendingCall.value.call;
      PendingTurn(s);
      var s2 := ReleaseCallShape(s, Approved(t, id));
      s2 := s2.(phase := EXECUTING_TOOL);
      if env.tool(0).Raises? {
        StrandShape(s2, t, call, Some(id), env.tool(0).kept);
        return;
      }
      RecordToolShape(cfg, s2, t, call, Some(id), env.tool(0));
      var s3 := RecordTool(cfg, s2, t, call, Some(id), env.tool(0));
      FailServing(s3, t, TOOL_FAILURE);
      BackToProcessing(s3, t);
      DelegateShape(s3.(phase := PROCESSING), t, env);
    }
  }

  lemma PendingTurn(s: State)
    requires ShapeInv(s) && s.pendingCall.Some?
    ensures s.turn == Some(s.counter) && s.pendingCall.value.turn == s.counter && s.phase == PENDING_APPROVAL
  {
  }

  lemma ActiveIsNewest(s: State)
    requires ShapeInv(s)
    ensures s.turn.Some? ==> s.turn.value == s.counter
    ensures s.phase in {PROCESSING, PENDING_APPROVAL, EXECUTING_TOOL} ==> s.turn.Some?
  {
  }

  lemma BackToProcessing(s: State, t: nat)
    requires Serving(s, t)
    ensures Serving(s.(phase := PROCESSING), t)
  {
  }

  lemma FailServing(s: State, t: nat, kind: ErrorKind)
    requires Serving(s, t)
    ensures Landed(Fail(s, t, kind))
  {
    FailShape(s, t, kind);
  }

  lemma RejectShape(cfg: Config, s: State, id: nat, env: Env)
    requires ShapeInv(s)
    ensures var o := Reject(cfg, s, id, env);
            if CheckPendingCall(s, id).Some? then o == Raised(CheckPendingCall(s, id).value, s) else Landed(o)
  {
    hide Delegate, ShapeInv, Serving;
    if CheckPendingCall(s, id).None? {
      var t, call := s.counter, s.pendingCall.value.call;
      PendingTurn(s);
      var s1 := ReleaseCallShape(s, Rejected(t, id));
      var result := ToolResult(call.toolName, USER_REJECTED);
      var m := ToolMessage(cfg.errorText(result), call.callId, Some(call.toolName), None);
      AnswerCallShape(s1, t, m, result);
      DelegateShape(Post(Say(Keep(s1, result), m), Info(t, TOOL_RESULT_READY)).(phase := PROCESSING), t, env);
    }
  }

  lemma AnswerCallShape(s: State, t: nat, m: Message, result: ToolResult)
    requires Serving(s, t)
    ensures Serving(Post(Say(Keep(s, result), m), Info(t, TOOL_RESULT_READY)).(phase := PROCESSING), t)
  {
    hide EventsUpTo, TurnsUpTo, IdsBelow, WorkerOk, LogUpTo, Unharmed;
    InfoShape(Say(Keep(s, result), m), t, TOOL_RESULT_READY);
  }

  lemma PlanDecisionShape(cfg: Config, s: State, id: nat, env: Env)
    requires ShapeInv(s)
    ensures var o := ApprovePlan(cfg, s, id, false, env);
            if CheckPendingPlan(s, id).Some? then o == Raised(CheckPendingPlan(s, id).value, s) else Landed(o)
    ensures var o := RejectPlan(cfg, s, id, env);
            if CheckPendingPlan(s, id).Some? then o == Raised(CheckPendingPlan(s, id).value, s) else Landed(o)
  {
    hide ApprovePlan, RejectPlan;
    if CheckPendingPlan(s, id).None? {
      ApprovePlanShape(cfg, s, s.counter, id, false, env);
      RejectPlanShape(cfg, s, s.counter, id, env);
    } else {
      UndecidedPlan(cfg, s, id, env);
    }
  }

  lemma UndecidedPlan(cfg: Config, s: State, id: nat, env: Env)
    requires CheckPendingPlan(s, id).Some?
    ensures ApprovePlan(cfg, s, id, false, env) == Raised(CheckPendingPlan(s, id).value, s)
    ensures RejectPlan(cfg, s, id, env) == Raised(CheckPendingPlan(s, id).value, s)
  {
    hide RunPlan, Resume;
  }

  lemma CancelShape(s: State)
    requires ShapeInv(s)
    ensures ShapeInv(Cancel(s))
    ensures Cancel(s).turn.None? && Quiet(Cancel(s))
  {
    hide EventsUpTo, TurnsUpTo, IdsBelow, WorkerOk, Live, LogUpTo, RaisedIn, Awaiting;
    CancelNumbered(s);
  }

  lemma CancelNumbered(s: State)
    requires Numbered(s)
    ensures Numbered(Cancel(s))
  {
    hide TurnsUpTo, WorkerOk, Live, LogUpTo, EventsUpTo;
    if s.turn.Some? {
      HarmlessShape(s.log, [Ended(s.counter)], s.counter, s.counter);
      InfoNumbered(s.events, s.counter, CANCEL_REQUESTED, s.counter);
    }
  }

  lemma InfoNumbered(events: seq<Event>, t: nat, n: Notice, counter: nat)
    requires t <= counter
    ensures EventsUpTo(events, counter) ==> EventsUpTo(events + [Info(t, n)], counter)
  {
  }

  lemma RecoverShape(s: State)
    requires ShapeInv(s) && s.phase == IDLE && s.turn.None?
    ensures var r := Recover(s).state;
            ShapeInv(r) && r.phase == IDLE && r.turn.None? && r.counter == s.counter
    ensures Recover(s).Raised? ==> Recover(s).fault == BrokenConversation
  {
  }

  /** A new turn starts with nothing under way and nothing on record: its number is new. */
  lemma OpenTurnShape(s: State, p: Prompt)
    requires ShapeInv(s) && s.phase == IDLE && s.turn.None?
    ensures var r := OpenTurn(s, p);
            r.phase == IDLE && r.counter == s.counter + 1 && r.turn == Some(r.counter)
              && Serving(r.(phase := PROCESSING), r.counter)
  {
    assert forall e <- s.events :: e.turn <= s.counter;
    assert forall e <- s.log :: e.turn <= s.counter;
    LiveNone(s.events, s.counter + 1);
  }

  lemma JamShape(s: State, conversation: seq<Message>)
    requires s.phase == IDLE && Serving(s.(phase := PROCESSING), s.counter)
    ensures ShapeInv(Note(s.(conversation := conversation), BrokeOff(s.counter)))
  {
    var e := BrokeOff(s.counter);
    assert e in s.log + [e];
  }

  /** The state that a missing image leaves. */
  function WedgeOf(s: State): State {
    Note(Post(s.(phase := ERROR), AgentError(s.counter, IMAGE_NOT_FOUND)), MissedImage(s.counter))
  }

  lemma MissedNote(log: Log, t: nat, n: nat)
    requires Unharmed(log, t) && LogUpTo(log, n) && t <= n
    ensures Mishaps(log + [MissedImage(t)], t, true, false, false, false) && LogUpTo(log + [MissedImage(t)], n)
  {
    var e := MissedImage(t);
    assert e in log + [e];
  }

  lemma EventNumbered(events: seq<Event>, e: Event, n: nat)
    requires EventsUpTo(events, n) && e.turn <= n
    ensures EventsUpTo(events + [e], n)
  {
  }

  lemma WedgeShape(s: State)
    requires Serving(s, s.counter)
    ensures ShapeInv(WedgeOf(s))
    ensures Live(WedgeOf(s).events, s.counter) == [AgentError(s.counter, IMAGE_NOT_FOUND)]
  {
    hide EventsUpTo, TurnsUpTo, IdsBelow, WorkerOk, LogUpTo, Live, Mishaps;
    LiveAppend(s.events, AgentError(s.counter, IMAGE_NOT_FOUND), s.counter);
    EventNumbered(s.events, AgentError(s.counter, IMAGE_NOT_FOUND), s.counter);
    MissedNote(s.log, s.counter, s.counter);
  }

  lemma LaunchShape(s: State, compacted: seq<Message>) returns (r: State)
    requires s.phase == IDLE && Serving(s.(phase := PROCESSING), s.counter)
    ensures r == Post(s.(conversation := compacted, phase := PROCESSING), Info(s.counter, PROMPT_SUBMITTED))
    ensures ShapeInv(SubmitTask(r, s.counter)) && ShapeInv(WedgeOf(r))
    ensures Live(WedgeOf(r).events, r.counter) == [AgentError(r.counter, IMAGE_NOT_FOUND)]
  {
    hide SubmitTask, ShapeInv, PhaseInv, WedgeOf, LogUpTo, RaisedIn, EventsUpTo, TurnsUpTo, IdsBelow, WorkerOk;
    r := s.(conversation := compacted, phase := PROCESSING);
    InfoShape(r, r.counter, PROMPT_SUBMITTED);
    r := Post(r, Info(r.counter, PROMPT_SUBMITTED));
    SubmitTaskShape(r, r.counter);
    WedgeShape(r);
  }

  /**
   * Starting a prompt keeps the invariant. It raises because of a conversation that breaks the protocol, and
   * nothing was started; or because the context check raised, and the turn that was opened is jammed.
   */
  lemma StartPromptShape(cfg: Config, s: State, p: Prompt, env: Env)
    requires ShapeInv(s) && !Runtime.Busy(s)
    ensures var o := StartPrompt(cfg, s, p, env);
            && ShapeInv(o.state)
            && (o.Raised? ==> o.fault in {BrokenConversation, CompactionFailed})
            && (o.Raised? && o.fault == CompactionFailed <==> Jammed(o.state))
            && (o.Done? ==> o.state.turn.Some? && (Wedged(o.state) <==> !env.imagesFound))
            && (Wedged(o.state) ==>
                  Live(o.state.events, o.state.counter) == [AgentError(o.state.counter, IMAGE_NOT_FOUND)])
            && (o.Raised? && o.fault == BrokenConversation ==> o.state.turn.None?)
            && !Stranded(o.state) && !Undescribed(o.state)
  {
    hide CompactContext, Recover, OpenTurn, SubmitTask, Live, EventsUpTo, TurnsUpTo, WorkerOk, IdsBelow, LogUpTo,
      Mishaps, Serving;
    var s1 := if s.phase == ERROR then s.(phase := IDLE) else s;
    RecoverShape(s1);
    if Recover(s1).Done? {
      var s3 := OpenTurn(Recover(s1).state, p);
      OpenTurnShape(Recover(s1).state, p);
      var compaction := CompactContext(cfg, s3);
      if compaction.Compacted? {
        var r := LaunchShape(s3, compaction.conversation);
        StartedPhase(r);
        StartedDescribed(s3, r);
      } else {
        JamShape(s3, compaction.conversation);
      }
    }
  }

  lemma StartedDescribed(s: State, r: State)
    requires Serving(s.(phase := PROCESSING), s.counter) && r.log == s.log && r.counter == s.counter
    ensures !Undescribed(SubmitTask(r, s.counter).(turn := Some(s.counter)))
  {
  }

  lemma StartedPhase(s: State)
    ensures SubmitTask(s, s.counter).phase == s.phase && SubmitTask(s, s.counter).turn == s.turn
    ensures WedgeOf(s).phase == ERROR && WedgeOf(s).turn == s.turn
  {
  }

  // ------------------------------------------------------------------------
  // Runs
  // ------------------------------------------------------------------------

  /** The one attempt at an illegal transition that a reachable state allows. */
  predicate WedgeErrorNext(s: State, step: Step) {
    && step.DoProcess? && s.events != []
    && Wedged(s) && s.events[0] == AgentError(s.counter, IMAGE_NOT_FOUND)
  }

  lemma SubmitShape(cfg: Config, s: State, p: Prompt, env: Env)
    requires ShapeInv(s)
    ensures var o := SubmitPrompt(cfg, s, p, env);
            Preserved(s, o) && (o.Raised? ==> o.fault in {BrokenConversation, CompactionFailed, QueueFull})
  {
    hide StartPrompt, Awaiting, Live;
    if !Runtime.Busy(s) {
      StartPromptShape(cfg, s, p, env);
    }
  }

  lemma PumpedShape(s: State)
    requires ShapeInv(s) && s.prompts != []
    ensures ShapeInv(s.(prompts := s.prompts[1..]))
  {
    hide Live, Awaiting, Mishaps, EventsUpTo, TurnsUpTo, LogUpTo, IdsBelow, WorkerOk;
  }

  lemma PumpShape(cfg: Config, s: State, env: Env)
    requires ShapeInv(s)
    ensures PumpPromptQueue(cfg, s, env).Done? && Preserved(s, PumpPromptQueue(cfg, s, env))
  {
    hide StartPrompt, Awaiting, Live;
    if !Runtime.Busy(s) && s.prompts != [] {
      StartPromptShape(cfg, s.(prompts := s.prompts[1..]), s.prompts[0], env);
    }
  }

  /**
   * Every step keeps the invariant; no step attempts an illegal state transition except processing the error
   * that the missing image of a prompt left behind; a turn is stranded exactly by a step that a tool's exception
   * leaves, and stays in PROCESSING with an open call exactly by one that a description's exception leaves.
   */
  lemma AttemptShape(cfg: Config, s: State, step: Step)
    requires ShapeInv(s)
    ensures ShapeInv(Next(cfg, s, step))
    ensures var o := Attempt(cfg, s, step);
            && (o.Raised? && o.fault == InvalidTransition <==> WedgeErrorNext(s, step))
            && (o.Raised? && o.fault == ToolException <==> Stranded(o.state) && !Stranded(s))
            && (o.Raised? && o.fault == DescriptionFailed <==> Undescribed(o.state) && !Undescribed(s))
  {
    hide ShapeInv, SubmitPrompt, PumpPromptQueue, ProcessEvent, Approve, Reject, ApprovePlan, RejectPlan, Cancel,
      WorkerTake, WorkerObserve, WorkerPost;
    match step
    case DoSubmit(p, env) => SubmitShape(cfg, s, p, env);
    case DoPump(env) => PumpShape(cfg, s, env);
    case DoProcess(env) =>
      if s.events != [] {
        ProcessShape(cfg, s, env);
      }
    case DoApprove(id, env) => ApproveShape(cfg, s, id, env);
    case DoReject(id, env) => RejectShape(cfg, s, id, env);
    case DoApprovePlan(id, env) => PlanDecisionShape(cfg, s, id, env);
    case DoRejectPlan(id, env) => PlanDecisionShape(cfg, s, id, env);
    case DoCancel => CancelShape(s);
    case DoTake =>
      if s.worker.Resting? && s.tasks != [] {
        TakeShape(s);
        WorkerKeepsPhase(s, Exhausted);
      }
    case DoObserve(ev) =>
      if s.worker.Working? {
        ObserveShape(s, ev);
        WorkerKeepsPhase(s, ev);
      }
    case DoPost =>
      if s.worker.Posting? {
        PostShape(s);
        WorkerKeepsPhase(s, Exhausted);
      }
  }

  lemma WorkerKeepsPhase(s: State, ev: StreamEvent)
    ensures s.worker.Resting? && s.tasks != [] ==> SamePlace(s, WorkerTake(s))
    ensures s.worker.Working? ==> SamePlace(s, WorkerObserve(s, ev))
    ensures s.worker.Posting? ==> SamePlace(s, WorkerPost(s))
  {
    if s.worker.Working? {
      forall t
        ensures UndescribedIn(s.log + [WentSilent(s.worker.turn)], t) <==> UndescribedIn(s.log, t)
      {
        assert forall e <- s.log :: e in s.log + [WentSilent(s.worker.turn)];
      }
    }
  }

  /** The active turn is where it was. */
  predicate SamePlace(s: State, r: State) {
    r.phase == s.phase && r.turn == s.turn && (Undescribed(r) <==> Undescribed(s))
  }

  lemma {:induction false} RunShape(cfg: Config, s: State, steps: seq<Step>)
    requires ShapeInv(s)
    ensures ShapeInv(Run(cfg, s, steps))
  {
    hide ShapeInv, Next;
    if steps != [] {
      RunShape(cfg, s, steps[..|steps| - 1]);
      AttemptShape(cfg, Run(cfg, s, steps[..|steps| - 1]), steps[|steps| - 1]);
    }
  }

  /** Nothing of turn t is queued, running or on its way, but for the error of a prompt whose image is missing. */
  predicate NothingUnderWay(s: State, t: nat) {
    && t !in s.tasks && !Busy(s.worker, t) && s.streaming == ""
    && Live(s.events, t) <= if MissedImage(t) in s.log then [AgentError(t, IMAGE_NOT_FOUND)] else []
  }

  /** Which phase an active turn t is in, from what is on record about it. */
  predicate PhaseMatchesRecord(s: State, t: nat) {
    && (s.phase == ERROR <==> MissedImage(t) in s.log)
    && (s.phase == IDLE <==> BrokeOff(t) in s.log)
    && (s.phase == EXECUTING_TOOL <==> RaisedIn(s.log, t))
    && (UndescribedIn(s.log, t) ==> s.phase == PROCESSING)
  }

  /** The provider's step of turn t is queued, streaming, answered or lost. */
  ghost predicate AwaitsProvider(s: State, t: nat) {
    Awaiting(s.streaming, Pipe(s.events, s.worker, t), s.tasks, s.worker, s.log, t)
  }

  lemma NothingAwaited(s: State)
    requires ShapeInv(s) && Undescribed(s)
    ensures !AwaitsProvider(s, s.counter) && NothingUnderWay(s, s.counter)
  {
    hide EventsUpTo, TurnsUpTo, IdsBelow, LogUpTo;
    var pipe := Pipe(s.events, s.worker, s.counter);
    assert pipe == [];
    forall stage: Stage
      ensures !AtStage(stage, s.streaming, pipe, s.tasks, s.worker, s.log, s.counter)
    {
      AnsweredPipe(stage, pipe);
      assert s.counter in multiset(s.tasks) <==> s.counter in s.tasks;
    }
  }

  /**
   * In every run, between steps: an approval is awaited exactly when one pending approval is set, a call or
   * a plan but never both, and it is the active turn's. In PROCESSING a turn is active, and its provider step
   * is at exactly one stage, unless it is on record that a call of the turn could not be described; then, and
   * outside PROCESSING, nothing of the turn is under way. Without an active turn the phase is IDLE or ERROR.
   * With one it is PROCESSING or PENDING_APPROVAL unless one of three other mishaps is on record for that turn,
   * and then the phase says which.
   */
  lemma PhasesInEveryRun(cfg: Config, steps: seq<Step>)
    ensures var s := Run(cfg, Initial, steps);
            && (s.phase == PENDING_APPROVAL <==> s.pendingCall.Some? || s.pendingPlan.Some?)
            && !(s.pendingCall.Some? && s.pendingPlan.Some?)
            && (s.pendingCall.Some? ==> s.turn == Some(s.pendingCall.value.turn))
            && (s.pendingPlan.Some? ==> s.turn == Some(s.pendingPlan.value.turn))
            && (s.phase == PROCESSING ==>
                  && s.turn.Some?
                  && (AwaitsProvider(s, s.turn.value) <==> !UndescribedIn(s.log, s.turn.value)))
            && (s.turn.Some? && (s.phase != PROCESSING || Undescribed(s)) ==> NothingUnderWay(s, s.turn.value))
            && (s.turn.None? ==> s.phase in {IDLE, ERROR})
            && (s.turn.Some? ==> PhaseMatchesRecord(s, s.turn.value))
  {
    hide Next, ShapeInv, AwaitsProvider, NothingUnderWay, PhaseMatchesRecord, Run;
    InitialShape();
    RunShape(cfg, Initial, steps);
    PhasesOf(Run(cfg, Initial, steps));
  }

  lemma PhasesOf(s: State)
    requires ShapeInv(s)
    ensures s.phase == PENDING_APPROVAL <==> s.pendingCall.Some? || s.pendingPlan.Some?
    ensures !(s.pendingCall.Some? && s.pendingPlan.Some?)
    ensures s.pendingCall.Some? ==> s.turn == Some(s.pendingCall.value.turn)
    ensures s.pendingPlan.Some? ==> s.turn == Some(s.pendingPlan.value.turn)
    ensures s.phase == PROCESSING ==>
            s.turn.Some? && (AwaitsProvider(s, s.turn.value) <==> !UndescribedIn(s.log, s.turn.value))
    ensures s.turn.Some? && (s.phase != PROCESSING || Undescribed(s)) ==> NothingUnderWay(s, s.turn.value)
    ensures s.turn.None? ==> s.phase in {IDLE, ERROR}
    ensures s.turn.Some? ==> PhaseMatchesRecord(s, s.turn.value)
  {
    hide Awaiting, Live, RaisedIn, UndescribedIn, EventsUpTo, TurnsUpTo, IdsBelow, LogUpTo, WorkerOk;
    if Undescribed(s) {
      NothingAwaited(s);
    }
  }

  /** The provider's step of turn t is queued, streaming or answered: it will come to something. */
  ghost predicate OnItsWay(s: State, t: nat) {
    exists stage: Stage :: !stage.Lost?
      && AtStage(stage, s.streaming, Pipe(s.events, s.worker, t), s.tasks, s.worker, s.log, t)
  }

  /**
   * In every run a turn in PROCESSING waits in vain exactly if its provider's stream ended without an answer, and
   * then the step is lost, or a call of it could not be described; never both.
   */
  lemma WaitsInVainExactly(cfg: Config, steps: seq<Step>)
    ensures var s := Run(cfg, Initial, steps);
            s.phase == PROCESSING ==>
              && s.turn.Some?
              && (OnItsWay(s, s.turn.value) <==>
                    WentSilent(s.turn.value) !in s.log && !UndescribedIn(s.log, s.turn.value))
              && (WentSilent(s.turn.value) in s.log <==>
                    AtStage(Lost, s.streaming, Pipe(s.events, s.worker, s.turn.value), s.tasks, s.worker, s.log,
                            s.turn.value))
              && !(WentSilent(s.turn.value) in s.log && UndescribedIn(s.log, s.turn.value))
  {
    hide Next, ShapeInv, Run, OnItsWay, AtStage;
    InitialShape();
    RunShape(cfg, Initial, steps);
    if Run(cfg, Initial, steps).phase == PROCESSING {
      VainOf(Run(cfg, Initial, steps));
    }
  }

  lemma VainOf(s: State)
    requires ShapeInv(s) && s.phase == PROCESSING
    ensures s.turn == Some(s.counter)
    ensures OnItsWay(s, s.counter) <==> WentSilent(s.counter) !in s.log && !UndescribedIn(s.log, s.counter)
    ensures WentSilent(s.counter) in s.log <==>
            AtStage(Lost, s.streaming, Pipe(s.events, s.worker, s.counter), s.tasks, s.worker, s.log, s.counter)
    ensures !(WentSilent(s.counter) in s.log && UndescribedIn(s.log, s.counter))
  {
    hide Live, EventsUpTo, TurnsUpTo, IdsBelow, LogUpTo, WorkerOk;
    ActiveIsNewest(s);
    if Undescribed(s) {
      NothingAwaited(s);
    } else {
      AtWork(s);
      var pipe := Pipe(s.events, s.worker, s.counter);
      var stage :| AtStage(stage, s.streaming, pipe, s.tasks, s.worker, s.log, s.counter);
      if OnItsWay(s, s.counter) {
        var other: Stage :| !other.Lost? && AtStage(other, s.streaming, pipe, s.tasks, s.worker, s.log, s.counter);
      }
    }
  }

  /** A step of the provider is at one stage only: it cannot be queued, streaming, answered and lost at once. */
  lemma OneStage(a: Stage, b: Stage, streaming: string, pipe: seq<Event>, tasks: seq<nat>, worker: Worker, log: Log,
                 t: nat)
    requires AtStage(a, streaming, pipe, tasks, worker, log, t) && AtStage(b, streaming, pipe, tasks, worker, log, t)
    ensures a == b
  {
    hide TextOf, Faithful, Terminal, TextOrNone;
    DeltasOnly(a, pipe);
    DeltasOnly(b, pipe);
    AnsweredPipe(a, pipe);
    AnsweredPipe(b, pipe);
    assert t in multiset(tasks) <==> t in tasks;
  }

  lemma DeltasOnly(stage: Stage, pipe: seq<Event>)
    ensures stage.Answered? && pipe == stage.deltas + [stage.answer] && Terminal(stage.answer) ==> !AllDeltas(pipe)
  {
    if stage.Answered? && pipe == stage.deltas + [stage.answer] {
      assert pipe[|pipe| - 1] == stage.answer;
    }
  }

  lemma AnsweredPipe(stage: Stage, pipe: seq<Event>)
    ensures stage.Answered? && pipe == stage.deltas + [stage.answer] ==>
              pipe != [] && stage.deltas == pipe[..|pipe| - 1] && stage.answer == pipe[|pipe| - 1]
  {
  }

  /**
   * While the worker is busy for the active turn, the text shown and the deltas under way, with the one that
   * it is about to post, make up its text.
   */
  lemma StreamKeepsUp(cfg: Config, steps: seq<Step>)
    ensures var s := Run(cfg, Initial, steps);
            s.turn.Some? && Busy(s.worker, s.turn.value) ==>
              s.streaming + TextOf(Pipe(s.events, s.worker, s.turn.value)) == s.worker.text
  {
    hide Next;
    InitialShape();
    RunShape(cfg, Initial, steps);
    var s := Run(cfg, Initial, steps);
    if s.turn.Some? && Busy(s.worker, s.counter) {
      StreamOf(s);
    }
  }

  lemma StreamOf(s: State)
    requires ShapeInv(s) && s.turn.Some? && Busy(s.worker, s.counter)
    ensures s.streaming + TextOf(Pipe(s.events, s.worker, s.counter)) == s.worker.text
  {
    hide Live, EventsUpTo, TurnsUpTo, IdsBelow, LogUpTo, Mishaps;
    var pipe := Pipe(s.events, s.worker, s.counter);
    var stage :| AtStage(stage, s.streaming, pipe, s.tasks, s.worker, s.log, s.counter);
    if stage.Answered? {
      TextAppend(stage.deltas, stage.answer);
      assert TextOf(stage.deltas) + "" == TextOf(stage.deltas);
    }
  }

  /** The final answer is the text that the turn's last step streamed, or the stock phrase if it streamed none. */
  lemma FinalTextIsStreamed(cfg: Config, steps: seq<Step>, env: Env)
    ensures var s := Run(cfg, Initial, steps);
            s.turn.Some? && s.events != [] && s.events[0].Response? && s.events[0].turn == s.turn.value
            && s.events[0].calls == [] ==>
              var r := Next(cfg, s, DoProcess(env));
              && s.events[0].text == TextOrNone(s.streaming)
              && r.conversation == s.conversation + [AssistantMessage(
                   Some(if s.streaming == "" then DEFAULT_FINAL_TEXT else s.streaming), [])]
              && r.turn.None? && r.phase == IDLE && r.streaming == ""
  {
    hide Live;
    InitialShape();
    RunShape(cfg, Initial, steps);
    var s := Run(cfg, Initial, steps);
    if s.turn.Some? && s.events != [] && s.events[0].Response? && s.events[0].turn == s.turn.value
      && s.events[0].calls == [] {
      FinalTextOf(cfg, s, env);
    }
  }

  lemma FinalTextOf(cfg: Config, s: State, env: Env)
    requires ShapeInv(s) && s.turn.Some? && s.events != []
    requires s.events[0].Response? && s.events[0].turn == s.turn.value && s.events[0].calls == []
    ensures var r := Next(cfg, s, DoProcess(env));
            && s.events[0].text == TextOrNone(s.streaming)
            && r.conversation == s.conversation + [AssistantMessage(
                 Some(if s.streaming == "" then DEFAULT_FINAL_TEXT else s.streaming), [])]
            && r.turn.None? && r.phase == IDLE && r.streaming == ""
  {
    if s.phase == PROCESSING {
      AnswerShape(s);
    } else {
      WedgedShape(s);
    }
  }
}
