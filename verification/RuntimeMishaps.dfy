/** Turns that nobody works for: how they come about, that only cancelling ends them, and when none do. */
module RuntimeMishaps {
  import opened PyText
  import opened Chat
  import opened StateMachine
  import opened RuntimeLog
  import opened Runtime
  import opened RuntimeShape
  import opened RuntimeProtocol
  import opened RuntimeConsent
  import opened Turns
  import RuntimeCancel
  import ContextGuard
  import PlanModel
  import PlanValidator
  import Policy
  import VisualVerify

  // ------------------------------------------------------------------------
  // Only cancelling ends a halted turn
  // ------------------------------------------------------------------------

  /** A turn is active, but neither is the provider at work for it nor is a decision awaited. */
  predicate Halted(s: State) {
    Wedged(s) || Jammed(s) || Stranded(s) || Undescribed(s)
  }

  /** The turn waits for a provider whose stream ended without an answer. */
  predicate LostTurn(s: State) {
    s.phase == PROCESSING && s.turn.Some? && WentSilent(s.turn.value) in s.log
  }

  /** A halted turn stays as it is, whatever happens, until it is cancelled; new prompts only queue up. */
  lemma HaltedUntilCancelled(cfg: Config, s: State, step: Step)
    requires ShapeInv(s) && Halted(s) && !step.DoCancel?
    ensures var r := Next(cfg, s, step);
            && Halted(r) && r.phase == s.phase && r.turn == s.turn
            && r.conversation == s.conversation && s.prompts <= r.prompts
  {
    hide ValidSequence, CompactContext, Awaiting, Live, FinishTurn, TakeRequest, StartPrompt, Mishaps, EventsUpTo,
      TurnsUpTo, LogUpTo, IdsBelow, WorkerOk, UndescribedIn;
    if step.DoProcess? && s.events != [] && Some(s.events[0].turn) == s.turn && Streamed(s.events[0], s.counter) {
      NotUndescribed(s);
      WedgedShape(s);
    }
    if step.DoObserve? {
      WorkerKeepsPhase(s, step.ev);
    }
  }

  lemma LostHasNoAnswer(s: State)
    requires ShapeInv(s) && LostTurn(s) && s.events != [] && Streamed(s.events[0], s.counter)
    ensures s.events[0].Delta?
  {
    hide EventsUpTo, TurnsUpTo, LogUpTo, IdsBelow, WorkerOk, Mishaps;
    LiveTail(s.events, s.counter);
    assert Pipe(s.events, s.worker, s.counter)[0] == s.events[0];
  }

  /** Nor does a lost turn end otherwise: at most the text that was on its way still arrives. */
  lemma LostUntilCancelled(cfg: Config, s: State, step: Step)
    requires ShapeInv(s) && LostTurn(s) && !step.DoCancel?
    ensures var r := Next(cfg, s, step);
            && LostTurn(r) && r.turn == s.turn && r.conversation == s.conversation && s.prompts <= r.prompts
  {
    hide ValidSequence, CompactContext, Awaiting, Live, FinishTurn, TakeRequest, StartPrompt, Mishaps, EventsUpTo,
      TurnsUpTo, LogUpTo, IdsBelow, WorkerOk;
    if step.DoProcess? && s.events != [] && Streamed(s.events[0], s.counter) {
      LostHasNoAnswer(s);
    }
  }

  lemma {:induction false} HaltedStays(cfg: Config, s: State, steps: seq<Step>)
    requires ShapeInv(s) && Halted(s)
    ensures var r := Run(cfg, s, steps);
            ShapeInv(r) && (r.turn == s.turn ==> Halted(r) && r.phase == s.phase)
  {
    hide ShapeInv;
    RunShape(cfg, s, steps);
    NotablesGrow(cfg, s, steps);
    NotablesHold(s.log);
    NotablesHold(Run(cfg, s, steps).log);
    PhaseByRecord(s, Run(cfg, s, steps));
  }

  lemma PhaseByRecord(s: State, r: State)
    requires ShapeInv(s) && ShapeInv(r) && Halted(s) && forall e <- s.log :: Notable(e) ==> e in r.log
    ensures r.turn == s.turn ==> Halted(r) && r.phase == s.phase
  {
    hide EventsUpTo, TurnsUpTo, LogUpTo, IdsBelow, WorkerOk, Live, Awaiting;
  }

  // ------------------------------------------------------------------------
  // What an exception takes along
  // ------------------------------------------------------------------------

  /** Events are processed and nothing else happens. */
  predicate OnlyProcesses(steps: seq<Step>) {
    forall i :: 0 <= i < |steps| ==> steps[i].DoProcess?
  }

  lemma RaisedIsHalted(cfg: Config, s: State, env: Env)
    requires ShapeInv(s) && s.events != [] && Attempt(cfg, s, DoProcess(env)).Raised?
    ensures var r := Attempt(cfg, s, DoProcess(env)).state;
            ShapeInv(r) && Halted(r) && Live(r.events, r.counter) == []
  {
    hide ProcessEvent, Live, Awaiting, EventsUpTo, TurnsUpTo, LogUpTo, IdsBelow, WorkerOk, Mishaps, UndescribedIn;
    ProcessShape(cfg, s, env);
    var o := Attempt(cfg, s, DoProcess(env));
    if o.fault == InvalidTransition {
      WedgeErrorRefused(cfg, s, env);
      LiveTail(s.events, s.counter);
    }
  }

  lemma IdleEvent(cfg: Config, s: State, env: Env)
    requires ShapeInv(s) && Halted(s) && s.events != [] && Live(s.events, s.counter) == []
    ensures var r := Next(cfg, s, DoProcess(env));
            && r == Popped(s).(stale := r.stale) && Live(r.events, r.counter) == []
  {
    hide FinishTurn, TakeRequest, Live, Awaiting, EventsUpTo, TurnsUpTo, LogUpTo, IdsBelow, WorkerOk, Mishaps,
      UndescribedIn;
    LiveTail(s.events, s.counter);
  }

  lemma {:induction false} IdleEvents(cfg: Config, s: State, steps: seq<Step>)
    requires ShapeInv(s) && Halted(s) && Live(s.events, s.counter) == []
    requires OnlyProcesses(steps) && |steps| <= |s.events|
    ensures var r := Run(cfg, s, steps);
            && ShapeInv(r) && Halted(r) && Live(r.events, r.counter) == []
            && r == s.(events := s.events[|steps|..], stale := r.stale)
  {
    hide ShapeInv, Next, Halted, Live;
    if steps != [] {
      var before, last := steps[..|steps| - 1], steps[|steps| - 1];
      IdleEvents(cfg, s, before);
      var r := Run(cfg, s, before);
      IdleEvent(cfg, r, last.env);
      HaltedUntilCancelled(cfg, r, last);
      AttemptShape(cfg, r, last);
      assert s.events[|before|..][1..] == s.events[|steps|..];
    } else {
      assert s.events[0..] == s.events;
    }
  }

  /**
   * An exception that leaves the processing of an event takes the rest of its batch along. Nothing is lost by
   * that: processing those events would have changed nothing but the count of stale ones.
   */
  lemma LostBatchIsHarmless(cfg: Config, s: State, env: Env, steps: seq<Step>)
    requires ShapeInv(s) && s.events != [] && Attempt(cfg, s, DoProcess(env)).Raised?
    requires OnlyProcesses(steps) && |steps| <= |Attempt(cfg, s, DoProcess(env)).state.events|
    ensures var raised := Attempt(cfg, s, DoProcess(env)).state;
            var processed := Run(cfg, raised, steps);
            processed == raised.(events := raised.events[|steps|..], stale := processed.stale)
  {
    hide ShapeInv, Attempt, Run, Halted, Live;
    RaisedIsHalted(cfg, s, env);
    IdleEvents(cfg, Attempt(cfg, s, DoProcess(env)).state, steps);
  }

  // ------------------------------------------------------------------------
  // How turns get halted or lost
  // ------------------------------------------------------------------------

  /**
   * From any state in which a prompt may be started, the start leaves a wedged turn exactly if it returns and
   * an image was not found. The one event of that turn is then its error, and whenever that error is processed
   * while the turn is active, it is refused as an illegal transition.
   */
  lemma StartWedgesIff(cfg: Config, s: State, p: Prompt, env: Env, steps: seq<Step>, later: Env)
    requires ShapeInv(s) && !Runtime.Busy(s)
    ensures var o := StartPrompt(cfg, s, p, env);
            var r := Run(cfg, o.state, steps);
            && (Wedged(o.state) <==> o.Done? && !env.imagesFound)
            && (Wedged(o.state) ==>
                  && o.state.counter !in o.state.tasks
                  && Live(o.state.events, o.state.counter) == [AgentError(o.state.counter, IMAGE_NOT_FOUND)])
            && (Wedged(o.state) && r.turn == o.state.turn && r.events != [] && Streamed(r.events[0], r.turn.value) ==>
                  Attempt(cfg, r, DoProcess(later)) == Raised(InvalidTransition, Popped(r)))
  {
    hide Run, StartPrompt, ShapeInv, Live, Attempt;
    StartPromptShape(cfg, s, p, env);
    var o := StartPrompt(cfg, s, p, env);
    if Wedged(o.state) {
      WedgedIdle(o.state);
      HaltedStays(cfg, o.state, steps);
      var r := Run(cfg, o.state, steps);
      if r.turn == o.state.turn && r.events != [] && Streamed(r.events[0], r.turn.value) {
        WedgeErrorRefused(cfg, r, later);
      }
    }
  }

  lemma WedgedIdle(s: State)
    requires ShapeInv(s) && Wedged(s)
    ensures s.counter !in s.tasks
  {
  }

  lemma WedgeErrorRefused(cfg: Config, s: State, env: Env)
    requires ShapeInv(s) && Wedged(s) && s.events != [] && Streamed(s.events[0], s.turn.value)
    ensures Attempt(cfg, s, DoProcess(env)) == Raised(InvalidTransition, Popped(s))
  {
    hide Live, EventsUpTo, TurnsUpTo, LogUpTo, IdsBelow, WorkerOk, Mishaps;
    WedgedShape(s);
  }

  /**
   * The end of the active turn's stream without an answer, or an error marked as a cancellation that nobody
   * asked for.
   */
  predicate SilencesTurn(s: State, step: Step) {
    step.DoObserve? && FallsSilent(s, step.ev) && s.turn == Some(s.worker.turn)
  }

  lemma WorkingTurn(s: State)
    requires ShapeInv(s) && s.worker.Working? && s.turn == Some(s.worker.turn)
    ensures s.phase == PROCESSING && WentSilent(s.counter) !in s.log
  {
    hide EventsUpTo, TurnsUpTo, LogUpTo, IdsBelow, WorkerOk, Live, TextOf;
  }

  lemma SilenceCounts(cfg: Config, s: State, step: Step)
    requires ShapeInv(s) && SilencesTurn(s, step)
    ensures !LostTurn(s) && LostTurn(Next(cfg, s, step))
  {
    hide ShapeInv;
    WorkingTurn(s);
    ActiveIsNewest(s);
    var r := WorkerObserve(s, step.ev);
    assert r.log == s.log + [WentSilent(s.worker.turn)];
  }

  lemma SilentOnlyInProcessing(s: State, t: nat)
    requires ShapeInv(s) && WentSilent(t) in s.log
    ensures t <= s.counter
    ensures s.turn == Some(t) ==> s.phase == PROCESSING || Halted(s)
  {
    hide EventsUpTo, TurnsUpTo, IdsBelow, WorkerOk, Live;
  }

  /** A turn gets lost exactly by such a step: no other step of anybody makes a turn wait in vain. */
  lemma SilenceLosesTurn(cfg: Config, s: State, step: Step)
    requires ShapeInv(s)
    ensures var r := Next(cfg, s, step);
            LostTurn(r) && !(LostTurn(s) && s.turn == r.turn) <==> SilencesTurn(s, step)
  {
    hide Next, ShapeInv, Writes, Notables, LostTurn, SilencesTurn, Halted;
    var r := Next(cfg, s, step);
    if SilencesTurn(s, step) {
      SilenceCounts(cfg, s, step);
    } else if LostTurn(r) && !(LostTurn(s) && s.turn == r.turn) {
      var es := StepWrites(cfg, s, step);
      NotablesHold(s.log);
      NotablesHold(r.log);
      LostMeans(r);
      var e := WentSilent(r.turn.value);
      AttemptShape(cfg, s, step);
      TurnAfter(cfg, s, step);
      if e in es {
        WrittenHasCause(cfg, s, step, es, e);
        ObservedTurn(cfg, s, step);
      } else {
        SilentOnlyInProcessing(s, r.turn.value);
        ActiveIsNewest(r);
        StillLost(cfg, s, step);
      }
    }
  }

  lemma LostMeans(s: State)
    requires LostTurn(s)
    ensures s.turn.Some? && WentSilent(s.turn.value) in s.log && Notable(WentSilent(s.turn.value))
  {
  }

  /** What is active after a step was active before, or is the turn that the step started. */
  lemma TurnAfter(cfg: Config, s: State, step: Step)
    requires ShapeInv(s)
    ensures var r := Next(cfg, s, step);
            r.turn.Some? ==> r.turn == s.turn || r.turn.value == s.counter + 1
  {
    hide Next;
    RuntimeCancel.NextExtends(cfg, s, step);
  }

  lemma ObservedTurn(cfg: Config, s: State, step: Step)
    requires ShapeInv(s) && step.DoObserve? && FallsSilent(s, step.ev)
    ensures Next(cfg, s, step).turn == s.turn
    ensures s.turn == Some(s.worker.turn) ==> SilencesTurn(s, step)
  {
  }

  lemma StillLost(cfg: Config, s: State, step: Step)
    requires ShapeInv(s) && s.turn.Some? && WentSilent(s.turn.value) in s.log && Next(cfg, s, step).turn == s.turn
    requires s.phase == PROCESSING || Halted(s)
    requires LostTurn(Next(cfg, s, step))
    ensures LostTurn(s)
  {
    hide Next, ShapeInv, Awaiting;
    if Halted(s) && !step.DoCancel? {
      HaltedUntilCancelled(cfg, s, step);
    } else if step.DoCancel? {
      CancelledNext(cfg, s);
    }
  }

  lemma CancelledNext(cfg: Config, s: State)
    requires ShapeInv(s)
    ensures Next(cfg, s, DoCancel).turn.None?
  {
    hide Cancel, ShapeInv;
    CancelShape(s);
  }

  /** The state after the first prompt of a session. */
  function FirstTurn(p: Prompt): State {
    Initial.(phase := PROCESSING, counter := 1, turn := Some(1), start := Some(0),
             conversation := [UserMessage(p.text, p.imageId)], events := [Info(1, PROMPT_SUBMITTED)], tasks := [1],
             log := [Started(1), TaskSubmitted(1)])
  }

  lemma FirstPrompt(cfg: Config, p: Prompt, env: Env)
    requires env.imagesFound
    ensures Next(cfg, Initial, DoSubmit(p, env)) == FirstTurn(p)
  {
    hide CompactContext, UserMessage;
    var s3 := OpenTurn(Initial, p);
    assert s3.conversation == [UserMessage(p.text, p.imageId)];
    FewTurns(cfg, s3, UserMessage(p.text, p.imageId));
    assert ValidSequence([]);
  }

  lemma FewTurns(cfg: Config, s: State, m: Message)
    requires s.conversation == [m]
    ensures CompactContext(cfg, s) == Compacted([m])
  {
    hide ContextGuard.Chars, IsSummary, IsAcknowledgement;
    assert |TurnsOf([m])| <= 1 by {
      assert [m][..0] == [];
    }
    var rest := AfterSystem([m]);
    assert |rest[SummaryLength(rest)..]| <= 1;
    AtMostOneTurn(rest[SummaryLength(rest)..]);
  }

  lemma AtMostOneTurn(ms: seq<Message>)
    requires |ms| <= 1
    ensures |TurnsOf(ms)| <= 1
  {
    if ms != [] {
      assert ms[..0] == [];
    }
  }

  lemma RunStep(cfg: Config, steps: seq<Step>, s: State, step: Step)
    requires Run(cfg, Initial, steps) == s
    ensures Run(cfg, Initial, steps + [step]) == Next(cfg, s, step)
  {
    hide Next;
    assert (steps + [step])[..|steps + [step]| - 1] == steps;
  }

  /** A provider that says nothing: the first turn of a session is lost after three steps. */
  lemma SilentProvider(cfg: Config, p: Prompt, env: Env)
    requires env.imagesFound
    ensures LostTurn(Run(cfg, Initial, [DoSubmit(p, env), DoTake, DoObserve(Exhausted)]))
  {
    hide Run, FirstTurn, StartPrompt;
    FirstPrompt(cfg, p, env);
    RunNone(cfg);
    var s1 := FirstTurn(p);
    RunStep(cfg, [], Initial, DoSubmit(p, env));
    assert [] + [DoSubmit(p, env)] == [DoSubmit(p, env)];
    var s2 := Next(cfg, s1, DoTake);
    RunStep(cfg, [DoSubmit(p, env)], s1, DoTake);
    assert [DoSubmit(p, env)] + [DoTake] == [DoSubmit(p, env), DoTake];
    RunStep(cfg, [DoSubmit(p, env), DoTake], s2, DoObserve(Exhausted));
    assert [DoSubmit(p, env), DoTake] + [DoObserve(Exhausted)] == [DoSubmit(p, env), DoTake, DoObserve(Exhausted)];
    SilentSteps(cfg, p);
  }

  lemma RunNone(cfg: Config)
    ensures Run(cfg, Initial, []) == Initial
  {
  }

  lemma SilentSteps(cfg: Config, p: Prompt)
    ensures LostTurn(Next(cfg, Next(cfg, FirstTurn(p), DoTake), DoObserve(Exhausted)))
  {
    var s := Next(cfg, Next(cfg, FirstTurn(p), DoTake), DoObserve(Exhausted));
    assert s.log[2] == WentSilent(1);
  }

  /** A turn whose provider answers at once with one call. */
  function OneCallTurn(p: Prompt, env: Env, call: ToolCall): seq<Step> {
    [DoSubmit(p, env), DoTake, DoObserve(Completed([call])), DoPost, DoProcess(env), DoProcess(env)]
  }

  /** The state in which that call is about to be worked on. */
  function Answered1(p: Prompt, call: ToolCall): State {
    FirstTurn(p).(events := [Response(1, None, [call])], tasks := [])
  }

  lemma OneCallRun(cfg: Config, p: Prompt, env: Env, call: ToolCall)
    requires env.imagesFound
    ensures Run(cfg, Initial, OneCallTurn(p, env, call)) == Next(cfg, Answered1(p, call), DoProcess(env))
  {
    hide Run, FirstTurn, StartPrompt, Next;
    FirstPrompt(cfg, p, env);
    RunNone(cfg);
    var a := [DoSubmit(p, env)];
    RunStep(cfg, [], Initial, DoSubmit(p, env));
    assert [] + a == a;
    var s1 := FirstTurn(p);
    RunStep(cfg, a, s1, DoTake);
    var s2 := Next(cfg, s1, DoTake);
    RunStep(cfg, a + [DoTake], s2, DoObserve(Completed([call])));
    var s3 := Next(cfg, s2, DoObserve(Completed([call])));
    RunStep(cfg, a + [DoTake] + [DoObserve(Completed([call]))], s3, DoPost);
    var s4 := Next(cfg, s3, DoPost);
    RunStep(cfg, a + [DoTake] + [DoObserve(Completed([call]))] + [DoPost], s4, DoProcess(env));
    var s5 := Next(cfg, s4, DoProcess(env));
    RunStep(cfg, a + [DoTake] + [DoObserve(Completed([call]))] + [DoPost] + [DoProcess(env)], s5, DoProcess(env));
    assert a + [DoTake] + [DoObserve(Completed([call]))] + [DoPost] + [DoProcess(env)] + [DoProcess(env)]
           == OneCallTurn(p, env, call);
    CallArrives(cfg, p, env, call);
  }

  /** The provider's answer is the next event. */
  lemma CallArrives(cfg: Config, p: Prompt, env: Env, call: ToolCall)
    ensures var s4 := Next(cfg, Next(cfg, Next(cfg, FirstTurn(p), DoTake), DoObserve(Completed([call]))), DoPost);
            Next(cfg, s4, DoProcess(env)) == Answered1(p, call)
  {
    var s4 := Next(cfg, Next(cfg, Next(cfg, FirstTurn(p), DoTake), DoObserve(Completed([call]))), DoPost);
    assert s4.events == [Info(1, PROMPT_SUBMITTED), Response(1, None, [call])];
    assert s4.events[1..] == [Response(1, None, [call])];
    assert s4 == FirstTurn(p).(events := s4.events, tasks := []);
  }

  /** The state with the request recorded, in which the calls are worked on. */
  function AskedState(p: Prompt, call: ToolCall): State {
    Answered1(p, call).(events := [], round := 1,
                        conversation := [UserMessage(p.text, p.imageId), AssistantMessage(None, [call])])
  }

  lemma CallTaken(cfg: Config, p: Prompt, env: Env, call: ToolCall)
    requires cfg.rules.maxToolRounds >= 1
    ensures Attempt(cfg, Answered1(p, call), DoProcess(env)) == RunCalls(cfg, AskedState(p, call), 1, [call], 0, env)
  {
    hide RunCalls, UserMessage, AssistantMessage;
    var s := Answered1(p, call);
    assert [UserMessage(p.text, p.imageId)] + [AssistantMessage(None, [call])]
           == [UserMessage(p.text, p.imageId), AssistantMessage(None, [call])];
    assert Say(Popped(s).(round := 1), AssistantMessage(None, [call])).(streaming := "") == AskedState(p, call);
  }

  /** Cancelling takes such a turn back. */
  lemma CancelledFirst(cfg: Config, s: State)
    requires s.turn == Some(1) && s.start == Some(0)
    ensures var r := Next(cfg, s, DoCancel);
            r.conversation == [] && r.turn.None? && r.phase == IDLE
  {
  }

  /** A look at the scene, by a tool whose own risk is the lowest, at an image that the cache has lost. */
  predicate LooksInVain(cfg: Config, call: ToolCall, v: VisualVerify.Viewer) {
    && call.toolName == VisualVerify.VISUAL_VERIFY
    && Policy.CallRisk(cfg.rules.registry, cfg.rules.riskOf, call.toolName, cfg.rules.decode(call.arguments)) ==
         PlanModel.READ_ONLY
    && VisualVerify.NamesLostImage(cfg.rules.decode(call.arguments), v)
    && cfg.rules.maxToolRounds >= 1
  }

  /**
   * A session in which a turn is stranded: the provider asks for `visual_verify` and names an image that is no
   * longer in the cache, so the verification raises. Cancelling takes the turn back.
   */
  lemma VisualVerifyStrands(cfg: Config, p: Prompt, env: Env, call: ToolCall, v: VisualVerify.Viewer)
    requires env.imagesFound && env.tool(0) == VisualVerify.Look(cfg.rules.decode(call.arguments), v)
             && LooksInVain(cfg, call, v)
    ensures var s := Run(cfg, Initial, OneCallTurn(p, env, call));
            && Stranded(s) && s.turn == Some(1) && CallRaised(1, call) in s.log
            && s.conversation == [UserMessage(p.text, p.imageId), AssistantMessage(None, [call])]
            && Next(cfg, s, DoCancel).conversation == [] && Next(cfg, s, DoCancel).turn.None?
            && Next(cfg, s, DoCancel).phase == IDLE
  {
    hide Run, Next, RunCalls, AskedState, Answered1, FirstTurn, VisualVerify.Look;
    OneCallRun(cfg, p, env, call);
    CallTaken(cfg, p, env, call);
    VisualVerify.LookRaisesExactly(cfg.rules.decode(call.arguments), v);
    StrandedCall(cfg, p, env, call, v);
    NextIsAttempt(cfg, Answered1(p, call), DoProcess(env));
    CancelledFirst(cfg, RunCalls(cfg, AskedState(p, call), 1, [call], 0, env).state);
  }

  lemma NextIsAttempt(cfg: Config, s: State, step: Step)
    ensures Next(cfg, s, step) == Attempt(cfg, s, step).state
  {
    hide Attempt;
  }

  lemma StrandedCall(cfg: Config, p: Prompt, env: Env, call: ToolCall, v: VisualVerify.Viewer)
    requires env.tool(0).Raises? && LooksInVain(cfg, call, v)
    ensures var r := RunCalls(cfg, AskedState(p, call), 1, [call], 0, env).state;
            && Stranded(r) && r.turn == Some(1) && r.start == Some(0) && CallRaised(1, call) in r.log
            && r.conversation == [UserMessage(p.text, p.imageId), AssistantMessage(None, [call])]
  {
    hide ProposePlan, HoldCall, Delegate, RecordTool, VisualVerify.NamesLostImage;
    var s := AskedState(p, call);
    NotAPlan();
    var r := Strand(s.(phase := EXECUTING_TOOL), 1, call, None, env.tool(0).kept);
    assert RunCalls(cfg, s, 1, [call], 0, env) == Raised(ToolException, r);
    assert r.log[|r.log| - 1] == CallRaised(1, call);
  }

  lemma NotAPlan()
    ensures VisualVerify.VISUAL_VERIFY != PlanValidator.PROPOSE_PLAN
    ensures Policy.DELETE_OBJECT != PlanValidator.PROPOSE_PLAN
  {
    assert VisualVerify.VISUAL_VERIFY[0] != PlanValidator.PROPOSE_PLAN[0];
    assert Policy.DELETE_OBJECT[0] != PlanValidator.PROPOSE_PLAN[0];
  }

  /** A deletion whose name is no text: null, a number, a list. */
  predicate DeletesNoName(cfg: Config, call: ToolCall) {
    && call.toolName == Policy.DELETE_OBJECT
    && Policy.CallRisk(cfg.rules.registry, cfg.rules.riskOf, call.toolName, cfg.rules.decode(call.arguments)) ==
         PlanModel.MEDIUM
    && "name" in cfg.rules.decode(call.arguments) && !cfg.rules.decode(call.arguments)["name"].Str?
    && cfg.rules.maxToolRounds >= 1
  }

  /**
   * A session in which a turn hangs in PROCESSING: the provider asks for a deletion whose name is no text, so the
   * question to the user cannot be worded. No approval is awaited, nobody works for the turn, and the call is
   * open. Cancelling takes the turn back.
   */
  lemma NamelessDeletionHangs(cfg: Config, p: Prompt, env: Env, call: ToolCall)
    requires env.imagesFound && DeletesNoName(cfg, call)
    ensures var s := Run(cfg, Initial, OneCallTurn(p, env, call));
            && Undescribed(s) && s.turn == Some(1) && s.pendingCall.None? && s.tasks == [] && s.events == []
               && s.worker.Resting?
            && s.conversation == [UserMessage(p.text, p.imageId), AssistantMessage(None, [call])]
            && Next(cfg, s, DoCancel).conversation == [] && Next(cfg, s, DoCancel).turn.None?
            && Next(cfg, s, DoCancel).phase == IDLE
  {
    hide Run, Next, RunCalls, AskedState, Answered1, FirstTurn;
    OneCallRun(cfg, p, env, call);
    CallTaken(cfg, p, env, call);
    HangingCall(cfg, p, env, call);
    NextIsAttempt(cfg, Answered1(p, call), DoProcess(env));
    CancelledFirst(cfg, RunCalls(cfg, AskedState(p, call), 1, [call], 0, env).state);
  }

  lemma HangingCall(cfg: Config, p: Prompt, env: Env, call: ToolCall)
    requires DeletesNoName(cfg, call)
    ensures var r := RunCalls(cfg, AskedState(p, call), 1, [call], 0, env).state;
            && Undescribed(r) && r.turn == Some(1) && r.start == Some(0)
            && r.pendingCall.None? && r.tasks == [] && r.events == [] && r.worker.Resting?
            && r.conversation == [UserMessage(p.text, p.imageId), AssistantMessage(None, [call])]
  {
    hide ProposePlan, Delegate, RecordTool;
    var s := AskedState(p, call);
    NotAPlan();
    assert "name" in Policy.DescribedArguments(call.toolName);
    var r := Note(s, CallUndescribed(1, call));
    assert RunCalls(cfg, s, 1, [call], 0, env) == Raised(DescriptionFailed, r);
    assert r.log[|r.log| - 1] == CallUndescribed(1, call);
  }

  // ------------------------------------------------------------------------
  // Runs without mishaps
  // ------------------------------------------------------------------------

  /** No text makes pruning or summing up raise. */
  ghost predicate Tame(cfg: Config) {
    && (forall name, content :: !cfg.pruner.raises(name, content))
    && (forall summary, turns :: !cfg.summarizer.raises(summary, turns))
  }

  /** Starts find the images of their prompts, and tools do not raise. */
  ghost predicate SmoothStep(step: Step) {
    && (step.DoSubmit? || step.DoPump? ==> step.env.imagesFound)
    && (step.DoProcess? || step.DoApprove? ==> forall i: nat :: !step.env.tool(i).Raises?)
  }

  ghost predicate SmoothSteps(steps: seq<Step>) {
    forall i :: 0 <= i < |steps| ==> SmoothStep(steps[i]) && OneCallStep(steps[i])
  }

  lemma TamePrune(cfg: Config, ms: seq<Message>)
    requires Tame(cfg) && AllWellFormed(ms) && ValidSequence(ms)
    ensures Prune(ms, RETAINED_TURNS_COUNT, cfg.pruner).Some?
  {
    hide Prune, PartitionOf, ValidSequence, Older, AllAlike;
    PruneKeepsProtocol(ms, RETAINED_TURNS_COUNT, cfg.pruner);
  }

  lemma TameContext(cfg: Config, ms: seq<Message>)
    requires Tame(cfg) && Whole(ms)
    ensures !ContextRaises(cfg, ms)
  {
    hide Prune, PartitionOf, ValidSequence, Older, AllAlike, AllWellFormed, ContextGuard.Chars;
    TamePrune(cfg, ms);
    PruneKeepsProtocol(ms, RETAINED_TURNS_COUNT, cfg.pruner);
    PruneWellFormed(ms, RETAINED_TURNS_COUNT, cfg.pruner);
    TamePrune(cfg, Prune(ms, RETAINED_TURNS_COUNT, cfg.pruner).value.0);
  }

  predicate NoMishap(es: Log) {
    forall e <- es :: !e.MissedImage? && !e.BrokeOff? && !e.CallRaised?
  }

  /** On a whole conversation the guard under which a start breaks off is about the texts alone. */
  lemma BreaksIffRaises(cfg: Config, ms: seq<Message>)
    requires Whole(ms)
    ensures ContextBreaks(cfg, ms) <==> ContextRaises(cfg, ms)
  {
    hide Prune, Compact, PartitionOf, ValidSequence, Older, AllAlike, AllWellFormed, ContextGuard.Chars, CompactRaises;
    PruneKeepsProtocol(ms, RETAINED_TURNS_COUNT, cfg.pruner);
    var prune := Prune(ms, RETAINED_TURNS_COUNT, cfg.pruner);
    if prune.Some? {
      PruneWellFormed(ms, RETAINED_TURNS_COUNT, cfg.pruner);
      CompactKeepsMeaning(prune.value.0, COMPACTION_TRIGGER_CHARS, RETAINED_TURNS_COUNT, cfg.pruner, cfg.summarizer);
    }
  }

  lemma SmoothStart(cfg: Config, s: State, p: Prompt, env: Env)
    requires Tame(cfg) && ProtocolInv(s) && !Runtime.Busy(s) && env.imagesFound
    ensures StartNotes(cfg, s, p, env) == []
  {
    hide ContextBreaks, ValidSequence, ContextRaises, Tame, ShapeInv, Orderly;
    RestIsValid(s);
    if ValidSequence(s.conversation) {
      PromptOne(s.conversation, p.text, p.imageId);
      TameContext(cfg, s.conversation + [UserMessage(p.text, p.imageId)]);
      BreaksIffRaises(cfg, s.conversation + [UserMessage(p.text, p.imageId)]);
    }
  }

  lemma RestIsValid(s: State)
    requires ProtocolInv(s) && !Runtime.Busy(s)
    ensures s.start.Some? ==> ValidSequence(s.conversation)
    ensures Orderly(s.conversation)
  {
    hide ValidSequence, Orderly, ShapeInv;
  }

  lemma SmoothWrites(cfg: Config, s: State, step: Step, es: Log)
    requires Tame(cfg) && ProtocolInv(s) && SmoothStep(step) && Writes(cfg, s, step, es)
    ensures NoMishap(es)
  {
    hide StartPrompt, Attempt, RunPlan, ProtocolInv, StartNotes, Tame;
    if Starts(s, step) {
      if step.DoSubmit? {
        SmoothStart(cfg, s, step.prompt, step.env);
      } else {
        SmoothStart(cfg, s, s.prompts[0], step.env);
      }
    }
  }

  lemma {:induction false} SmoothRun(cfg: Config, steps: seq<Step>)
    requires Tame(cfg) && SmoothSteps(steps)
    ensures ProtocolInv(Run(cfg, Initial, steps)) && NoMishap(Run(cfg, Initial, steps).log)
  {
    hide ProtocolInv, Next, Tame, SmoothStep, Writes, Notables;
    if steps == [] {
      InitialShape();
      FreshProtocol();
    } else {
      var before, last := steps[..|steps| - 1], steps[|steps| - 1];
      SmoothRun(cfg, before);
      var s := Run(cfg, Initial, before);
      NextProtocol(cfg, s, last);
      var es := StepWrites(cfg, s, last);
      SmoothWrites(cfg, s, last, es);
      NotablesHold(s.log);
      NotablesHold(Next(cfg, s, last).log);
    }
  }

  lemma FreshProtocol()
    ensures ProtocolInv(Initial)
  {
    InitialShape();
  }

  /**
   * With one call per response, images that are found at starts, tools that do not raise and texts that can
   * be pruned and summed up, in every run: a turn is active exactly in PROCESSING and PENDING_APPROVAL, so
   * IDLE and ERROR mean that none is.
   */
  lemma ActiveIffWorking(cfg: Config, steps: seq<Step>)
    requires Tame(cfg) && SmoothSteps(steps)
    ensures var s := Run(cfg, Initial, steps);
            && s.phase != EXECUTING_TOOL
            && (s.turn.Some? <==> s.phase in {PROCESSING, PENDING_APPROVAL})
  {
    hide Run, Tame, SmoothSteps, ProtocolInv, Awaiting, NothingUnderWay;
    SmoothRun(cfg, steps);
    PhasesInEveryRun(cfg, steps);
  }
}
