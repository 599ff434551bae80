/**
 * In which order prompts are started: the waiting ones first in, first out, unless a direct submission
 * overtakes them.
 */
module RuntimeQueue {
  import opened PyText
  import opened Chat
  import opened StateMachine
  import opened RuntimeLog
  import opened Runtime
  import opened RuntimeShape
  import opened RuntimeConsent
  import Turns

  // ------------------------------------------------------------------------
  // The prompt that a turn opens with
  // ------------------------------------------------------------------------

  /** The prompt at the end of a conversation, if a user's message is there. */
  function Opening(conversation: seq<Message>): Option<Prompt> {
    if conversation == [] then None
    else
      var m := conversation[|conversation| - 1];
      if m.role == USER && m.content.Some? then Some(Prompt(m.content.value, m.imageId)) else None
  }

  lemma ContextKeepsLast(cfg: Config, s: State)
    requires s.conversation != [] && s.conversation[|s.conversation| - 1].role == USER
    ensures var r := CompactContext(cfg, s).conversation;
            r != [] && r[|r| - 1] == s.conversation[|s.conversation| - 1]
  {
    hide Turns.Prune, Turns.Compact;
    var prune := Turns.Prune(s.conversation, Turns.RETAINED_TURNS_COUNT, cfg.pruner);
    if prune.Some? {
      Turns.PruneKeepsLast(s.conversation, Turns.RETAINED_TURNS_COUNT, cfg.pruner);
      var pruned := prune.value.0;
      if Turns.Compact(pruned, Turns.COMPACTION_TRIGGER_CHARS, Turns.RETAINED_TURNS_COUNT, cfg.pruner,
                       cfg.summarizer).Some? {
        Turns.CompactKeepsLast(pruned, Turns.COMPACTION_TRIGGER_CHARS, Turns.RETAINED_TURNS_COUNT, cfg.pruner,
                               cfg.summarizer);
      }
    }
  }

  /** However the start of a prompt ends, the turn that it opened shows that prompt as the newest message. */
  lemma StartOpensWith(cfg: Config, s: State, p: Prompt, env: Env)
    requires !Runtime.Busy(s)
    ensures StartRefused(s) || Opening(StartPrompt(cfg, s, p, env).state.conversation) == Some(p)
  {
    hide CompactContext, ValidSequence, Discard;
    if !StartRefused(s) {
      var s1 := if s.phase == ERROR then s.(phase := IDLE) else s;
      DiscardKeeps(s1);
      var s3 := OpenTurn(Recover(s1).state, p);
      assert s3.conversation[|s3.conversation| - 1] == UserMessage(p.text, p.imageId);
      ContextKeepsLast(cfg, s3);
    }
  }

  // ------------------------------------------------------------------------
  // Steps
  // ------------------------------------------------------------------------

  /**
   * A turn opens exactly in a step that starts a prompt and is not refused: it is the next turn, it opens with
   * the submitted prompt or with the oldest waiting one, and only the latter leaves the queue.
   */
  lemma TurnsOpen(cfg: Config, s: State, step: Step)
    ensures var r := Next(cfg, s, step);
            && (r.counter != s.counter <==> Starts(s, step) && !StartRefused(s))
            && (Starts(s, step) && !StartRefused(s) ==>
                  r.counter == s.counter + 1 && Opening(r.conversation) == Some(Given(s, step)))
            && (Starts(s, step) ==> r.prompts == if step.DoPump? then s.prompts[1..] else s.prompts)
  {
    hide StartPrompt, ValidSequence;
    if Starts(s, step) {
      StartTurn(cfg, s, step);
    } else {
      CounterStays(cfg, s, step);
    }
  }

  lemma StartTurn(cfg: Config, s: State, step: Step)
    requires Starts(s, step)
    ensures var r := Next(cfg, s, step);
            && r.counter == s.counter + (if StartRefused(s) then 0 else 1)
            && (StartRefused(s) || Opening(r.conversation) == Some(Given(s, step)))
            && r.prompts == if step.DoPump? then s.prompts[1..] else s.prompts
  {
    hide StartPrompt, ValidSequence, Opening, StartNotes, Notables;
    if step.DoSubmit? {
      StartGains(cfg, s, step.prompt, step.env);
      StartOpensWith(cfg, s, step.prompt, step.env);
    } else {
      var s1 := s.(prompts := s.prompts[1..]);
      StartGains(cfg, s1, s.prompts[0], step.env);
      StartOpensWith(cfg, s1, s.prompts[0], step.env);
    }
  }

  /** A submission while a turn is active; it is accepted unless the queue is full. */
  predicate Accepted(cfg: Config, s: State, step: Step) {
    step.DoSubmit? && Runtime.Busy(s) && Attempt(cfg, s, step).Done?
  }

  function Accepting(cfg: Config, s: State, step: Step): seq<Prompt> {
    if Accepted(cfg, s, step) then [step.prompt] else []
  }

  lemma CounterStays(cfg: Config, s: State, step: Step)
    requires !Starts(s, step)
    ensures var r := Next(cfg, s, step);
            r.counter == s.counter && r.prompts == s.prompts + Accepting(cfg, s, step)
  {
    hide StartPrompt, ProcessEvent, Approve, Reject, ApprovePlan, RejectPlan, Cancel, WorkerTake, WorkerObserve,
      WorkerPost, Notables, CallDecided, PlanDecided;
    match step
    case DoProcess(env) =>
      if s.events != [] {
        var es := ProcessGains(cfg, Popped(s), s.events[0], env);
      }
    case DoApprove(id, env) => ApproveGains(cfg, s, id, env);
    case DoReject(id, env) => RejectGains(cfg, s, id, env);
    case DoApprovePlan(id, env) => ApprovePlanGains(cfg, s, id, false, env);
    case DoRejectPlan(id, env) => RejectPlanGains(cfg, s, id, env);
    case DoCancel => CancelGains(s);
    case DoTake => WorkerGains(s, Exhausted);
    case DoObserve(ev) => WorkerGains(s, ev);
    case DoPost => WorkerGains(s, Exhausted);
    case _ =>
  }

  // ------------------------------------------------------------------------
  // Runs
  // ------------------------------------------------------------------------

  /** The prompts that a run put into the queue, in order. */
  function Enqueued(cfg: Config, steps: seq<Step>): seq<Prompt> {
    if steps == [] then []
    else
      var before, last := steps[..|steps| - 1], steps[|steps| - 1];
      Enqueued(cfg, before) + Accepting(cfg, Run(cfg, Initial, before), last)
  }

  /**
   * What one step of the timer took from the queue: the prompt that the turn it opened begins with; or, where
   * the start was refused, the prompt that is missing from the queue and is lost.
   */
  function Drawn(s: State, step: Step, r: State): seq<Prompt> {
    if !step.DoPump? then []
    else if r.counter != s.counter then
      match Opening(r.conversation) case Some(p) => [p] case None => []
    else s.prompts[..AtLeastZero(|s.prompts| - |r.prompts|)]
  }

  /** The prompts that the timer took from the queue during a run, in order. */
  function DrawnIn(cfg: Config, steps: seq<Step>): seq<Prompt> {
    if steps == [] then []
    else
      var before, last := steps[..|steps| - 1], steps[|steps| - 1];
      var s := Run(cfg, Initial, before);
      DrawnIn(cfg, before) + Drawn(s, last, Next(cfg, s, last))
  }

  /** One step takes from the front of the queue what it draws and puts at its end what it accepts. */
  lemma StepIsFifo(cfg: Config, s: State, step: Step)
    ensures var r := Next(cfg, s, step);
            Drawn(s, step, r) + r.prompts == s.prompts + Accepting(cfg, s, step)
  {
    hide Next, ValidSequence, Opening, StartRefused;
    TurnsOpen(cfg, s, step);
    if Starts(s, step) {
      assert s.prompts + [] == s.prompts;
      assert !Accepted(cfg, s, step);
      if step.DoPump? {
        assert s.prompts == [s.prompts[0]] + s.prompts[1..];
        assert s.prompts[..1] == [s.prompts[0]];
      }
    } else {
      CounterStays(cfg, s, step);
      if step.DoPump? {
        assert s.prompts[..0] == [];
      }
    }
  }

  /**
   * In every run: what the timer took from the queue, in order, followed by what still waits is exactly what
   * was put into the queue, in order. None is skipped, none is started twice.
   */
  lemma {:induction false} QueueIsFifo(cfg: Config, steps: seq<Step>)
    ensures DrawnIn(cfg, steps) + Run(cfg, Initial, steps).prompts == Enqueued(cfg, steps)
  {
    hide Next, Accepting, Drawn;
    if steps != [] {
      var before, last := steps[..|steps| - 1], steps[|steps| - 1];
      var s := Run(cfg, Initial, before);
      QueueIsFifo(cfg, before);
      StepIsFifo(cfg, s, last);
      var d, e := DrawnIn(cfg, before), Accepting(cfg, s, last);
      assert (d + Drawn(s, last, Next(cfg, s, last))) + Next(cfg, s, last).prompts
             == d + (Drawn(s, last, Next(cfg, s, last)) + Next(cfg, s, last).prompts);
      assert d + (s.prompts + e) == (d + s.prompts) + e;
    }
  }

  /** A turn opens while prompts wait, and all of them go on waiting. */
  predicate Overtakes(s: State, r: State) {
    r.counter != s.counter && s.prompts != [] && r.prompts == s.prompts
  }

  /**
   * Waiting prompts are overtaken exactly by a prompt that is submitted while none of the phases and no active
   * turn keeps it out, between the end of a turn and the next tick of the timer, and whose start is not refused.
   */
  lemma OvertakenExactly(cfg: Config, s: State, step: Step)
    ensures Overtakes(s, Next(cfg, s, step)) <==>
            step.DoSubmit? && !Runtime.Busy(s) && s.prompts != [] && !StartRefused(s)
  {
    hide Next, ValidSequence, Opening, StartRefused;
    TurnsOpen(cfg, s, step);
  }
}
