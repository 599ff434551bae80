/** The background worker (agent/worker.py): tasks in, stream events out. */
module AgentWorkerObject {
  import opened PyText
  import opened Chat
  import opened Runtime
  import opened RuntimeShape

  /** The cancel event, as the worker sees it when it looks at the i-th stream event. */
  type CancelView = nat -> bool

  /** What a task with the given stream puts into the event queue from its i-th stream event on. */
  function Produced(turn: nat, stream: seq<StreamEvent>, seen: CancelView, i: nat, text: string): seq<Event>
    requires i <= |stream|
    decreases |stream| - i
  {
    if i == |stream| || stream[i].Exhausted? then []
    else if stream[i].Exception? then [AgentError(turn, WORKER_EXCEPTION)]
    else if seen(i) then []
    else
      match stream[i]
      case Text(d) => [Delta(turn, d)] + Produced(turn, stream, seen, i + 1, text + d)
      case CallFragment => Produced(turn, stream, seen, i + 1, text)
      case Failure(isCancelled) => if isCancelled then [] else [AgentError(turn, PROVIDER_FAILURE)]
      case Completed(calls) => [Response(turn, TextOrNone(text), calls)]
      case _ => []
  }

  class AgentWorker {
    var taskQueue: seq<nat>
    var events: seq<Event>

    constructor ()
      ensures taskQueue == [] && events == []
    {
      taskQueue, events := [], [];
    }

    method SubmitTask(turn: nat)
      modifies this
      ensures taskQueue == old(taskQueue) + [turn] && events == old(events)
    {
      taskQueue := taskQueue + [turn];
    }

    /** Takes the oldest task; one that was cancelled before it started is dropped without a trace. */
    method RunNext(stream: seq<StreamEvent>, cancelledBefore: bool, seen: CancelView)
      requires taskQueue != []
      modifies this
      ensures taskQueue == old(taskQueue)[1..]
      ensures events == old(events) + if cancelledBefore then [] else Produced(old(taskQueue)[0], stream, seen, 0, "")
    {
      var turn := taskQueue[0];
      taskQueue := taskQueue[1..];
      if cancelledBefore {
        return;
      }
      var streamedText := "";
      for i := 0 to |stream|
        invariant taskQueue == old(taskQueue)[1..]
        invariant events + Produced(turn, stream, seen, i, streamedText)
                  == old(events) + Produced(turn, stream, seen, 0, "")
      {
        if stream[i].Exhausted? {
          return;
        }
        if stream[i].Exception? {
          events := events + [AgentError(turn, WORKER_EXCEPTION)];
          return;
        }
        if seen(i) {
          return;
        }
        match stream[i]
        case Text(d) =>
          streamedText := streamedText + d;
          events := events + [Delta(turn, d)];
        case CallFragment =>
        case Failure(isCancelled) =>
          if !isCancelled {
            events := events + [AgentError(turn, PROVIDER_FAILURE)];
          }
          return;
        case Completed(calls) =>
          events := events + [Response(turn, TextOrNone(streamedText), calls)];
          return;
      }
    }
  }

  lemma EventText(e: Event)
    ensures TextOf([e]) == if e.Delta? then e.delta else ""
    ensures TextOf([]) == ""
  {
    assert [e][..0] == [];
  }

  /** A task yields deltas, then at most one terminal event; a response repeats exactly the text of the deltas. */
  lemma {:induction false} OneTerminalEvent(turn: nat, stream: seq<StreamEvent>, seen: CancelView, i: nat, text: string)
    requires i <= |stream|
    ensures var out := Produced(turn, stream, seen, i, text);
            && (forall k :: 0 <= k < |out| - 1 ==> out[k].Delta?)
            && (forall k :: 0 <= k < |out| ==> Streamed(out[k], turn))
            && (out != [] && out[|out| - 1].Response? ==> out[|out| - 1].text == TextOrNone(text + TextOf(out)))
    decreases |stream| - i
  {
    hide TextOf;
    var out := Produced(turn, stream, seen, i, text);
    EventText(AgentError(turn, WORKER_EXCEPTION));
    assert text + "" == text;
    if i < |stream| && !stream[i].Exhausted? && !stream[i].Exception? && !seen(i) {
      if stream[i].Text? {
        var d := stream[i].delta;
        var rest := Produced(turn, stream, seen, i + 1, text + d);
        OneTerminalEvent(turn, stream, seen, i + 1, text + d);
        assert out == [Delta(turn, d)] + rest;
        TextTail(out);
        assert out[1..] == rest;
        assert (text + d) + TextOf(rest) == text + (d + TextOf(rest));
      } else if stream[i].CallFragment? {
        OneTerminalEvent(turn, stream, seen, i + 1, text);
      }
    }
    if |out| == 1 {
      EventText(out[0]);
      assert out == [out[0]];
    }
  }

  /** The deltas of a stretch of the stream, and their text. */
  function DeltasOf(turn: nat, stream: seq<StreamEvent>): seq<Event> {
    if stream == [] then []
    else (if stream[0].Text? then [Delta(turn, stream[0].delta)] else []) + DeltasOf(turn, stream[1..])
  }

  function WrittenBy(stream: seq<StreamEvent>): string {
    if stream == [] then "" else (if stream[0].Text? then stream[0].delta else "") + WrittenBy(stream[1..])
  }

  /** What the n-th stream event, at which reading stops, gives; a cancelled task gives nothing but an exception. */
  function LastWord(turn: nat, ev: StreamEvent, cancelled: bool, text: string): seq<Event> {
    match ev
    case Exception => [AgentError(turn, WORKER_EXCEPTION)]
    case Completed(calls) => if cancelled then [] else [Response(turn, if text == "" then None else Some(text), calls)]
    case Failure(false) => if cancelled then [] else [AgentError(turn, PROVIDER_FAILURE)]
    case _ => []
  }

  lemma NothingRead(turn: nat)
    ensures DeltasOf(turn, []) == [] && WrittenBy([]) == ""
  {
  }

  lemma OneMoreRead(turn: nat, ev: StreamEvent, rest: seq<StreamEvent>)
    ensures DeltasOf(turn, [ev] + rest) == (if ev.Text? then [Delta(turn, ev.delta)] else []) + DeltasOf(turn, rest)
    ensures WrittenBy([ev] + rest) == (if ev.Text? then ev.delta else "") + WrittenBy(rest)
  {
    assert ([ev] + rest)[1..] == rest;
  }

  /**
   * A task reads texts and call fragments up to the n-th event, which is of another kind or finds the task
   * cancelled; it posts the texts, and then what that event gives: an answer holds all of the text and the very
   * calls that the stream completed.
   */
  lemma {:induction false} ProducedExactly(turn: nat, stream: seq<StreamEvent>, seen: CancelView, i: nat, text: string)
    returns (n: nat)
    requires i <= |stream|
    ensures i <= n <= |stream|
    ensures forall k :: i <= k < n ==> !seen(k) && (stream[k].Text? || stream[k].CallFragment?)
    ensures n < |stream| ==> seen(n) || (!stream[n].Text? && !stream[n].CallFragment?)
    ensures Produced(turn, stream, seen, i, text) ==
            DeltasOf(turn, stream[i..n])
            + if n == |stream| then [] else LastWord(turn, stream[n], seen(n), text + WrittenBy(stream[i..n]))
    decreases |stream| - i
  {
    hide DeltasOf, WrittenBy;
    n := i;
    NothingRead(turn);
    assert stream[i..i] == [] && text + "" == text;
    if i < |stream| && !seen(i) && (stream[i].Text? || stream[i].CallFragment?) {
      var next := if stream[i].Text? then text + stream[i].delta else text;
      n := ProducedExactly(turn, stream, seen, i + 1, next);
      hide LastWord;
      OneMoreRead(turn, stream[i], stream[i + 1..n]);
      assert stream[i..n] == [stream[i]] + stream[i + 1..n];
      assert next + WrittenBy(stream[i + 1..n]) == text + WrittenBy(stream[i..n]);
    }
  }

  // ------------------------------------------------------------------------
  // The worker's steps in the transition system
  // ------------------------------------------------------------------------

  /** Looking at stream events one by one, and posting what they give, without interruption. */
  function Steps(stream: seq<StreamEvent>, i: nat): seq<Step>
    requires i <= |stream|
    decreases |stream| - i
  {
    if i == |stream| then [DoObserve(Exhausted)]
    else [DoObserve(stream[i]), DoPost] + Steps(stream, i + 1)
  }

  lemma {:induction false} RunConcat(cfg: Config, s: State, a: seq<Step>, b: seq<Step>)
    ensures Run(cfg, s, a + b) == Run(cfg, Run(cfg, s, a), b)
  {
    hide Next;
    if b == [] {
      assert a + b == a;
    } else {
      RunConcat(cfg, s, a, b[..|b| - 1]);
      assert (a + b)[..|a + b| - 1] == a + b[..|b| - 1];
    }
  }

  lemma RunTwo(cfg: Config, s: State, x: Step, y: Step)
    ensures Run(cfg, s, [x, y]) == Next(cfg, Next(cfg, s, x), y)
  {
    hide Next;
    assert [x, y][..1] == [x] && [x][..0] == [];
    assert Run(cfg, s, []) == s;
    assert Run(cfg, s, [x]) == Next(cfg, s, x);
  }

  /** One stream event looked at and its outcome posted. */
  function Handled(s: State, ev: StreamEvent): State {
    var r := if s.worker.Working? then WorkerObserve(s, ev) else s;
    if r.worker.Posting? then WorkerPost(r) else r
  }

  lemma HandledSteps(cfg: Config, s: State, ev: StreamEvent)
    ensures Run(cfg, s, [DoObserve(ev), DoPost]) == Handled(s, ev)
    ensures !s.worker.Posting? ==> Run(cfg, s, [DoObserve(Exhausted)]) == Handled(s, Exhausted)
  {
    hide SubmitPrompt, PumpPromptQueue, ProcessEvent, Approve, Reject, ApprovePlan, RejectPlan, Cancel, WorkerTake;
    RunTwo(cfg, s, DoObserve(ev), DoPost);
    assert [DoObserve(Exhausted)][..0] == [];
  }

  lemma {:induction false} RestingStays(cfg: Config, s: State, stream: seq<StreamEvent>, i: nat)
    requires i <= |stream| && s.worker.Resting?
    ensures Run(cfg, s, Steps(stream, i)) == s
    decreases |stream| - i
  {
    hide Run;
    if i == |stream| {
      HandledSteps(cfg, s, Exhausted);
    } else {
      RunConcat(cfg, s, [DoObserve(stream[i]), DoPost], Steps(stream, i + 1));
      HandledSteps(cfg, s, stream[i]);
      RestingStays(cfg, s, stream, i + 1);
    }
  }

  /** Left alone, the worker of the transition system puts exactly these events into the queue. */
  lemma {:induction false} StepsProduce(cfg: Config, s: State, stream: seq<StreamEvent>, i: nat)
    requires i <= |stream| && s.worker.Working?
    ensures var seen := (k: nat) => s.worker.turn in s.cancelled;
            && Run(cfg, s, Steps(stream, i)).events ==
                 s.events + Produced(s.worker.turn, stream, seen, i, s.worker.text)
            && Run(cfg, s, Steps(stream, i)).worker.Resting?
    decreases |stream| - i
  {
    hide Run;
    var seen := (k: nat) => s.worker.turn in s.cancelled;
    if i == |stream| {
      HandledSteps(cfg, s, Exhausted);
    } else {
      RunConcat(cfg, s, [DoObserve(stream[i]), DoPost], Steps(stream, i + 1));
      HandledSteps(cfg, s, stream[i]);
      var r := Handled(s, stream[i]);
      if r.worker.Working? {
        StepsProduce(cfg, r, stream, i + 1);
        SameView(s.worker.turn, stream, seen, (k: nat) => r.worker.turn in r.cancelled, i + 1, r.worker.text);
      } else {
        RestingStays(cfg, r, stream, i + 1);
      }
    }
  }

  lemma {:induction false} SameView(turn: nat, stream: seq<StreamEvent>, a: CancelView, b: CancelView, i: nat,
                                    text: string)
    requires i <= |stream| && forall k: nat :: a(k) == b(k)
    ensures Produced(turn, stream, a, i, text) == Produced(turn, stream, b, i, text)
    decreases |stream| - i
  {
    if i < |stream| {
      var next := if stream[i].Text? then text + stream[i].delta else text;
      SameView(turn, stream, a, b, i + 1, next);
    }
  }
}
