/** Turns of a conversation: partition, pruning of old tool results, compaction (agent/memory.py). */
module Turns {
  import opened PyText
  import opened Chat
  import ContextGuard

  const COMPACTION_TRIGGER_CHARS: nat := 10000
  const RETAINED_TURNS_COUNT: nat := 2
  const SUMMARY_MARKER: string := "[Context Summary & Scene Memory]"
  const SUMMARY_PREAMBLE: string :=
    "Earlier conversation turns were compacted to conserve context while preserving verified state:\n"
  const ACKNOWLEDGED: string := "Understood."
  const ACKNOWLEDGEMENT: string :=
    ACKNOWLEDGED + " I have recorded the previous tasks and verified scene state in memory."

  // ------------------------------------------------------------------------
  // Partition
  // ------------------------------------------------------------------------

  /** `summary` is empty when the conversation holds no prior summary. */
  datatype Partition = Partition(system: Option<Message>, summary: seq<Message>, turns: seq<seq<Message>>)

  predicate IsSummary(m: Message) {
    m.role == USER && m.content.Some? && m.content.value != "" && Contains(m.content.value, SUMMARY_MARKER)
  }

  predicate IsAcknowledgement(m: Message) {
    m.role == ASSISTANT && m.content.Some? && m.content.value != "" && Contains(m.content.value, ACKNOWLEDGED)
  }

  /** How many leading messages form a prior summary. */
  function SummaryLength(ms: seq<Message>): (n: nat)
    ensures n <= |ms|
  {
    if ms == [] || !IsSummary(ms[0]) then 0
    else if |ms| > 1 && IsAcknowledgement(ms[1]) then 2
    else 1
  }

  /** Group messages into turns: a USER message opens a turn, everything else joins the open one. */
  function TurnsOf(ms: seq<Message>): seq<seq<Message>> {
    if ms == [] then []
    else AddToTurns(TurnsOf(ms[..|ms| - 1]), ms[|ms| - 1])
  }

  function AddToTurns(ts: seq<seq<Message>>, m: Message): seq<seq<Message>> {
    if m.role == USER || ts == [] then ts + [[m]]
    else ts[..|ts| - 1] + [ts[|ts| - 1] + [m]]
  }

  function SystemOf(ms: seq<Message>): Option<Message> {
    if ms != [] && ms[0].role == SYSTEM then Some(ms[0]) else None
  }

  function AfterSystem(ms: seq<Message>): seq<Message> {
    if ms != [] && ms[0].role == SYSTEM then ms[1..] else ms
  }

  function PartitionOf(ms: seq<Message>): Partition {
    var rest := AfterSystem(ms);
    var n := SummaryLength(rest);
    Partition(SystemOf(ms), rest[..n], TurnsOf(rest[n..]))
  }

  function SystemSeq(system: Option<Message>): seq<Message> {
    if system.Some? then [system.value] else []
  }

  function Reassemble(p: Partition): seq<Message> {
    SystemSeq(p.system) + p.summary + Flatten(p.turns)
  }

  /** A turn: a USER message may stand at its front only. */
  predicate IsTurn(t: seq<Message>) {
    t != [] && forall j :: 1 <= j < |t| ==> t[j].role != USER
  }

  /** Turns as a partition leaves them: all but the first open with a USER message. */
  predicate Shaped(ts: seq<seq<Message>>) {
    forall i :: 0 <= i < |ts| ==> IsTurn(ts[i]) && (i > 0 ==> ts[i][0].role == USER)
  }

  lemma FlattenAppend(ts: seq<seq<Message>>, t: seq<Message>)
    ensures Flatten(ts + [t]) == Flatten(ts) + t
  {
    FlattenConcat(ts, [t]);
    assert [t][1..] == [];
    assert Flatten([t]) == t;
  }

  lemma AddToTurnsKeeps(ts: seq<seq<Message>>, m: Message)
    requires Shaped(ts)
    ensures Flatten(AddToTurns(ts, m)) == Flatten(ts) + [m] && Shaped(AddToTurns(ts, m))
  {
    if m.role == USER || ts == [] {
      FlattenAppend(ts, [m]);
    } else {
      var front, last := ts[..|ts| - 1], ts[|ts| - 1];
      assert ts == front + [last];
      FlattenAppend(front, last);
      FlattenAppend(front, last + [m]);
      assert IsTurn(last);
    }
  }

  lemma {:induction false} TurnsPartition(ms: seq<Message>)
    ensures Flatten(TurnsOf(ms)) == ms && Shaped(TurnsOf(ms))
    decreases |ms|
  {
    if ms == [] {
      return;
    }
    hide TurnsOf, Flatten, Shaped;
    var front, m := FrontAndLast(ms);
    TurnsPartition(front);
    TurnsStep(front, m);
  }

  lemma FrontAndLast(ms: seq<Message>) returns (front: seq<Message>, m: Message)
    requires ms != []
    ensures |front| == |ms| - 1 && ms == front + [m]
  {
    front, m := ms[..|ms| - 1], ms[|ms| - 1];
  }

  lemma TurnsStep(front: seq<Message>, m: Message)
    requires Flatten(TurnsOf(front)) == front && Shaped(TurnsOf(front))
    ensures Flatten(TurnsOf(front + [m])) == front + [m] && Shaped(TurnsOf(front + [m]))
  {
    AddToTurnsKeeps(TurnsOf(front), m);
    assert (front + [m])[..|front|] == front;
  }

  /** Adding a whole turn to a list adds it as one turn. */
  lemma {:induction false} AppendTurn(ms: seq<Message>, t: seq<Message>)
    requires IsTurn(t) && (ms == [] || t[0].role == USER)
    ensures TurnsOf(ms + t) == TurnsOf(ms) + [t]
    decreases |t|
  {
    var front, m := t[..|t| - 1], t[|t| - 1];
    assert (ms + t)[..|ms + t| - 1] == ms + front;
    if front == [] {
      assert ms + front == ms && t == [m];
    } else {
      AppendTurn(ms, front);
      assert front + [m] == t;
    }
  }

  /** Shaped turns are recovered from their concatenation. */
  lemma {:induction false} RegroupTurns(ts: seq<seq<Message>>)
    requires Shaped(ts)
    ensures TurnsOf(Flatten(ts)) == ts
  {
    if ts != [] {
      var front, last := ts[..|ts| - 1], ts[|ts| - 1];
      assert ts == front + [last];
      RegroupTurns(front);
      FlattenAppend(front, last);
      if front != [] {
        AppendTurn(Flatten(front), last);
      } else {
        assert Flatten(front) + last == last;
        AppendTurn([], last);
        assert [] + last == last;
      }
    }
  }

  /** Partitioning loses nothing and puts every message in its place. */
  lemma PartitionRoundTrip(ms: seq<Message>)
    ensures Reassemble(PartitionOf(ms)) == ms
    ensures Shaped(PartitionOf(ms).turns)
  {
    hide TurnsOf, Flatten, Shaped;
    var rest := AfterSystem(ms);
    TurnsPartition(rest[SummaryLength(rest)..]);
  }

  /** A reassembled partition partitions into itself, if its parts are recognisable. */
  lemma PartitionReassembled(system: Option<Message>, summary: seq<Message>, ts: seq<seq<Message>>)
    requires system.Some? ==> system.value.role == SYSTEM
    requires system.None? && summary + Flatten(ts) != [] ==> (summary + Flatten(ts))[0].role != SYSTEM
    requires Shaped(ts)
    requires SummaryLength(summary + Flatten(ts)) == |summary|
    ensures PartitionOf(Reassemble(Partition(system, summary, ts))) == Partition(system, summary, ts)
  {
    hide TurnsOf, SummaryLength, Flatten, Shaped, SystemSeq, SystemOf, AfterSystem;
    RegroupTurns(ts);
    var flat := Flatten(ts);
    assert SystemSeq(system) + summary + flat == SystemSeq(system) + (summary + flat);
    PrependSystem(system, summary + flat);
    assert (summary + flat)[..|summary|] == summary && (summary + flat)[|summary|..] == flat;
  }

  lemma PrependSystem(system: Option<Message>, tail: seq<Message>)
    requires system.Some? ==> system.value.role == SYSTEM
    requires system.None? && tail != [] ==> tail[0].role != SYSTEM
    ensures SystemOf(SystemSeq(system) + tail) == system && AfterSystem(SystemSeq(system) + tail) == tail
  {
    if system.Some? {
      assert ([system.value] + tail)[1..] == tail;
    } else {
      assert [] + tail == tail;
    }
  }

  // ------------------------------------------------------------------------
  // Pruning
  // ------------------------------------------------------------------------

  /**
   * The pruning of one tool-result text, by tool name: the new text and whether it changed; or it raises,
   * as it does for a location that is not made of numbers.
   */
  datatype Pruner = Pruner(rewrite: (Option<string>, Option<string>) -> (string, bool),
                           raises: (Option<string>, Option<string>) -> bool)

  function PruneMessage(m: Message, pruner: Pruner): Message {
    match m.role
    case TOOL => Message(TOOL, Some(pruner.rewrite(m.name, m.content).0), [], m.toolCallId, m.name, None)
    case USER => if m.imageId.Some? then Message(USER, m.content, [], None, None, None) else m
    case _ => m
  }

  predicate PruneChanges(m: Message, pruner: Pruner) {
    match m.role
    case TOOL => pruner.rewrite(m.name, m.content).1 || m.imageId.Some?
    case USER => m.imageId.Some?
    case _ => false
  }

  function PruneTurn(t: seq<Message>, pruner: Pruner): (r: seq<Message>)
    ensures |r| == |t|
  {
    seq(|t|, i requires 0 <= i < |t| => PruneMessage(t[i], pruner))
  }

  function PruneTurns(ts: seq<seq<Message>>, pruner: Pruner): (r: seq<seq<Message>>)
    ensures |r| == |ts|
  {
    seq(|ts|, i requires 0 <= i < |ts| => PruneTurn(ts[i], pruner))
  }

  predicate AnyChange(ts: seq<seq<Message>>, pruner: Pruner) {
    exists t <- ts, m <- t :: PruneChanges(m, pruner)
  }

  predicate PruningFails(m: Message, pruner: Pruner) {
    m.role == TOOL && pruner.raises(m.name, m.content)
  }

  predicate AnyFailure(ts: seq<seq<Message>>, pruner: Pruner) {
    exists t <- ts, m <- t :: PruningFails(m, pruner)
  }

  /** `ts[:-k]`, which for k = 0 is `ts[:0]`. */
  function Older<T>(ts: seq<T>, k: nat): seq<T> {
    if k == 0 || k > |ts| then [] else ts[..|ts| - k]
  }

  /** `ts[-k:]`, which for k = 0 is all of `ts`. */
  function Kept<T>(ts: seq<T>, k: nat): seq<T> {
    if k == 0 || k > |ts| then ts else ts[|ts| - k..]
  }

  lemma OlderAndKept<T>(ts: seq<T>, k: nat)
    ensures Older(ts, k) + Kept(ts, k) == ts
  {
  }

  /** None where the pruning of a text or the final sequence check raises. */
  function Prune(ms: seq<Message>, k: nat, pruner: Pruner): Option<(seq<Message>, bool)> {
    var p := PartitionOf(ms);
    if |p.turns| <= k then Some((ms, false))
    else if AnyFailure(Older(p.turns, k), pruner) then None
    else if !AnyChange(Older(p.turns, k), pruner) then Some((ms, false))
    else
      var pruned := Pruned(p, k, pruner);
      if ValidSequence(pruned) then Some((pruned, true)) else None
  }

  function PrunedTurns(ts: seq<seq<Message>>, k: nat, pruner: Pruner): seq<seq<Message>>
  {
    PruneTurns(Older(ts, k), pruner) + Kept(ts, k)
  }

  function Pruned(p: Partition, k: nat, pruner: Pruner): seq<Message>
  {
    Reassemble(p.(turns := PrunedTurns(p.turns, k, pruner)))
  }

  // Messages that play the same part in the protocol and in a partition.

  predicate Alike(a: Message, b: Message) {
    && a.role == b.role && a.toolCalls == b.toolCalls && a.toolCallId == b.toolCallId
    && (a.role != TOOL ==> a.content == b.content)
  }

  predicate AllAlike(a: seq<Message>, b: seq<Message>) {
    |a| == |b| && forall i :: 0 <= i < |a| ==> Alike(a[i], b[i])
  }

  lemma {:induction false} AlikeScan(pending: set<string>, a: seq<Message>, b: seq<Message>)
    requires AllAlike(a, b)
    ensures Scan(pending, a) == Scan(pending, b)
    decreases a
  {
    if a != [] {
      match Advance(pending, a[0])
      case None =>
      case Some(next) =>
        assert AllAlike(a[1..], b[1..]);
        AlikeScan(next, a[1..], b[1..]);
    }
  }

  lemma AlikeConcat(a: seq<Message>, b: seq<Message>, c: seq<Message>, d: seq<Message>)
    requires AllAlike(a, b) && AllAlike(c, d)
    ensures AllAlike(a + c, b + d)
  {
  }

  /** Every conversation the constructor admits: only ASSISTANT messages carry calls, and so on. */
  predicate AllWellFormed(ms: seq<Message>) {
    forall m <- ms :: m.WellFormed()
  }

  lemma PruneTurnAlike(t: seq<Message>, pruner: Pruner)
    requires AllWellFormed(t)
    ensures AllAlike(t, PruneTurn(t, pruner))
  {
    forall i | 0 <= i < |t|
      ensures Alike(t[i], PruneTurn(t, pruner)[i])
    {
      assert t[i].WellFormed();
    }
  }

  lemma {:induction false} FlattenMembers(ts: seq<seq<Message>>)
    ensures forall t <- ts, m <- t :: m in Flatten(ts)
  {
    if ts != [] {
      FlattenMembers(ts[1..]);
    }
  }

  lemma {:induction false} PruneTurnsAlike(ts: seq<seq<Message>>, pruner: Pruner)
    requires forall t <- ts :: AllWellFormed(t)
    ensures AllAlike(Flatten(ts), Flatten(PruneTurns(ts, pruner)))
  {
    if ts != [] {
      assert PruneTurns(ts, pruner)[1..] == PruneTurns(ts[1..], pruner);
      PruneTurnsAlike(ts[1..], pruner);
      PruneTurnAlike(ts[0], pruner);
      AlikeConcat(ts[0], PruneTurn(ts[0], pruner), Flatten(ts[1..]), Flatten(PruneTurns(ts[1..], pruner)));
    }
  }

  lemma AlikeShaped(ts: seq<seq<Message>>, us: seq<seq<Message>>)
    requires Shaped(ts) && |us| == |ts| && forall i :: 0 <= i < |ts| ==> AllAlike(ts[i], us[i])
    ensures Shaped(us)
  {
    forall i | 0 <= i < |us|
      ensures IsTurn(us[i]) && (i > 0 ==> us[i][0].role == USER)
    {
      assert IsTurn(ts[i]) && AllAlike(ts[i], us[i]);
      assert Alike(ts[i][0], us[i][0]);
      forall j | 1 <= j < |us[i]|
        ensures us[i][j].role != USER
      {
        assert Alike(ts[i][j], us[i][j]);
      }
    }
  }

  lemma AlikeSelf(ms: seq<Message>)
    ensures AllAlike(ms, ms)
  {
  }

  lemma AlikeSummaryLength(a: seq<Message>, b: seq<Message>)
    requires AllAlike(a, b)
    ensures SummaryLength(a) == SummaryLength(b)
  {
    if a != [] {
      assert Alike(a[0], b[0]);
    }
    if |a| > 1 {
      assert Alike(a[1], b[1]);
    }
  }

  lemma PrunedTurnsAlike(ts: seq<seq<Message>>, k: nat, pruner: Pruner)
    requires k <= |ts| && forall t <- ts :: AllWellFormed(t)
    ensures |PrunedTurns(ts, k, pruner)| == |ts|
    ensures forall i :: 0 <= i < |ts| ==> AllAlike(ts[i], PrunedTurns(ts, k, pruner)[i])
    ensures AllAlike(Flatten(ts), Flatten(PrunedTurns(ts, k, pruner)))
    ensures Kept(PrunedTurns(ts, k, pruner), k) == Kept(ts, k)
  {
    var older, kept := Older(ts, k), Kept(ts, k);
    OlderAndKept(ts, k);
    var pruned := PrunedTurns(ts, k, pruner);
    forall i | 0 <= i < |ts|
      ensures AllAlike(ts[i], pruned[i])
    {
      AlikeSelf(ts[i]);
      if i < |older| {
        assert ts[i] == older[i];
        PruneTurnAlike(older[i], pruner);
      }
    }
    PruneTurnsAlike(older, pruner);
    FlattenConcat(older, kept);
    FlattenConcat(PruneTurns(older, pruner), kept);
    AlikeSelf(Flatten(kept));
    AlikeConcat(Flatten(older), Flatten(PruneTurns(older, pruner)), Flatten(kept), Flatten(kept));
  }

  lemma WellFormedTurns(ms: seq<Message>)
    requires AllWellFormed(ms)
    ensures forall t <- PartitionOf(ms).turns :: AllWellFormed(t)
  {
    PartitionRoundTrip(ms);
    FlattenMembers(PartitionOf(ms).turns);
    forall t <- PartitionOf(ms).turns, m <- t
      ensures m.WellFormed()
    {
      assert m in Flatten(PartitionOf(ms).turns);
      assert m in ms;
    }
  }

  lemma ReassembleAlike(system: Option<Message>, summary: seq<Message>, ts: seq<seq<Message>>, us: seq<seq<Message>>)
    requires AllAlike(Flatten(ts), Flatten(us))
    ensures AllAlike(Reassemble(Partition(system, summary, ts)), Reassemble(Partition(system, summary, us)))
    ensures AllAlike(summary + Flatten(ts), summary + Flatten(us))
  {
    AlikeSelf(summary);
    AlikeConcat(summary, summary, Flatten(ts), Flatten(us));
    AlikeSelf(SystemSeq(system) + summary);
    AlikeConcat(SystemSeq(system) + summary, SystemSeq(system) + summary, Flatten(ts), Flatten(us));
  }

  /** Replacing the turns of a partition by look-alikes keeps the partition. */
  lemma ReplaceTurns(ms: seq<Message>, p: Partition, ts: seq<seq<Message>>)
    requires p == PartitionOf(ms)
    requires AllAlike(Flatten(p.turns), Flatten(ts)) && Shaped(ts)
    ensures AllAlike(ms, Reassemble(p.(turns := ts)))
    ensures PartitionOf(Reassemble(p.(turns := ts))) == p.(turns := ts)
  {
    PartitionRoundTrip(ms);
    ReassembleAlike(p.system, p.summary, p.turns, ts);
    RestOfPartition(ms);
    var rest, tail := p.summary + Flatten(p.turns), p.summary + Flatten(ts);
    AlikeSummaryLength(rest, tail);
    if tail != [] {
      assert Alike(rest[0], tail[0]);
    }
    PartitionReassembled(p.system, p.summary, ts);
  }

  lemma RestOfPartition(ms: seq<Message>)
    ensures var p := PartitionOf(ms);
            && AfterSystem(ms) == p.summary + Flatten(p.turns)
            && ms == SystemSeq(p.system) + (p.summary + Flatten(p.turns))
            && SummaryLength(p.summary + Flatten(p.turns)) == |p.summary|
  {
    hide TurnsOf, Flatten, Shaped, SummaryLength;
    var rest := AfterSystem(ms);
    TurnsPartition(rest[SummaryLength(rest)..]);
    assert rest == rest[..SummaryLength(rest)] + rest[SummaryLength(rest)..];
  }

  /** Pruning changes texts and images of old turns only: every message keeps its part, every kept turn its text. */
  lemma PrunedKeepsStructure(ms: seq<Message>, k: nat, pruner: Pruner)
    requires AllWellFormed(ms) && k <= |PartitionOf(ms).turns|
    ensures var p := PartitionOf(ms);
            && AllAlike(ms, Pruned(p, k, pruner))
            && PartitionOf(Pruned(p, k, pruner)) == p.(turns := PrunedTurns(p.turns, k, pruner))
            && Kept(PrunedTurns(p.turns, k, pruner), k) == Kept(p.turns, k)
  {
    var p := PartitionOf(ms);
    PartitionRoundTrip(ms);
    WellFormedTurns(ms);
    PrunedTurnsAlike(p.turns, k, pruner);
    AlikeShaped(p.turns, PrunedTurns(p.turns, k, pruner));
    ReplaceTurns(ms, p, PrunedTurns(p.turns, k, pruner));
  }

  /** An old tool result has a text whose pruning raises. */
  predicate PruneRaises(ms: seq<Message>, k: nat, pruner: Pruner) {
    |PartitionOf(ms).turns| > k && AnyFailure(Older(PartitionOf(ms).turns, k), pruner)
  }

  /**
   * Pruning a valid conversation raises exactly for an old text that cannot be pruned, never because of the
   * sequence check; otherwise it stays valid and every message keeps its place.
   */
  lemma PruneKeepsProtocol(ms: seq<Message>, k: nat, pruner: Pruner)
    requires AllWellFormed(ms) && ValidSequence(ms)
    ensures Prune(ms, k, pruner).None? <==> PruneRaises(ms, k, pruner)
    ensures Prune(ms, k, pruner).Some? ==>
            var (r, changed) := Prune(ms, k, pruner).value;
            && ValidSequence(r) && AllAlike(ms, r) && (!changed ==> r == ms)
            && PartitionOf(r).system == PartitionOf(ms).system
            && PartitionOf(r).summary == PartitionOf(ms).summary
            && |PartitionOf(r).turns| == |PartitionOf(ms).turns|
            && (|PartitionOf(ms).turns| > k ==> Kept(PartitionOf(r).turns, k) == Kept(PartitionOf(ms).turns, k))
  {
    AlikeSelf(ms);
    var p := PartitionOf(ms);
    if |p.turns| > k {
      PrunedKeepsStructure(ms, k, pruner);
      AlikeScan({}, ms, Pruned(p, k, pruner));
      WellFormedTurns(ms);
      PrunedTurnsAlike(p.turns, k, pruner);
    }
  }

  // ------------------------------------------------------------------------
  // Compaction
  // ------------------------------------------------------------------------

  /**
   * The text of the rolling memory that absorbed a prior summary and older turns; or the extraction raises,
   * as it does for a property that is not a number.
   */
  datatype Summarizer = Summarizer(text: (seq<Message>, seq<seq<Message>>) -> string,
                                   raises: (seq<Message>, seq<seq<Message>>) -> bool)

  function SummaryMessages(text: string): seq<Message> {
    [UserMessage(SUMMARY_MARKER + "\n" + SUMMARY_PREAMBLE + text, None),
     AssistantMessage(Some(ACKNOWLEDGEMENT), [])]
  }

  function Compacted(p: Partition, k: nat, summarizer: Summarizer): seq<Message>
  {
    Reassemble(Partition(p.system, SummaryMessages(summarizer.text(p.summary, Older(p.turns, k))), Kept(p.turns, k)))
  }

  /** The new conversation and whether it was compacted; None where something inside raises. */
  function Compact(ms: seq<Message>, trigger: nat, k: nat, pruner: Pruner, summarizer: Summarizer)
    : Option<(seq<Message>, bool)>
  {
    if ContextGuard.Chars(ms) <= trigger || |PartitionOf(ms).turns| <= k then Some((ms, false))
    else
      match Prune(ms, k, pruner)
      case None => None
      case Some((pruned, _)) =>
        var p := PartitionOf(pruned);
        var r := Compacted(p, k, summarizer);
        if !summarizer.raises(p.summary, Older(p.turns, k)) && ValidSequence(r) then Some((r, true)) else None
  }

  lemma SummaryRecognised(text: string)
    ensures IsSummary(SummaryMessages(text)[0]) && IsAcknowledgement(SummaryMessages(text)[1])
  {
    var content := SUMMARY_MARKER + "\n" + SUMMARY_PREAMBLE + text;
    assert content == SUMMARY_MARKER + ("\n" + SUMMARY_PREAMBLE + text);
    assert content[0..] == content && OccursAt(content, SUMMARY_MARKER, 0);
    assert content != "" by { assert |SUMMARY_MARKER| > 0; }
    assert ACKNOWLEDGEMENT[0..] == ACKNOWLEDGEMENT && OccursAt(ACKNOWLEDGEMENT, ACKNOWLEDGED, 0);
    assert ACKNOWLEDGEMENT != "" by { assert |ACKNOWLEDGED| > 0; }
  }

  lemma SummaryValid(text: string)
    ensures ValidSequence(SummaryMessages(text))
  {
    var s := SummaryMessages(text);
    LoneScan(s[..1]);
    LoneScan(s[1..]);
    assert s == s[..1] + s[1..];
    ValidConcat(s[..1], s[1..]);
  }

  /** The last turns of a valid conversation are valid on their own. */
  lemma KeptTurnsValid(ms: seq<Message>, k: nat)
    requires ValidSequence(ms) && 1 <= k < |PartitionOf(ms).turns|
    ensures ValidSequence(Flatten(Kept(PartitionOf(ms).turns, k)))
  {
    var p := PartitionOf(ms);
    var older, kept := Older(p.turns, k), Kept(p.turns, k);
    PartitionRoundTrip(ms);
    OlderAndKept(p.turns, k);
    FlattenConcat(older, kept);
    var before := SystemSeq(p.system) + p.summary + Flatten(older);
    var after := Flatten(kept);
    assert ms == before + after;
    assert kept[0] == p.turns[|p.turns| - k] && kept[0][0].role == USER;
    assert after[0] == kept[0][0] && ms[|before|] == after[0];
    ValidBeforeUser(ms, |before|);
    assert ms[|before|..] == after;
  }

  lemma CompactedKeepsStructure(p: Partition, k: nat, summarizer: Summarizer)
    requires Shaped(p.turns) && k <= |p.turns| && (p.system.Some? ==> p.system.value.role == SYSTEM)
    ensures PartitionOf(Compacted(p, k, summarizer)) ==
            Partition(p.system, SummaryMessages(summarizer.text(p.summary, Older(p.turns, k))), Kept(p.turns, k))
  {
    var summary := SummaryMessages(summarizer.text(p.summary, Older(p.turns, k)));
    SummaryRecognised(summarizer.text(p.summary, Older(p.turns, k)));
    var tail := summary + Flatten(Kept(p.turns, k));
    assert tail[0] == summary[0] && tail[1] == summary[1];
    PartitionReassembled(p.system, summary, Kept(p.turns, k));
  }

  lemma SystemValid(system: Option<Message>)
    requires system.Some? ==> system.value.role == SYSTEM
    ensures ValidSequence(SystemSeq(system))
  {
    if system.Some? {
      LoneScan(SystemSeq(system));
    }
  }

  lemma CompactedValid(ms: seq<Message>, k: nat, summarizer: Summarizer)
    requires ValidSequence(ms) && 1 <= k < |PartitionOf(ms).turns|
    ensures ValidSequence(Compacted(PartitionOf(ms), k, summarizer))
  {
    var p := PartitionOf(ms);
    KeptTurnsValid(ms, k);
    SummaryValid(summarizer.text(p.summary, Older(p.turns, k)));
    SystemValid(p.system);
    var summary := SummaryMessages(summarizer.text(p.summary, Older(p.turns, k)));
    ValidConcat(SystemSeq(p.system), summary);
    ValidConcat(SystemSeq(p.system) + summary, Flatten(Kept(p.turns, k)));
  }

  predicate IsSummaryPair(ms: seq<Message>) {
    |ms| == 2 && IsSummary(ms[0]) && IsAcknowledgement(ms[1])
  }

  /** A compaction that goes off prunes a text or sums up turns for which that raises. */
  predicate CompactRaises(ms: seq<Message>, trigger: nat, k: nat, pruner: Pruner, summarizer: Summarizer) {
    && ContextGuard.Chars(ms) > trigger && |PartitionOf(ms).turns| > k
    && match Prune(ms, k, pruner)
       case None => true
       case Some((pruned, _)) => summarizer.raises(PartitionOf(pruned).summary, Older(PartitionOf(pruned).turns, k))
  }

  /** Once over the trigger, compaction sums up the pruned conversation. */
  lemma CompactFires(ms: seq<Message>, trigger: nat, k: nat, pruner: Pruner, summarizer: Summarizer)
    returns (r: seq<Message>)
    requires AllWellFormed(ms) && ValidSequence(ms) && k >= 1
    requires ContextGuard.Chars(ms) > trigger && |PartitionOf(ms).turns| > k
    requires !CompactRaises(ms, trigger, k, pruner, summarizer)
    ensures Compact(ms, trigger, k, pruner, summarizer) == Some((r, true)) && ValidSequence(r)
    ensures PartitionOf(r).system == PartitionOf(ms).system
    ensures PartitionOf(r).turns == Kept(PartitionOf(ms).turns, k)
    ensures IsSummaryPair(PartitionOf(r).summary)
  {
    PruneKeepsProtocol(ms, k, pruner);
    var pruned := Prune(ms, k, pruner).value.0;
    var p := PartitionOf(pruned);
    r := Compacted(p, k, summarizer);
    PartitionRoundTrip(pruned);
    CompactedValid(pruned, k, summarizer);
    CompactedKeepsStructure(p, k, summarizer);
    SummaryRecognised(summarizer.text(p.summary, Older(p.turns, k)));
  }

  /**
   * Compacting a valid conversation with at least one retained turn raises exactly where a text cannot be
   * pruned or summed up, never because of a sequence check. Otherwise it gives a valid conversation: the old
   * one, or the system message, one summary pair and exactly the last k turns, word for word. It does the
   * latter exactly when the trigger is exceeded and there are more than k turns.
   */
  lemma CompactKeepsMeaning(ms: seq<Message>, trigger: nat, k: nat, pruner: Pruner, summarizer: Summarizer)
    requires AllWellFormed(ms) && ValidSequence(ms) && k >= 1
    ensures Compact(ms, trigger, k, pruner, summarizer).None? <==> CompactRaises(ms, trigger, k, pruner, summarizer)
    ensures Compact(ms, trigger, k, pruner, summarizer).Some? ==>
            var (r, compacted) := Compact(ms, trigger, k, pruner, summarizer).value;
            var p, q := PartitionOf(ms), PartitionOf(r);
            && ValidSequence(r)
            && (compacted <==> ContextGuard.Chars(ms) > trigger && |p.turns| > k)
            && (if compacted then q.system == p.system && q.turns == Kept(p.turns, k) && IsSummaryPair(q.summary)
                else r == ms)
  {
    if ContextGuard.Chars(ms) > trigger && |PartitionOf(ms).turns| > k
      && !CompactRaises(ms, trigger, k, pruner, summarizer) {
      var r := CompactFires(ms, trigger, k, pruner, summarizer);
    }
  }

  /** A compacted conversation is never compacted again, whatever the trigger. */
  lemma CompactTwiceIsOnce(ms: seq<Message>, trigger: nat, again: nat, k: nat, pruner: Pruner, summarizer: Summarizer)
    requires AllWellFormed(ms) && ValidSequence(ms) && k >= 1
    requires Compact(ms, trigger, k, pruner, summarizer).Some? && Compact(ms, trigger, k, pruner, summarizer).value.1
    ensures var r := Compact(ms, trigger, k, pruner, summarizer).value.0;
            Compact(r, again, k, pruner, summarizer) == Some((r, false))
  {
    CompactKeepsMeaning(ms, trigger, k, pruner, summarizer);
    var r := Compact(ms, trigger, k, pruner, summarizer).value.0;
    assert |PartitionOf(r).turns| <= k;
  }

  lemma NothingOlder(ms: seq<Message>, pruner: Pruner)
    ensures Prune(ms, 0, pruner) == Some((ms, false))
  {
  }

  /** With no turn to retain the slice `[-0:]` retains them all: the summary is added, nothing is dropped. */
  lemma CompactRetainingNoneKeepsAll(ms: seq<Message>, trigger: nat, pruner: Pruner, summarizer: Summarizer)
    requires ContextGuard.Chars(ms) > trigger && PartitionOf(ms).turns != []
    requires Compact(ms, trigger, 0, pruner, summarizer).Some?
    ensures var r := Compact(ms, trigger, 0, pruner, summarizer).value.0;
            PartitionOf(r).turns == PartitionOf(ms).turns && |PartitionOf(r).summary| == 2
  {
    NothingOlder(ms, pruner);
    PartitionRoundTrip(ms);
    CompactedKeepsStructure(PartitionOf(ms), 0, summarizer);
  }

  // Pruning and compaction keep the constructor's rules, too.

  lemma {:induction false} FlattenWellFormed(ts: seq<seq<Message>>)
    requires forall t <- ts :: AllWellFormed(t)
    ensures AllWellFormed(Flatten(ts))
  {
    if ts != [] {
      assert forall t <- ts[1..] :: t in ts;
      FlattenWellFormed(ts[1..]);
      assert ts[0] in ts && Flatten(ts) == ts[0] + Flatten(ts[1..]);
    }
  }

  lemma ReassembleWellFormed(p: Partition)
    requires p.system.Some? ==> p.system.value.WellFormed()
    requires AllWellFormed(p.summary) && forall t <- p.turns :: AllWellFormed(t)
    ensures AllWellFormed(Reassemble(p))
  {
    FlattenWellFormed(p.turns);
  }

  lemma PartsWellFormed(ms: seq<Message>)
    requires AllWellFormed(ms)
    ensures var p := PartitionOf(ms);
            && (p.system.Some? ==> p.system.value.WellFormed())
            && AllWellFormed(p.summary) && forall t <- p.turns :: AllWellFormed(t)
  {
    WellFormedTurns(ms);
    PartitionRoundTrip(ms);
    var p := PartitionOf(ms);
    assert forall m <- p.summary :: m in SystemSeq(p.system) + p.summary + Flatten(p.turns);
    if p.system.Some? {
      assert p.system.value in SystemSeq(p.system) + p.summary + Flatten(p.turns);
    }
  }

  lemma PruneTurnWellFormed(t: seq<Message>, pruner: Pruner)
    requires AllWellFormed(t)
    ensures AllWellFormed(PruneTurn(t, pruner))
  {
    var r := PruneTurn(t, pruner);
    forall i | 0 <= i < |r|
      ensures r[i].WellFormed()
    {
      assert t[i] in t;
    }
  }

  lemma PruneTurnsWellFormed(ts: seq<seq<Message>>, k: nat, pruner: Pruner)
    requires forall t <- ts :: AllWellFormed(t)
    ensures forall t <- PrunedTurns(ts, k, pruner) :: AllWellFormed(t)
  {
    var older := Older(ts, k);
    forall i | 0 <= i < |older|
      ensures AllWellFormed(PruneTurns(older, pruner)[i])
    {
      assert older[i] in ts;
      PruneTurnWellFormed(older[i], pruner);
    }
    assert forall t <- Kept(ts, k) :: t in ts;
  }

  lemma PruneWellFormed(ms: seq<Message>, k: nat, pruner: Pruner)
    requires AllWellFormed(ms) && Prune(ms, k, pruner).Some?
    ensures AllWellFormed(Prune(ms, k, pruner).value.0)
  {
    PartsWellFormed(ms);
    var p := PartitionOf(ms);
    PruneTurnsWellFormed(p.turns, k, pruner);
    ReassembleWellFormed(p.(turns := PrunedTurns(p.turns, k, pruner)));
  }

  lemma SummaryWellFormed()
    ensures forall text :: AllWellFormed(SummaryMessages(text))
  {
  }

  lemma CompactWellFormed(ms: seq<Message>, trigger: nat, k: nat, pruner: Pruner, summarizer: Summarizer)
    requires AllWellFormed(ms) && Compact(ms, trigger, k, pruner, summarizer).Some?
    ensures AllWellFormed(Compact(ms, trigger, k, pruner, summarizer).value.0)
  {
    hide Prune, PartitionOf, ContextGuard.Chars, ValidSequence, SummaryMessages, Reassemble;
    SummaryWellFormed();
    var r := Compact(ms, trigger, k, pruner, summarizer).value;
    if r.1 {
      PruneWellFormed(ms, k, pruner);
      var pruned := Prune(ms, k, pruner).value.0;
      PartsWellFormed(pruned);
      var p := PartitionOf(pruned);
      assert forall t <- Kept(p.turns, k) :: t in p.turns;
      ReassembleWellFormed(Partition(p.system, SummaryMessages(summarizer.text(p.summary, Older(p.turns, k))),
                                     Kept(p.turns, k)));
    }
  }

  // The newest message is never touched, valid conversation or not.

  lemma {:induction false} FlattenLast(ts: seq<seq<Message>>)
    requires ts != [] && ts[|ts| - 1] != []
    ensures Flatten(ts) != [] && Flatten(ts)[|Flatten(ts)| - 1] == ts[|ts| - 1][|ts[|ts| - 1]| - 1]
  {
    if |ts| > 1 {
      FlattenLast(ts[1..]);
    } else {
      assert ts[1..] == [] && Flatten(ts) == ts[0];
    }
  }

  lemma {:induction false} FlattenAtLeast(ts: seq<seq<Message>>)
    requires forall t <- ts :: t != []
    ensures |Flatten(ts)| >= |ts|
  {
    if ts != [] {
      assert forall t <- ts[1..] :: t in ts;
      FlattenAtLeast(ts[1..]);
      assert ts[0] in ts;
    }
  }

  lemma {:induction false} PrunedLength(ts: seq<seq<Message>>, pruner: Pruner)
    ensures |Flatten(PruneTurns(ts, pruner))| == |Flatten(ts)|
  {
    if ts != [] {
      assert PruneTurns(ts, pruner)[1..] == PruneTurns(ts[1..], pruner);
      PrunedLength(ts[1..], pruner);
    }
  }

  lemma ReassembleLast(p: Partition)
    requires p.turns != [] && p.turns[|p.turns| - 1] != []
    ensures Reassemble(p) != []
            && Reassemble(p)[|Reassemble(p)| - 1] == p.turns[|p.turns| - 1][|p.turns[|p.turns| - 1]| - 1]
  {
    FlattenLast(p.turns);
  }

  lemma PruneKeepsLast(ms: seq<Message>, k: nat, pruner: Pruner)
    requires ms != [] && k >= 1 && Prune(ms, k, pruner).Some?
    ensures var r := Prune(ms, k, pruner).value.0;
            |r| == |ms| && r[|r| - 1] == ms[|ms| - 1]
  {
    hide PartitionOf, ValidSequence;
    var p := PartitionOf(ms);
    PartitionRoundTrip(ms);
    if |p.turns| > k {
      var older, kept := Older(p.turns, k), Kept(p.turns, k);
      OlderAndKept(p.turns, k);
      assert kept[|kept| - 1] == p.turns[|p.turns| - 1] && IsTurn(p.turns[|p.turns| - 1]);
      var turns := PrunedTurns(p.turns, k, pruner);
      assert turns[|turns| - 1] == kept[|kept| - 1];
      FlattenConcat(older, kept);
      FlattenConcat(PruneTurns(older, pruner), kept);
      PrunedLength(older, pruner);
      ReassembleLast(p);
      ReassembleLast(p.(turns := turns));
    }
  }

  /** A user's message at the end of three or more messages belongs to a turn. */
  lemma LastTurn(ms: seq<Message>)
    requires |ms| >= 3 && ms[|ms| - 1].role == USER
    ensures PartitionOf(ms).turns != []
  {
    var rest := AfterSystem(ms);
    var n := SummaryLength(rest);
    assert rest[|rest| - 1] == ms[|ms| - 1] && |rest| >= 2;
    assert n == 2 ==> IsAcknowledgement(rest[1]);
    assert n < |rest|;
    TurnsPartition(rest[n..]);
    assert Flatten([]) == [];
  }

  lemma CompactKeepsLast(ms: seq<Message>, trigger: nat, k: nat, pruner: Pruner, summarizer: Summarizer)
    requires ms != [] && ms[|ms| - 1].role == USER && k >= 2 && Compact(ms, trigger, k, pruner, summarizer).Some?
    ensures var r := Compact(ms, trigger, k, pruner, summarizer).value.0;
            r != [] && r[|r| - 1] == ms[|ms| - 1]
  {
    hide PartitionOf, ValidSequence, ContextGuard.Chars, Prune;
    if Compact(ms, trigger, k, pruner, summarizer).value.1 {
      PruneKeepsLast(ms, k, pruner);
      var pruned := Prune(ms, k, pruner).value.0;
      PartitionRoundTrip(ms);
      forall t <- PartitionOf(ms).turns
        ensures t != []
      {
        assert IsTurn(t);
      }
      FlattenAtLeast(PartitionOf(ms).turns);
      LastTurn(pruned);
      PartitionRoundTrip(pruned);
      var p := PartitionOf(pruned);
      var kept := Kept(p.turns, k);
      assert IsTurn(p.turns[|p.turns| - 1]) && kept[|kept| - 1] == p.turns[|p.turns| - 1];
      ReassembleLast(p);
      ReassembleLast(Partition(p.system, SummaryMessages(summarizer.text(p.summary, Older(p.turns, k))), kept));
    }
  }

  // ------------------------------------------------------------------------
  // What pruning and compaction leave, message by message
  // ------------------------------------------------------------------------

  function Users(ms: seq<Message>): nat {
    if ms == [] then 0 else (if ms[0].role == USER then 1 else 0) + Users(ms[1..])
  }

  lemma {:induction false} UsersConcat(a: seq<Message>, b: seq<Message>)
    ensures Users(a + b) == Users(a) + Users(b)
  {
    if a == [] {
      assert a + b == b;
    } else {
      assert (a + b)[1..] == a[1..] + b;
      UsersConcat(a[1..], b);
    }
  }

  lemma {:induction false} NoUsers(ms: seq<Message>)
    requires forall m <- ms :: m.role != USER
    ensures Users(ms) == 0
  {
    if ms != [] {
      assert ms[0] in ms;
      assert forall m <- ms[1..] :: m in ms;
      NoUsers(ms[1..]);
    }
  }

  /** Turns that all open with a USER message are as many as there are USER messages. */
  lemma {:induction false} TurnsAreUsers(ts: seq<seq<Message>>)
    requires forall t: seq<Message> :: t in ts ==> IsTurn(t) && t[0].role == USER
    ensures Users(Flatten(ts)) == |ts|
  {
    if ts != [] {
      var t := ts[0];
      assert t in ts && forall u <- ts[1..] :: u in ts;
      NoUsers(t[1..]);
      UsersConcat(t, Flatten(ts[1..]));
      TurnsAreUsers(ts[1..]);
    }
  }

  /**
   * What a conversation opens with: its system message and a prior summary, and its acknowledgement, if they
   * are there.
   */
  function HeadLength(ms: seq<Message>): (h: nat)
    ensures h <= |ms|
  {
    var s := if ms != [] && ms[0].role == SYSTEM then 1 else 0;
    if s == |ms| || !(ms[s].role == USER && ms[s].content.Some? && Contains(ms[s].content.value, SUMMARY_MARKER)) then s
    else if s + 1 < |ms| && ms[s + 1].role == ASSISTANT && ms[s + 1].content.Some?
            && Contains(ms[s + 1].content.value, ACKNOWLEDGED) then s + 2
    else s + 1
  }

  lemma TextHolds(text: string, part: string)
    requires part != "" && Contains(text, part)
    ensures text != ""
  {
  }

  /** The turns are what follows that opening; each USER message opens one, and so does the first message. */
  lemma PartitionByRoles(ms: seq<Message>)
    ensures var p, h := PartitionOf(ms), HeadLength(ms);
            && Flatten(p.turns) == ms[h..] && SystemSeq(p.system) + p.summary == ms[..h]
            && (p.system.Some? <==> ms != [] && ms[0].role == SYSTEM)
            && |p.turns| == Users(ms[h..]) + (if h < |ms| && ms[h].role != USER then 1 else 0)
  {
    hide Contains, Flatten, TurnsOf;
    var p, h := PartitionOf(ms), HeadLength(ms);
    PartitionRoundTrip(ms);
    var rest := AfterSystem(ms);
    if rest != [] && rest[0].content.Some? && Contains(rest[0].content.value, SUMMARY_MARKER) {
      TextHolds(rest[0].content.value, SUMMARY_MARKER);
    }
    if |rest| > 1 && rest[1].content.Some? && Contains(rest[1].content.value, ACKNOWLEDGED) {
      TextHolds(rest[1].content.value, ACKNOWLEDGED);
    }
    assert SystemSeq(p.system) + p.summary == ms[..h];
    assert ms == ms[..h] + ms[h..];
    assert Flatten(p.turns) == ms[h..];
    CountTurns(p.turns);
  }

  lemma CountTurns(ts: seq<seq<Message>>)
    requires Shaped(ts)
    ensures var flat := Flatten(ts);
            |ts| == Users(flat) + (if flat != [] && flat[0].role != USER then 1 else 0)
  {
    if ts != [] {
      var t := ts[0];
      assert IsTurn(t);
      forall u: seq<Message> | u in ts[1..]
        ensures IsTurn(u) && u[0].role == USER
      {
        var i :| 0 <= i < |ts[1..]| && ts[1..][i] == u;
        assert ts[i + 1] == u;
      }
      TurnsAreUsers(ts[1..]);
      NoUsers(t[1..]);
      UsersConcat(t, Flatten(ts[1..]));
    }
  }

  /** The last k turns start at n: with a USER message, the k-th from the end. */
  predicate LastTurnsAt(ms: seq<Message>, k: nat, n: nat) {
    n < |ms| && ms[n].role == USER && Users(ms[n..]) == k
  }

  lemma KeptStartsAt(ms: seq<Message>, k: nat) returns (n: nat)
    requires 1 <= k < |PartitionOf(ms).turns|
    ensures LastTurnsAt(ms, k, n) && HeadLength(ms) <= n
    ensures var p := PartitionOf(ms);
            && Flatten(Kept(p.turns, k)) == ms[n..] && Flatten(Older(p.turns, k)) == ms[HeadLength(ms)..n]
  {
    hide HeadLength, TurnsOf, PartitionOf;
    var p, h := PartitionOf(ms), HeadLength(ms);
    PartitionRoundTrip(ms);
    PartitionByRoles(ms);
    var older, kept := Older(p.turns, k), Kept(p.turns, k);
    OlderAndKept(p.turns, k);
    FlattenConcat(older, kept);
    n := h + |Flatten(older)|;
    assert ms == ms[..h] + (Flatten(older) + Flatten(kept));
    forall t: seq<Message> | t in kept
      ensures IsTurn(t) && t[0].role == USER
    {
      var i :| 0 <= i < |kept| && kept[i] == t;
      assert p.turns[|p.turns| - k + i] == t;
    }
    TurnsAreUsers(kept);
    assert kept[0] in kept && Flatten(kept)[0] == kept[0][0];
    assert ms[n..] == Flatten(kept) && ms[h..n] == Flatten(older);
  }

  /** An old message after pruning: a tool result gets the rewritten text, and no old message keeps its image. */
  predicate PrunedTo(m: Message, r: Message, pruner: Pruner) {
    if m.role == TOOL then
      r == Message(TOOL, Some(pruner.rewrite(m.name, m.content).0), [], m.toolCallId, m.name, None)
    else if m.role == USER && m.imageId.Some? then r == Message(USER, m.content, [], None, None, None)
    else r == m
  }

  lemma {:induction false} FlattenPruned(ts: seq<seq<Message>>, pruner: Pruner)
    ensures Flatten(PruneTurns(ts, pruner)) == PruneTurn(Flatten(ts), pruner)
  {
    if ts != [] {
      assert PruneTurns(ts, pruner)[1..] == PruneTurns(ts[1..], pruner);
      FlattenPruned(ts[1..], pruner);
      var a, b := ts[0], Flatten(ts[1..]);
      assert PruneTurn(a + b, pruner) == PruneTurn(a, pruner) + PruneTurn(b, pruner);
    }
  }

  /**
   * Pruning leaves a conversation of at most k turns alone. Otherwise exactly the messages between the opening and
   * the last k turns are pruned, each as its role asks, if pruning makes a difference to one of them.
   */
  lemma PruneMessageByMessage(ms: seq<Message>, k: nat, pruner: Pruner)
    requires k >= 1 && Prune(ms, k, pruner).Some?
    ensures var (r, changed) := Prune(ms, k, pruner).value;
            if |PartitionOf(ms).turns| <= k || !changed then r == ms && !changed
            else
              exists n: nat :: LastTurnsAt(ms, k, n) && HeadLength(ms) <= n && |r| == |ms|
                && forall i :: 0 <= i < |ms| ==>
                     if HeadLength(ms) <= i < n then PrunedTo(ms[i], r[i], pruner) else r[i] == ms[i]
  {
    hide PartitionOf, HeadLength, ValidSequence;
    var p := PartitionOf(ms);
    if |p.turns| > k && Prune(ms, k, pruner).value.1 {
      var n := KeptStartsAt(ms, k);
      PartitionByRoles(ms);
      var h, older, kept := HeadLength(ms), Older(p.turns, k), Kept(p.turns, k);
      FlattenPruned(older, pruner);
      FlattenConcat(PruneTurns(older, pruner), kept);
      var r := Pruned(p, k, pruner);
      assert r == ms[..h] + (PruneTurn(ms[h..n], pruner) + ms[n..]);
      assert |r| == |ms|;
      forall i | 0 <= i < |ms|
        ensures if h <= i < n then PrunedTo(ms[i], r[i], pruner) else r[i] == ms[i]
      {
        if h <= i < n {
          assert r[i] == PruneMessage(ms[h..n][i - h], pruner);
        }
      }
    }
  }

  /**
   * Pruning a valid conversation raises exactly if there are more than k turns and one of the tool results between the
   * opening and the last k of them has a text whose pruning raises.
   */
  lemma PruneRaisesExactly(ms: seq<Message>, k: nat, pruner: Pruner)
    requires AllWellFormed(ms) && ValidSequence(ms) && k >= 1
    ensures |PartitionOf(ms).turns| <= k ==> Prune(ms, k, pruner).Some?
    ensures |PartitionOf(ms).turns| > k ==>
              exists n: nat :: LastTurnsAt(ms, k, n) && HeadLength(ms) <= n
                && (Prune(ms, k, pruner).None? <==>
                      exists m <- ms[HeadLength(ms)..n] :: m.role == TOOL && pruner.raises(m.name, m.content))
  {
    hide PartitionOf, HeadLength, ValidSequence, Prune;
    PruneKeepsProtocol(ms, k, pruner);
    if |PartitionOf(ms).turns| > k {
      var older := Older(PartitionOf(ms).turns, k);
      var n := KeptStartsAt(ms, k);
      FlattenMembers(older);
      MembersFlattened(older);
      assert AnyFailure(older, pruner) <==> exists m <- Flatten(older) :: PruningFails(m, pruner);
    }
  }

  /** Whether a message would be changed: a text that is rewritten, or an image that goes. */
  lemma PruneChangesExactly(ms: seq<Message>, k: nat, pruner: Pruner)
    requires k >= 1 && Prune(ms, k, pruner).Some? && |PartitionOf(ms).turns| > k
    ensures exists n: nat :: LastTurnsAt(ms, k, n) && HeadLength(ms) <= n
              && (Prune(ms, k, pruner).value.1 <==>
                    exists m <- ms[HeadLength(ms)..n] ::
                      || (m.role == TOOL && (pruner.rewrite(m.name, m.content).1 || m.imageId.Some?))
                      || (m.role == USER && m.imageId.Some?))
  {
    hide PartitionOf, HeadLength, ValidSequence;
    var older := Older(PartitionOf(ms).turns, k);
    var n := KeptStartsAt(ms, k);
    FlattenMembers(older);
    MembersFlattened(older);
    assert Prune(ms, k, pruner).value.1 <==> AnyChange(older, pruner);
    assert AnyChange(older, pruner) <==> exists m <- Flatten(older) :: PruneChanges(m, pruner);
  }

  lemma {:induction false} MembersFlattened(ts: seq<seq<Message>>)
    ensures forall m <- Flatten(ts) :: exists t <- ts :: m in t
  {
    if ts != [] {
      MembersFlattened(ts[1..]);
      assert ts[0] in ts && forall t <- ts[1..] :: t in ts;
    }
  }

  /** The two messages that stand for the older turns: the marked summary and its acknowledgement. */
  predicate SumsUp(pair: seq<Message>, text: string) {
    && |pair| == 2
    && pair[0] == Message(USER, Some(SUMMARY_MARKER + "\n" + SUMMARY_PREAMBLE + text), [], None, None, None)
    && pair[1] == Message(ASSISTANT, Some(ACKNOWLEDGEMENT), [], None, None, None)
  }

  /** Pruning keeps the opening and the number of messages. */
  lemma PrunedOpening(ms: seq<Message>, k: nat, pruner: Pruner)
    requires AllWellFormed(ms) && ValidSequence(ms) && Prune(ms, k, pruner).Some?
    ensures var r := Prune(ms, k, pruner).value.0;
            && |r| == |ms| && HeadLength(r) == HeadLength(ms)
            && PartitionOf(r).system == PartitionOf(ms).system && PartitionOf(r).summary == PartitionOf(ms).summary
  {
    hide PartitionOf, HeadLength, ValidSequence, Prune;
    PruneKeepsProtocol(ms, k, pruner);
    PartitionByRoles(ms);
    PartitionByRoles(Prune(ms, k, pruner).value.0);
  }

  /** The old turns of a conversation are those of the messages between its opening and its last k turns. */
  lemma OldTurns(ms: seq<Message>, k: nat) returns (n: nat)
    requires 1 <= k < |PartitionOf(ms).turns|
    ensures LastTurnsAt(ms, k, n) && HeadLength(ms) <= n
    ensures var p := PartitionOf(ms);
            Flatten(Kept(p.turns, k)) == ms[n..] && Older(p.turns, k) == TurnsOf(ms[HeadLength(ms)..n])
  {
    hide PartitionOf, HeadLength, TurnsOf;
    n := KeptStartsAt(ms, k);
    PartitionRoundTrip(ms);
    OlderShaped(PartitionOf(ms).turns, k);
    RegroupTurns(Older(PartitionOf(ms).turns, k));
  }

  /** The compacted conversation is made of these parts of the pruned one. */
  predicate CompactedFrom(pruned: seq<Message>, k: nat, summarizer: Summarizer, r: seq<Message>, n: nat) {
    var h, s := HeadLength(pruned), if pruned != [] && pruned[0].role == SYSTEM then 1 else 0;
    && LastTurnsAt(pruned, k, n) && s <= h <= n && s + 2 <= |r|
    && r[..s] == pruned[..s] && r[s + 2..] == pruned[n..]
    && SumsUp(r[s..s + 2], summarizer.text(pruned[s..h], TurnsOf(pruned[h..n])))
  }

  lemma CompactedParts(pruned: seq<Message>, k: nat, summarizer: Summarizer) returns (n: nat)
    requires 1 <= k < |PartitionOf(pruned).turns|
    ensures CompactedFrom(pruned, k, summarizer, Compacted(PartitionOf(pruned), k, summarizer), n)
  {
    hide PartitionOf, HeadLength, TurnsOf;
    var p := PartitionOf(pruned);
    n := OldTurns(pruned, k);
    OpeningParts(pruned);
    var pair := SummaryMessages(summarizer.text(p.summary, Older(p.turns, k)));
    var r := Compacted(p, k, summarizer);
    var s := |SystemSeq(p.system)|;
    assert r == SystemSeq(p.system) + (pair + pruned[n..]);
    assert r[s..s + 2] == pair && r[..s] == SystemSeq(p.system) && r[s + 2..] == pruned[n..];
  }

  /**
   * A compacted conversation, word by word: its system message, then the summary of what stood before the last k
   * turns, prior summary included and after pruning, with its acknowledgement, then those turns.
   */
  lemma CompactMessageByMessage(ms: seq<Message>, trigger: nat, k: nat, pruner: Pruner, summarizer: Summarizer)
    requires AllWellFormed(ms) && ValidSequence(ms) && k >= 1
    requires Compact(ms, trigger, k, pruner, summarizer).Some? && Compact(ms, trigger, k, pruner, summarizer).value.1
    ensures Prune(ms, k, pruner).Some?
    ensures var r, pruned := Compact(ms, trigger, k, pruner, summarizer).value.0, Prune(ms, k, pruner).value.0;
            && |pruned| == |ms| && HeadLength(pruned) == HeadLength(ms)
            && exists n: nat :: CompactedFrom(pruned, k, summarizer, r, n)
  {
    hide PartitionOf, HeadLength, TurnsOf, ValidSequence, Prune, ContextGuard.Chars, Compacted;
    PruneKeepsProtocol(ms, k, pruner);
    PrunedOpening(ms, k, pruner);
    var n := CompactedParts(Prune(ms, k, pruner).value.0, k, summarizer);
  }

  lemma OlderShaped(ts: seq<seq<Message>>, k: nat)
    requires Shaped(ts)
    ensures Shaped(Older(ts, k))
  {
  }

  lemma OpeningParts(ms: seq<Message>)
    ensures var p := PartitionOf(ms);
            var s := |SystemSeq(p.system)|;
            && s <= HeadLength(ms) && SystemSeq(p.system) == ms[..s] && p.summary == ms[s..HeadLength(ms)]
            && (s == 1 <==> ms != [] && ms[0].role == SYSTEM)
  {
    hide HeadLength, SummaryLength, TurnsOf;
    var p := PartitionOf(ms);
    PartitionByRoles(ms);
    assert (SystemSeq(p.system) + p.summary)[..|SystemSeq(p.system)|] == SystemSeq(p.system);
    assert (SystemSeq(p.system) + p.summary)[|SystemSeq(p.system)|..] == p.summary;
  }

  // ------------------------------------------------------------------------
  // The loops of the source
  // ------------------------------------------------------------------------

  method PartitionConversation(messages: seq<Message>) returns (p: Partition)
    ensures p == PartitionOf(messages)
  {
    var system: Option<Message> := None;
    var remaining := messages;
    if messages == [] {
      return Partition(None, [], []);
    }
    if messages[0].role == SYSTEM {
      system := Some(messages[0]);
      remaining := messages[1..];
    }
    var summary: seq<Message> := [];
    if remaining != [] && IsSummary(remaining[0]) {
      var idx := 1;
      summary := [remaining[0]];
      if |remaining| > 1 && IsAcknowledgement(remaining[1]) {
        summary := summary + [remaining[1]];
        idx := 2;
      }
      assert summary == remaining[..idx];
      remaining := remaining[idx..];
    }
    var turns := GroupTurns(remaining);
    p := Partition(system, summary, turns);
  }

  method GroupTurns(remaining: seq<Message>) returns (turns: seq<seq<Message>>)
    ensures turns == TurnsOf(remaining)
  {
    turns := [];
    var current: seq<Message> := [];
    for i := 0 to |remaining|
      invariant TurnsOf(remaining[..i]) == turns + (if current == [] then [] else [current])
      invariant current == [] ==> turns == []
    {
      var msg := remaining[i];
      assert remaining[..i + 1][..i] == remaining[..i];
      if msg.role == USER {
        if current != [] {
          turns := turns + [current];
        }
        current := [msg];
      } else {
        if current != [] {
          assert (turns + [current])[..|turns|] == turns;
          current := current + [msg];
        } else {
          current := [msg];
        }
      }
    }
    assert remaining[..|remaining|] == remaining;
    if current != [] {
      turns := turns + [current];
    }
  }

  method PruneCluster(cluster: seq<Message>, pruner: Pruner) returns (raised: bool, pruned: seq<Message>, changed: bool)
    ensures raised <==> exists m <- cluster :: PruningFails(m, pruner)
    ensures !raised ==> pruned == PruneTurn(cluster, pruner)
    ensures !raised ==> (changed <==> exists m <- cluster :: PruneChanges(m, pruner))
  {
    raised, pruned, changed := false, [], false;
    for i := 0 to |cluster|
      invariant |pruned| == i && !raised
      invariant forall j :: 0 <= j < i ==> !PruningFails(cluster[j], pruner)
      invariant forall j :: 0 <= j < i ==> pruned[j] == PruneMessage(cluster[j], pruner)
      invariant changed <==> exists j :: 0 <= j < i && PruneChanges(cluster[j], pruner)
    {
      var msg := cluster[i];
      if msg.role == TOOL {
        if pruner.raises(msg.name, msg.content) {
          assert PruningFails(msg, pruner);
          return true, [], false;
        }
        var (content, wasPruned) := pruner.rewrite(msg.name, msg.content);
        if wasPruned || msg.imageId.Some? {
          changed := true;
        }
        pruned := pruned + [Message(TOOL, Some(content), [], msg.toolCallId, msg.name, None)];
      } else if msg.role == USER {
        if msg.imageId.Some? {
          changed := true;
          pruned := pruned + [Message(USER, msg.content, [], None, None, None)];
        } else {
          pruned := pruned + [msg];
        }
      } else {
        pruned := pruned + [msg];
      }
    }
  }

  method PruneClusters(older: seq<seq<Message>>, pruner: Pruner)
    returns (raised: bool, pruned: seq<seq<Message>>, anyPruned: bool)
    ensures raised <==> AnyFailure(older, pruner)
    ensures !raised ==> pruned == PruneTurns(older, pruner) && (anyPruned <==> AnyChange(older, pruner))
  {
    raised, pruned, anyPruned := false, [], false;
    for i := 0 to |older|
      invariant |pruned| == i && !raised
      invariant forall j :: 0 <= j < i ==> pruned[j] == PruneTurn(older[j], pruner)
      invariant anyPruned <==> exists j :: 0 <= j < i && exists m <- older[j] :: PruneChanges(m, pruner)
      invariant forall j :: 0 <= j < i ==> forall m <- older[j] :: !PruningFails(m, pruner)
    {
      var failed, cluster, changed := PruneCluster(older[i], pruner);
      if failed {
        return true, [], false;
      }
      pruned := pruned + [cluster];
      anyPruned := anyPruned || changed;
    }
  }

  method PruneConversation(messages: seq<Message>, k: nat, pruner: Pruner)
    returns (r: Option<(seq<Message>, bool)>)
    ensures r == Prune(messages, k, pruner)
  {
    var p := PartitionConversation(messages);
    if |p.turns| <= k {
      return Some((messages, false));
    }
    var older, kept := Older(p.turns, k), Kept(p.turns, k);
    var raised, prunedOlder, anyPruned := PruneClusters(older, pruner);
    if raised {
      return None;
    }
    if !anyPruned {
      return Some((messages, false));
    }
    hide PartitionOf, ValidSequence;
    FlattenConcat(prunedOlder, kept);
    var rebuilt := SystemSeq(p.system) + p.summary + Flatten(prunedOlder) + Flatten(kept);
    assert rebuilt == Pruned(p, k, pruner);
    var valid := Check(rebuilt);
    r := if valid then Some((rebuilt, true)) else None;
  }

  method Check(messages: seq<Message>) returns (valid: bool)
    ensures valid <==> ValidSequence(messages)
  {
    var conv := new Conversation();
    conv.messages := messages;
    var error := conv.ValidateSequence();
    valid := error.None?;
  }

  method CompactConversation(messages: seq<Message>, trigger: nat, k: nat, pruner: Pruner, summarizer: Summarizer)
    returns (r: Option<(seq<Message>, bool)>)
    ensures r == Compact(messages, trigger, k, pruner, summarizer)
  {
    var size := ContextGuard.CalculateMessagesChars(messages);
    if size <= trigger {
      return Some((messages, false));
    }
    var p := PartitionConversation(messages);
    if |p.turns| <= k {
      return Some((messages, false));
    }
    var pruned := PruneConversation(messages, k, pruner);
    if pruned.None? {
      return None;
    }
    p := PartitionConversation(pruned.value.0);
    if summarizer.raises(p.summary, Older(p.turns, k)) {
      return None;
    }
    var text := summarizer.text(p.summary, Older(p.turns, k));
    var rebuilt := SystemSeq(p.system) + SummaryMessages(text) + Flatten(Kept(p.turns, k));
    var valid := Check(rebuilt);
    r := if valid then Some((rebuilt, true)) else None;
  }
}
