/** Chat messages and the tool-call protocol of a conversation (agent/models.py). */
module Chat {
  import opened PyText

  datatype Role = SYSTEM | USER | ASSISTANT | TOOL

  /** `arguments` is the JSON text of the argument object. */
  datatype ToolCall = ToolCall(callId: string, toolName: string, arguments: string)

  /** A chat message; an absent and an empty tool-call tuple behave alike and are both `[]`. */
  datatype Message = Message(
    role: Role,
    content: Option<string>,
    toolCalls: seq<ToolCall>,
    toolCallId: Option<string>,
    name: Option<string>,
    imageId: Option<string>)
  {
    /** The role constraints that the constructor enforces. */
    predicate WellFormed() {
      match role
      case SYSTEM => toolCalls == [] && toolCallId.None? && imageId.None?
      case USER => toolCalls == [] && toolCallId.None?
      case ASSISTANT => toolCallId.None? && (content.Some? || toolCalls != [])
      case TOOL => content.Some? && toolCallId.Some? && !Blank(toolCallId.value) && toolCalls == []
    }
  }

  function SystemMessage(content: string): Message {
    Message(SYSTEM, Some(content), [], None, None, None)
  }

  function UserMessage(content: string, imageId: Option<string>): Message {
    Message(USER, Some(content), [], None, None, imageId)
  }

  function AssistantMessage(content: Option<string>, calls: seq<ToolCall>): Message {
    Message(ASSISTANT, content, calls, None, None, None)
  }

  function ToolMessage(content: string, callId: string, name: Option<string>, imageId: Option<string>): Message {
    Message(TOOL, Some(content), [], Some(callId), name, imageId)
  }

  // ------------------------------------------------------------------------
  // The protocol as a scan with the set of unanswered call ids
  // ------------------------------------------------------------------------

  function CallIds(calls: seq<ToolCall>): set<string> {
    set c <- calls :: c.callId
  }

  predicate DistinctIds(calls: seq<ToolCall>) {
    forall i, j :: 0 <= i < j < |calls| ==> calls[i].callId != calls[j].callId
  }

  /** What one message does to the set of unanswered ids; None where the code raises. */
  function Advance(pending: set<string>, m: Message): Option<set<string>> {
    match m.role
    case ASSISTANT =>
      if pending == {} && DistinctIds(m.toolCalls) then Some(CallIds(m.toolCalls)) else None
    case TOOL =>
      if m.toolCallId.Some? && m.toolCallId.value in pending then Some(pending - {m.toolCallId.value}) else None
    case _ =>
      if pending == {} then Some({}) else None
  }

  function Scan(pending: set<string>, ms: seq<Message>): Option<set<string>>
    decreases ms
  {
    if ms == [] then Some(pending)
    else
      match Advance(pending, ms[0])
      case None => None
      case Some(next) => Scan(next, ms[1..])
  }

  /** The conversations that `validate_sequence` accepts. */
  predicate ValidSequence(ms: seq<Message>) {
    Scan({}, ms) == Some({})
  }

  /** A scan of a concatenation continues where the first part stopped. */
  lemma {:induction false} ScanConcat(pending: set<string>, a: seq<Message>, b: seq<Message>)
    ensures Scan(pending, a + b) ==
            match Scan(pending, a) { case None => None case Some(mid) => Scan(mid, b) }
    decreases a
  {
    if a == [] {
      assert a + b == b;
    } else {
      assert (a + b)[1..] == a[1..] + b;
      match Advance(pending, a[0])
      case None =>
      case Some(next) => ScanConcat(next, a[1..], b);
    }
  }

  lemma {:induction false} ScanAppend(pending: set<string>, a: seq<Message>, m: Message)
    ensures Scan(pending, a + [m]) ==
            match Scan(pending, a) { case None => None case Some(mid) => Advance(mid, m) }
  {
    ScanConcat(pending, a, [m]);
    match Scan(pending, a)
    case None =>
    case Some(mid) =>
      assert [m][1..] == [];
  }

  lemma ValidConcat(a: seq<Message>, b: seq<Message>)
    requires ValidSequence(a)
    ensures ValidSequence(a + b) <==> ValidSequence(b)
  {
    ScanConcat({}, a, b);
  }

  /** Wherever a USER or SYSTEM message stands in a valid conversation, everything before it is settled. */
  lemma ValidBeforeUser(ms: seq<Message>, i: nat)
    requires ValidSequence(ms) && i < |ms| && ms[i].role in {USER, SYSTEM}
    ensures ValidSequence(ms[..i]) && ValidSequence(ms[i..])
  {
    assert ms == ms[..i] + ms[i..];
    ScanConcat({}, ms[..i], ms[i..]);
  }

  // ------------------------------------------------------------------------
  // The protocol without a scan: a conversation is a chain of exchanges
  // ------------------------------------------------------------------------

  /** The length of the run of TOOL messages at the front. */
  function ReplyRun(ms: seq<Message>): (n: nat)
    ensures n <= |ms|
    ensures forall i :: 0 <= i < n ==> ms[i].role == TOOL
    ensures n < |ms| ==> ms[n].role != TOOL
  {
    if ms != [] && ms[0].role == TOOL then 1 + ReplyRun(ms[1..]) else 0
  }

  predicate AsksTools(m: Message) {
    m.role == ASSISTANT && m.toolCalls != []
  }

  /** Cut a message list into atomic clusters: a message that asks for tools takes the run of replies along. */
  function Clusters(ms: seq<Message>): seq<seq<Message>> {
    if ms == [] then []
    else
      var k := if AsksTools(ms[0]) then ReplyRun(ms[1..]) + 1 else 1;
      [ms[..k]] + Clusters(ms[k..])
  }

  function Flatten(cs: seq<seq<Message>>): seq<Message> {
    if cs == [] then [] else cs[0] + Flatten(cs[1..])
  }

  predicate AllReplies(rs: seq<Message>) {
    forall r <- rs :: r.role == TOOL && r.toolCallId.Some?
  }

  function ReplyIds(rs: seq<Message>): set<string>
    requires AllReplies(rs)
  {
    set r <- rs :: r.toolCallId.value
  }

  /** One exchange: a lone non-TOOL message, or a request answered call by call, each call exactly once. */
  predicate IsExchange(c: seq<Message>) {
    && c != []
    && if AsksTools(c[0]) then
         && DistinctIds(c[0].toolCalls)
         && AllReplies(c[1..])
         && |c| == 1 + |c[0].toolCalls|
         && ReplyIds(c[1..]) == CallIds(c[0].toolCalls)
       else
         |c| == 1 && c[0].role != TOOL
  }

  lemma {:induction false} FlattenConcat(a: seq<seq<Message>>, b: seq<seq<Message>>)
    ensures Flatten(a + b) == Flatten(a) + Flatten(b)
  {
    if a == [] {
      assert a + b == b;
    } else {
      assert (a + b)[1..] == a[1..] + b;
      FlattenConcat(a[1..], b);
    }
  }

  lemma {:induction false} FlattenClusters(ms: seq<Message>)
    ensures Flatten(Clusters(ms)) == ms
    ensures forall c <- Clusters(ms) :: c != []
  {
    if ms == [] {
      return;
    }
    hide Flatten, AsksTools, Clusters, ReplyRun;
    var k := FirstCluster(ms);
    FlattenClusters(ms[k..]);
    FlattenCons(ms[..k], Clusters(ms[k..]));
  }

  lemma FirstCluster(ms: seq<Message>) returns (k: nat)
    requires ms != []
    ensures 0 < k <= |ms| && Clusters(ms) == [ms[..k]] + Clusters(ms[k..]) && ms == ms[..k] + ms[k..]
  {
    k := if AsksTools(ms[0]) then ReplyRun(ms[1..]) + 1 else 1;
  }

  lemma FlattenCons(c: seq<Message>, cs: seq<seq<Message>>)
    ensures Flatten([c] + cs) == c + Flatten(cs)
  {
    assert ([c] + cs)[1..] == cs;
  }

  lemma CallIdsCount(calls: seq<ToolCall>)
    requires DistinctIds(calls)
    ensures |CallIds(calls)| == |calls|
  {
    if calls != [] {
      var front := calls[..|calls| - 1];
      CallIdsCount(front);
      assert CallIds(calls) == CallIds(front) + {calls[|calls| - 1].callId};
    }
  }

  /** Replies settle a set of ids exactly when they answer each id once. */
  lemma {:induction false} RepliesSettle(pending: set<string>, rs: seq<Message>)
    requires forall r <- rs :: r.role == TOOL
    ensures Scan(pending, rs) == Some({})
            <==> AllReplies(rs) && |rs| == |pending| && ReplyIds(rs) == pending
  {
    if rs == [] {
    } else {
      var r, rest := rs[0], rs[1..];
      assert rs == [r] + rest;
      if r.toolCallId.Some? && r.toolCallId.value in pending {
        var next := pending - {r.toolCallId.value};
        RepliesSettle(next, rest);
        if AllReplies(rs) {
          assert AllReplies(rest);
          assert ReplyIds(rs) == ReplyIds(rest) + {r.toolCallId.value};
          if |rs| == |pending| && ReplyIds(rs) == pending {
            ReplyIdsBound(rest);
            assert |ReplyIds(rest)| <= |next|;
            assert next <= ReplyIds(rest);
            SubsetSameSize(next, ReplyIds(rest));
          }
        }
        if AllReplies(rest) {
          assert AllReplies(rs);
        }
      } else if AllReplies(rs) {
        assert r in rs && r.toolCallId.value in ReplyIds(rs);
      }
    }
  }

  lemma ReplyIdsBound(rs: seq<Message>)
    requires AllReplies(rs)
    ensures |ReplyIds(rs)| <= |rs|
  {
    if rs == [] {
      assert ReplyIds(rs) == {};
    } else {
      ReplyIdsBound(rs[1..]);
      assert rs == [rs[0]] + rs[1..];
      assert ReplyIds(rs) == ReplyIds(rs[1..]) + {rs[0].toolCallId.value};
    }
  }

  lemma SubsetSameSize<T>(a: set<T>, b: set<T>)
    requires a <= b && |b| <= |a|
    ensures a == b
  {
    assert b == a + (b - a);
    assert |b| == |a| + |b - a|;
  }

  /** A single cluster scans from "nothing pending" to "nothing pending" exactly when it is an exchange. */
  lemma ClusterSettles(c: seq<Message>)
    requires c != []
    requires if AsksTools(c[0]) then forall r <- c[1..] :: r.role == TOOL else |c| == 1
    ensures ValidSequence(c) <==> IsExchange(c)
  {
    if AsksTools(c[0]) {
      if DistinctIds(c[0].toolCalls) {
        CallIdsCount(c[0].toolCalls);
        RepliesSettle(CallIds(c[0].toolCalls), c[1..]);
      }
    } else {
      LoneScan(c);
    }
  }

  lemma {:induction false} ScanUnsettled(pending: set<string>, ms: seq<Message>)
    requires pending != {} && (ms != [] ==> ms[0].role != TOOL)
    ensures Scan(pending, ms) != Some({})
  {
  }

  /**
   * The accepted conversations are exactly those whose clusters are all exchanges: every request is
   * followed at once by one reply per call, and no reply stands anywhere else.
   */
  lemma {:induction false} ValidIffExchanges(ms: seq<Message>)
    ensures ValidSequence(ms) <==> forall c <- Clusters(ms) :: IsExchange(c)
  {
    if ms != [] {
      var k := if AsksTools(ms[0]) then ReplyRun(ms[1..]) + 1 else 1;
      var head, tail := ms[..k], ms[k..];
      assert ms == head + tail;
      assert Clusters(ms) == [head] + Clusters(tail);
      ValidIffExchanges(tail);
      ClusterSettles(head);
      ScanConcat({}, head, tail);
      if AsksTools(ms[0]) {
        assert head[1..] == ms[1..][..k - 1];
        match Scan({}, head)
        case None =>
        case Some(left) =>
          if left != {} {
            assert tail != [] ==> tail[0] == ms[1..][k - 1];
            ScanUnsettled(left, tail);
          }
      } else {
        LoneScan(head);
      }
    }
  }

  lemma LoneScan(c: seq<Message>)
    requires |c| == 1 && !AsksTools(c[0])
    ensures Scan({}, c) == if c[0].role == TOOL then None else Some({})
  {
    assert c[1..] == [];
    if c[0].role == ASSISTANT {
      assert CallIds(c[0].toolCalls) == {};
    }
  }

  // ------------------------------------------------------------------------
  // The container
  // ------------------------------------------------------------------------

  /** Why a message sequence was refused, with the index of the offending message. */
  datatype SequenceError =
    | PendingCalls(index: nat)
    | DuplicateCallId(index: nat, callId: string)
    | NoPendingCall(index: nat)
    | UnmatchedReply(index: nat)
    | UnresolvedAtEnd

  /** How a message clashes with the calls that are open before it. */
  predicate Clashes(open: set<string>, m: Message, error: SequenceError) {
    match error
    case PendingCalls(_) => open != {} && m.role != TOOL
    case DuplicateCallId(_, id) =>
      && open == {} && m.role == ASSISTANT
      && exists i, j :: 0 <= i < j < |m.toolCalls| && m.toolCalls[i].callId == id == m.toolCalls[j].callId
    case NoPendingCall(_) => open == {} && m.role == TOOL
    case UnmatchedReply(_) => open != {} && m.role == TOOL && (m.toolCallId.Some? ==> m.toolCallId.value !in open)
    case UnresolvedAtEnd => false
  }

  /** What a refusal says is so: the message at its index is the one that clashes, or calls are left open. */
  predicate Explains(ms: seq<Message>, error: SequenceError) {
    if error.UnresolvedAtEnd? then Scan({}, ms).Some? && Scan({}, ms).value != {}
    else
      && error.index < |ms| && Scan({}, ms[..error.index]).Some?
      && Clashes(Scan({}, ms[..error.index]).value, ms[error.index], error)
  }

  class Conversation {
    var messages: seq<Message>

    constructor ()
      ensures messages == []
    {
      messages := [];
    }

    method AddMessage(m: Message)
      modifies this
      ensures messages == old(messages) + [m]
    {
      messages := messages + [m];
    }

    method Clear()
      modifies this
      ensures messages == []
    {
      messages := [];
    }

    /** The most recent request for `callId`, if any. */
    method FindToolCall(callId: string) returns (r: Option<ToolCall>)
      ensures r.Some? ==> exists m <- messages :: r.value in m.toolCalls && r.value.callId == callId
      ensures r.None? ==> forall m <- messages, tc <- m.toolCalls :: tc.callId != callId
    {
      var i := |messages|;
      while i > 0
        invariant 0 <= i <= |messages|
        invariant forall k, tc :: i <= k < |messages| && tc in messages[k].toolCalls ==> tc.callId != callId
      {
        i := i - 1;
        var calls := messages[i].toolCalls;
        for j := 0 to |calls|
          invariant forall l :: 0 <= l < j ==> calls[l].callId != callId
        {
          if calls[j].callId == callId {
            return Some(calls[j]);
          }
        }
      }
      r := None;
    }

    /** Returns no error exactly on the conversations that keep the protocol. */
    method ValidateSequence() returns (error: Option<SequenceError>)
      ensures error.None? <==> ValidSequence(messages)
      ensures error.Some? && !error.value.UnresolvedAtEnd? ==>
                error.value.index < |messages|
                && Scan({}, messages[..error.value.index]).Some?
                && Scan({}, messages[..error.value.index + 1]).None?
      ensures error == Some(UnresolvedAtEnd) ==> Scan({}, messages).Some?
      ensures error.Some? ==> Explains(messages, error.value)
    {
      var pending: set<string> := {};
      for idx := 0 to |messages|
        invariant Scan({}, messages[..idx]) == Some(pending)
      {
        var msg := messages[idx];
        ScanAppend({}, messages[..idx], msg);
        assert messages[..idx + 1] == messages[..idx] + [msg];
        StuckAfter(messages, idx + 1);
        match msg.role
        case ASSISTANT =>
          if pending != {} {
            return Some(PendingCalls(idx));
          }
          var seen: set<string> := {};
          for j := 0 to |msg.toolCalls|
            invariant seen == CallIds(msg.toolCalls[..j]) == pending
            invariant DistinctIds(msg.toolCalls[..j])
          {
            var tc := msg.toolCalls[j];
            assert msg.toolCalls[..j + 1] == msg.toolCalls[..j] + [tc];
            if tc.callId in seen {
              var twin :| twin in msg.toolCalls[..j] && twin.callId == tc.callId;
              assert !DistinctIds(msg.toolCalls);
              return Some(DuplicateCallId(idx, tc.callId));
            }
            seen := seen + {tc.callId};
            pending := pending + {tc.callId};
          }
          assert msg.toolCalls[..|msg.toolCalls|] == msg.toolCalls;
        case TOOL =>
          if pending == {} {
            return Some(NoPendingCall(idx));
          }
          if msg.toolCallId.None? || msg.toolCallId.value !in pending {
            return Some(UnmatchedReply(idx));
          }
          pending := pending - {msg.toolCallId.value};
        case _ =>
          if pending != {} {
            return Some(PendingCalls(idx));
          }
      }
      assert messages[..|messages|] == messages;
      error := if pending != {} then Some(UnresolvedAtEnd) else None;
    }
  }

  /** A scan that has failed stays failed. */
  lemma StuckAfter(ms: seq<Message>, i: nat)
    requires i <= |ms|
    ensures Scan({}, ms[..i]).None? ==> Scan({}, ms).None?
  {
    assert ms == ms[..i] + ms[i..];
    ScanConcat({}, ms[..i], ms[i..]);
  }
}
