/** Assembly of the provider context and its character cap (agent/context_builder.py). */
module ContextGuard {
  import opened PyText
  import opened Chat

  function CallsChars(calls: seq<ToolCall>): nat {
    if calls == [] then 0
    else CallsChars(calls[..|calls| - 1])
         + |calls[|calls| - 1].callId| + |calls[|calls| - 1].toolName| + |calls[|calls| - 1].arguments|
  }

  function MessageChars(m: Message): nat {
    (if m.content.Some? then |m.content.value| else 0) + CallsChars(m.toolCalls)
  }

  function Chars(ms: seq<Message>): nat {
    if ms == [] then 0 else Chars(ms[..|ms| - 1]) + MessageChars(ms[|ms| - 1])
  }

  function CallsText(calls: seq<ToolCall>): string {
    if calls == [] then ""
    else calls[0].callId + calls[0].toolName + calls[0].arguments + CallsText(calls[1..])
  }

  /** Everything that is written in a conversation: contents, and the ids, names and arguments of calls. */
  function FullText(ms: seq<Message>): string {
    if ms == [] then ""
    else (if ms[0].content.Some? then ms[0].content.value else "") + CallsText(ms[0].toolCalls) + FullText(ms[1..])
  }

  lemma {:induction false} CallsCharsMeaning(calls: seq<ToolCall>)
    ensures CallsChars(calls) == |CallsText(calls)|
  {
    if calls != [] {
      CallsCharsMeaning(calls[1..]);
      CallsCharsHead(calls);
    }
  }

  lemma {:induction false} CallsCharsHead(calls: seq<ToolCall>)
    requires calls != []
    ensures CallsChars(calls) ==
            |calls[0].callId| + |calls[0].toolName| + |calls[0].arguments| + CallsChars(calls[1..])
  {
    var front := calls[..|calls| - 1];
    if front == [] {
      assert calls[1..] == [];
    } else {
      CallsCharsHead(front);
      assert front[1..] == calls[1..][..|calls[1..]| - 1];
    }
  }

  /** The size of a conversation is the length of all that is written in it. */
  lemma {:induction false} CharsMeaning(ms: seq<Message>)
    ensures Chars(ms) == |FullText(ms)|
  {
    if ms != [] {
      CharsMeaning(ms[1..]);
      CharsConcat(ms[..1], ms[1..]);
      assert ms == ms[..1] + ms[1..];
      assert ms[..1][..0] == [] && Chars(ms[..1]) == MessageChars(ms[0]);
      CallsCharsMeaning(ms[0].toolCalls);
    }
  }

  method CalculateMessagesChars(ms: seq<Message>) returns (total: nat)
    ensures total == Chars(ms)
  {
    total := 0;
    for i := 0 to |ms|
      invariant total == Chars(ms[..i])
    {
      var m := ms[i];
      ghost var before := total;
      assert ms[..i + 1][..i] == ms[..i];
      if m.content.Some? && m.content.value != "" {
        total := total + |m.content.value|;
      }
      ghost var afterContent := total;
      for j := 0 to |m.toolCalls|
        invariant total == afterContent + CallsChars(m.toolCalls[..j])
      {
        var tc := m.toolCalls[j];
        assert m.toolCalls[..j + 1][..j] == m.toolCalls[..j];
        total := total + |tc.callId| + |tc.toolName|;
        total := total + |tc.arguments|;
      }
      assert m.toolCalls[..|m.toolCalls|] == m.toolCalls;
    }
    assert ms[..|ms|] == ms;
  }

  // ------------------------------------------------------------------------
  // Specification of the guard
  // ------------------------------------------------------------------------

  /** The index of the last USER message, or -1. */
  function LastUser(ms: seq<Message>): (u: int)
    ensures -1 <= u < |ms|
    ensures u >= 0 ==> ms[u].role == USER
    ensures forall i :: u < i < |ms| ==> ms[i].role != USER
  {
    if ms == [] then -1
    else if ms[|ms| - 1].role == USER then |ms| - 1
    else LastUser(ms[..|ms| - 1])
  }

  /** Where the latest interaction starts. */
  function LatestStart(rest: seq<Message>): (l: nat)
    ensures l <= |rest|
  {
    if LastUser(rest) > 0 then LastUser(rest) else 0
  }

  function TruncationMarker(cap: int, size: nat): string {
    "[TRUNCATED: Tool result exceeded " + Decimal(cap) + " characters safety cap. Original size: "
    + Decimal(size) + " chars. Full result omitted to prevent context overflow.]"
  }

  /** An overlong tool result keeps its role, its call id, its name and its image, and loses its text. */
  function Truncate(m: Message, cap: int): Message {
    if m.role == TOOL && m.content.Some? && m.content.value != "" && |m.content.value| > cap / 2 then
      Message(TOOL, Some(TruncationMarker(cap, |m.content.value|)), [], m.toolCallId, m.name, m.imageId)
    else m
  }

  function TruncateAll(ms: seq<Message>, cap: int): seq<Message> {
    seq(|ms|, i requires 0 <= i < |ms| => Truncate(ms[i], cap))
  }

  /** Drop clusters from the front until the rest fits; None when no cluster can stay. */
  function Evict(sys: Message, clusters: seq<seq<Message>>, latest: seq<Message>, cap: int): Option<seq<Message>> {
    if clusters == [] then None
    else
      var candidate := [sys] + Flatten(clusters) + latest;
      if Chars(candidate) <= cap then Some(candidate) else Evict(sys, clusters[1..], latest, cap)
  }

  function Guard(messages: seq<Message>, cap: int): seq<Message> {
    if messages == [] then []
    else if Chars(messages) <= cap then messages
    else
      var sys, rest := messages[0], messages[1..];
      var l := LatestStart(rest);
      match Evict(sys, Clusters(rest[..l]), rest[l..], cap)
      case Some(kept) => kept
      case None =>
        if Chars([sys] + rest[l..]) <= cap then [sys] + rest[l..]
        else [sys] + TruncateAll(rest[l..], cap)
  }

  // ------------------------------------------------------------------------
  // What the guard means on a protocol-conforming conversation
  // ------------------------------------------------------------------------

  /** No call is unanswered after the first `p` messages. */
  predicate Settled(rest: seq<Message>, p: nat)
    requires p <= |rest|
  {
    ValidSequence(rest[..p])
  }

  /** `p` is the earliest settled position, not after `l`, from which everything fits below the cap. */
  predicate EarliestFit(sys: Message, rest: seq<Message>, l: nat, cap: int, p: nat)
    requires l <= |rest|
  {
    && p <= l && Settled(rest, p) && Chars([sys] + rest[p..]) <= cap
    && forall q :: 0 <= q < p && Settled(rest, q) ==> Chars([sys] + rest[q..]) > cap
  }

  /** Inside an exchange some call is still unanswered. */
  lemma ExchangeInside(c: seq<Message>, j: nat)
    requires IsExchange(c) && 0 < j < |c|
    ensures !ValidSequence(c[..j])
  {
    ClusterSettles(c[..j]);
    assert c[..j][0] == c[0];
  }

  /** The first cluster of a valid list is where it is first settled again. */
  lemma FirstClusterEnds(older: seq<Message>)
    requires older != [] && ValidSequence(older)
    ensures var c := Clusters(older)[0];
            && c != [] && c <= older
            && Clusters(older)[1..] == Clusters(older[|c|..])
            && Flatten(Clusters(older)) == older
            && ValidSequence(c) && ValidSequence(older[|c|..])
            && forall q :: 0 < q < |c| ==> !Settled(older, q)
  {
    ValidIffExchanges(older);
    FlattenClusters(older);
    var c := Clusters(older)[0];
    ClusterSettles(c);
    assert older == c + older[|c|..];
    ValidConcat(c, older[|c|..]);
    forall q | 0 < q < |c|
      ensures !Settled(older, q)
    {
      ExchangeInside(c, q);
      assert c[..q] == older[..q];
    }
  }

  /** No settled position of `older` before `p` leaves a suffix that fits together with `latest`. */
  predicate NoneFits(sys: Message, older: seq<Message>, latest: seq<Message>, cap: int, p: nat)
    requires p <= |older|
  {
    forall q :: 0 <= q < p && Settled(older, q) ==> Chars([sys] + older[q..] + latest) > cap
  }

  lemma NoneFitsShift(sys: Message, c: seq<Message>, tail: seq<Message>, latest: seq<Message>, cap: int, p: nat)
    requires c != [] && ValidSequence(c) && p <= |tail|
    requires forall q :: 0 < q < |c| ==> !Settled(c + tail, q)
    requires Chars([sys] + (c + tail) + latest) > cap && NoneFits(sys, tail, latest, cap, p)
    ensures NoneFits(sys, c + tail, latest, cap, |c| + p)
  {
    var older := c + tail;
    assert older[0..] == older;
    forall q | 0 <= q < |c| + p && Settled(older, q)
      ensures Chars([sys] + older[q..] + latest) > cap
    {
      if q >= |c| {
        assert older[..q] == c + tail[..q - |c|] && older[q..] == tail[q - |c|..];
        ValidConcat(c, tail[..q - |c|]);
      }
    }
  }

  lemma NoClusters()
    ensures Clusters([]) == [] && Flatten([]) == []
  {
  }

  /** Eviction only ever stops at settled positions, and at the earliest one that fits. */
  lemma {:induction false} EvictStopsAtSettled(sys: Message, older: seq<Message>, latest: seq<Message>, cap: int)
    returns (p: nat)
    requires ValidSequence(older)
    ensures p <= |older| && Settled(older, p) && NoneFits(sys, older, latest, cap, p)
    ensures Evict(sys, Clusters(older), latest, cap) ==
            if p == |older| then None else Some([sys] + older[p..] + latest)
    ensures p < |older| ==> Chars([sys] + older[p..] + latest) <= cap
    decreases |older|
  {
    hide Chars, Flatten, Clusters;
    p := 0;
    assert older[0..] == older && older[..0] == [];
    NoClusters();
    if older != [] {
      hide Scan;
      FirstClusterEnds(older);
      if Chars([sys] + older + latest) > cap {
        var c := Clusters(older)[0];
        var tail := older[|c|..];
        var o := EvictStopsAtSettled(sys, tail, latest, cap);
        assert older == c + tail;
        NoneFitsShift(sys, c, tail, latest, cap, o);
        p := |c| + o;
        assert older[..p] == c + tail[..o] && older[p..] == tail[o..];
        ValidConcat(c, tail[..o]);
      }
    }
  }

  /** The same, read on the whole list that `older` and `latest` were cut from. */
  lemma EvictPosition(sys: Message, rest: seq<Message>, l: nat, cap: int) returns (p: nat)
    requires l <= |rest| && Settled(rest, l)
    ensures p <= l && Settled(rest, p)
    ensures forall q :: 0 <= q < p && Settled(rest, q) ==> Chars([sys] + rest[q..]) > cap
    ensures Evict(sys, Clusters(rest[..l]), rest[l..], cap) == if p == l then None else Some([sys] + rest[p..])
    ensures p < l ==> Chars([sys] + rest[p..]) <= cap
  {
    var older, latest := rest[..l], rest[l..];
    p := EvictStopsAtSettled(sys, older, latest, cap);
    forall q | 0 <= q <= l
      ensures older[..q] == rest[..q] && [sys] + older[q..] + latest == [sys] + rest[q..]
    {
    }
    assert older[..p] == rest[..p];
    forall q | 0 <= q < p && Settled(rest, q)
      ensures Chars([sys] + rest[q..]) > cap
    {
      assert Settled(older, q);
    }
  }

  lemma LatestIsSettled(rest: seq<Message>)
    requires ValidSequence(rest)
    ensures Settled(rest, LatestStart(rest)) && ValidSequence(rest[LatestStart(rest)..])
  {
    if LastUser(rest) > 0 {
      ValidBeforeUser(rest, LastUser(rest));
    } else {
      assert rest[0..] == rest;
    }
  }

  /** `l` is the position of the last USER message behind the first message, 0 where there is none. */
  predicate LatestAt(rest: seq<Message>, l: nat) {
    && l <= |rest|
    && (l > 0 ==> l < |rest| && rest[l].role == USER)
    && forall i :: l < i < |rest| ==> rest[i].role != USER
  }

  lemma LatestByRoles(rest: seq<Message>, l: nat)
    requires LatestAt(rest, l)
    ensures LatestStart(rest) == l
  {
  }

  predicate Overlong(m: Message, cap: int) {
    m.role == TOOL && m.content.Some? && m.content.value != "" && |m.content.value| > cap / 2
  }

  /** `r` is `ms`, but for the texts of overlong tool results, each replaced by a marker that tells its size. */
  predicate ShortenedTo(ms: seq<Message>, r: seq<Message>, cap: int) {
    && |r| == |ms|
    && forall i :: 0 <= i < |ms| ==>
         if Overlong(ms[i], cap)
         then r[i] == ms[i].(content := Some(TruncationMarker(cap, |ms[i].content.value|)), toolCalls := [])
         else r[i] == ms[i]
  }

  lemma GuardPosition(messages: seq<Message>, cap: int) returns (p: nat)
    requires messages != [] && messages[0].role == SYSTEM && ValidSequence(messages)
    requires Chars([messages[0]] + messages[1..][LatestStart(messages[1..])..]) <= cap
    ensures EarliestFit(messages[0], messages[1..], LatestStart(messages[1..]), cap, p)
    ensures Guard(messages, cap) == [messages[0]] + messages[1..][p..]
  {
    hide Evict, Chars, LatestStart, TruncateAll, Clusters;
    var sys, rest := messages[0], messages[1..];
    var l := LatestStart(rest);
    ValidTail(messages);
    LatestIsSettled(rest);
    assert rest[..0] == [];
    if Chars(messages) <= cap {
      p := 0;
      assert [sys] + rest[0..] == messages;
    } else {
      p := EvictPosition(sys, rest, l, cap);
    }
  }

  /**
   * On a valid context the guard keeps the system message and the largest suffix that fits, cut only
   * where no call is unanswered and never inside the latest interaction, which starts at the last USER message.
   * It goes over the cap only when the latest interaction alone does, and then it replaces the overlong tool
   * texts of that interaction only.
   */
  lemma GuardKeepsLargestSuffix(messages: seq<Message>, cap: int, l: nat)
    requires messages != [] && messages[0].role == SYSTEM && ValidSequence(messages)
    requires LatestAt(messages[1..], l)
    ensures var sys, rest, r := messages[0], messages[1..], Guard(messages, cap);
            if Chars([sys] + rest[l..]) <= cap then
              exists p: nat :: EarliestFit(sys, rest, l, cap, p) && r == [sys] + rest[p..]
            else
              r != [] && r[0] == sys && ShortenedTo(rest[l..], r[1..], cap)
  {
    LatestByRoles(messages[1..], l);
    GuardedSuffix(messages, cap);
  }

  lemma GuardedSuffix(messages: seq<Message>, cap: int)
    requires messages != [] && messages[0].role == SYSTEM && ValidSequence(messages)
    ensures var sys, rest := messages[0], messages[1..];
            var l := LatestStart(rest);
            if Chars([sys] + rest[l..]) <= cap then
              exists p: nat :: EarliestFit(sys, rest, l, cap, p) && Guard(messages, cap) == [sys] + rest[p..]
            else
              Guard(messages, cap) == [sys] + TruncateAll(rest[l..], cap)
  {
    hide Evict, Chars, LatestStart, TruncateAll, Clusters, Scan;
    var sys, rest := messages[0], messages[1..];
    var l := LatestStart(rest);
    if Chars([sys] + rest[l..]) <= cap {
      var p := GuardPosition(messages, cap);
    } else {
      ValidTail(messages);
      LatestIsSettled(rest);
      assert [sys] + rest[0..] == messages;
      CharsDrop(sys, rest, 0, l);
      var p := EvictPosition(sys, rest, l, cap);
      CharsDrop(sys, rest, p, l);
    }
  }

  lemma ValidTail(messages: seq<Message>)
    requires messages != [] && messages[0].role == SYSTEM
    ensures ValidSequence(messages) <==> ValidSequence(messages[1..])
  {
  }

  lemma {:induction false} CharsConcat(a: seq<Message>, b: seq<Message>)
    ensures Chars(a + b) == Chars(a) + Chars(b)
  {
    if b == [] {
      assert a + b == a;
    } else {
      assert (a + b)[..|a + b| - 1] == a + b[..|b| - 1];
      CharsConcat(a, b[..|b| - 1]);
    }
  }

  /** A later start never needs more characters. */
  lemma CharsDrop(sys: Message, rest: seq<Message>, p: nat, l: nat)
    requires p <= l <= |rest|
    ensures Chars([sys] + rest[l..]) <= Chars([sys] + rest[p..])
  {
    assert rest[p..] == rest[p..l] + rest[l..];
    CharsConcat([sys], rest[l..]);
    CharsConcat([sys], rest[p..]);
    CharsConcat(rest[p..l], rest[l..]);
  }

  lemma {:induction false} TruncateKeepsProtocol(pending: set<string>, ms: seq<Message>, cap: int)
    ensures Scan(pending, TruncateAll(ms, cap)) == Scan(pending, ms)
    decreases ms
  {
    if ms != [] {
      assert TruncateAll(ms, cap)[1..] == TruncateAll(ms[1..], cap);
      match Advance(pending, ms[0])
      case None =>
      case Some(next) => TruncateKeepsProtocol(next, ms[1..], cap);
    }
  }

  /** Whatever the cap, a valid context stays valid and keeps its system message first. */
  lemma GuardKeepsProtocol(messages: seq<Message>, cap: int)
    requires messages != [] && messages[0].role == SYSTEM && ValidSequence(messages)
    ensures Guard(messages, cap) != [] && Guard(messages, cap)[0] == messages[0]
    ensures ValidSequence(Guard(messages, cap))
  {
    hide Guard, Chars, LatestStart, TruncateAll, Scan;
    var sys, rest := messages[0], messages[1..];
    var l := LatestStart(rest);
    ValidTail(messages);
    LatestIsSettled(rest);
    if Chars([sys] + rest[l..]) <= cap {
      var p := GuardPosition(messages, cap);
      assert rest == rest[..p] + rest[p..];
      ValidConcat(rest[..p], rest[p..]);
      ValidTail([sys] + rest[p..]);
      assert ([sys] + rest[p..])[1..] == rest[p..];
    } else {
      GuardedSuffix(messages, cap);
      TruncateKeepsProtocol({}, rest[l..], cap);
      ValidTail([sys] + TruncateAll(rest[l..], cap));
      assert ([sys] + TruncateAll(rest[l..], cap))[1..] == TruncateAll(rest[l..], cap);
    }
  }

  // ------------------------------------------------------------------------
  // The guard as the loops of the source
  // ------------------------------------------------------------------------

  method FindLastUser(ms: seq<Message>) returns (u: int)
    ensures u == LastUser(ms)
  {
    u := -1;
    var i := |ms| - 1;
    while i >= 0
      invariant -1 <= i < |ms|
      invariant u == -1
      invariant forall k :: i < k < |ms| ==> ms[k].role != USER
    {
      if ms[i].role == USER {
        u := i;
        break;
      }
      i := i - 1;
    }
  }

  lemma ClustersStep(older: seq<Message>, start: nat, idx: nat)
    requires start < idx <= |older|
    requires if AsksTools(older[start]) then
               && (forall k :: start < k < idx ==> older[k].role == TOOL)
               && (idx < |older| ==> older[idx].role != TOOL)
             else idx == start + 1
    ensures Clusters(older[start..]) == [older[start..idx]] + Clusters(older[idx..])
  {
    var tail := older[start..];
    if AsksTools(tail[0]) {
      assert forall k :: 0 <= k < idx - start - 1 ==> tail[1..][k] == older[start + 1 + k];
      assert idx < |older| ==> tail[1..][idx - start - 1] == older[idx];
      assert ReplyRun(tail[1..]) == idx - start - 1;
    }
    assert tail[..idx - start] == older[start..idx] && tail[idx - start..] == older[idx..];
  }

  method NextCluster(older: seq<Message>, start: nat) returns (cluster: seq<Message>, idx: nat)
    requires start < |older|
    ensures start < idx <= |older|
    ensures Clusters(older[start..]) == [cluster] + Clusters(older[idx..])
  {
    var msg := older[start];
    cluster := [msg];
    idx := start + 1;
    if msg.role == ASSISTANT && msg.toolCalls != [] {
      while idx < |older| && older[idx].role == TOOL
        invariant start < idx <= |older|
        invariant cluster == older[start..idx]
        invariant forall k :: start < k < idx ==> older[k].role == TOOL
      {
        cluster := cluster + [older[idx]];
        idx := idx + 1;
      }
    }
    assert cluster == older[start..idx];
    ClustersStep(older, start, idx);
  }

  method BuildClusters(older: seq<Message>) returns (clusters: seq<seq<Message>>)
    ensures clusters == Clusters(older)
  {
    clusters := [];
    var idx := 0;
    assert older[0..] == older;
    while idx < |older|
      invariant idx <= |older|
      invariant clusters + Clusters(older[idx..]) == Clusters(older)
    {
      var cluster, next := NextCluster(older, idx);
      Regroup(clusters, [cluster], Clusters(older[next..]));
      clusters := clusters + [cluster];
      idx := next;
    }
  }

  lemma Regroup<T>(a: seq<T>, b: seq<T>, c: seq<T>)
    ensures (a + b) + c == a + (b + c)
  {
  }

  method ApplyContextSizeGuard(messages: seq<Message>, cap: int) returns (r: seq<Message>)
    ensures r == Guard(messages, cap)
  {
    if messages == [] {
      return [];
    }
    var size := CalculateMessagesChars(messages);
    if size <= cap {
      return messages;
    }
    var sys, remaining := messages[0], messages[1..];
    var lastUser := FindLastUser(remaining);
    var older := if lastUser > 0 then remaining[..lastUser] else [];
    var latest := if lastUser >= 0 then remaining[lastUser..] else remaining;
    assert older == remaining[..LatestStart(remaining)] && latest == remaining[LatestStart(remaining)..];
    var clusters := BuildClusters(older);
    while clusters != []
      invariant Evict(sys, clusters, latest, cap) == Evict(sys, Clusters(older), latest, cap)
      decreases |clusters|
    {
      var candidates := Candidates(sys, clusters, latest);
      size := CalculateMessagesChars(candidates);
      if size <= cap {
        return candidates;
      }
      clusters := clusters[1..];
    }
    var candidates := [sys] + latest;
    size := CalculateMessagesChars(candidates);
    if size <= cap {
      return candidates;
    }
    var sanitized := Sanitize(latest, cap);
    r := [sys] + sanitized;
  }

  method Candidates(sys: Message, clusters: seq<seq<Message>>, latest: seq<Message>) returns (r: seq<Message>)
    ensures r == [sys] + Flatten(clusters) + latest
  {
    r := [sys];
    for i := 0 to |clusters|
      invariant r == [sys] + Flatten(clusters[..i])
    {
      assert clusters[..i + 1] == clusters[..i] + [clusters[i]];
      FlattenConcat(clusters[..i], [clusters[i]]);
      assert Flatten([clusters[i]]) == clusters[i];
      r := r + clusters[i];
    }
    assert clusters[..|clusters|] == clusters;
    r := r + latest;
  }

  method Sanitize(latest: seq<Message>, cap: int) returns (sanitized: seq<Message>)
    ensures sanitized == TruncateAll(latest, cap)
  {
    hide TruncationMarker;
    sanitized := [];
    for i := 0 to |latest|
      invariant |sanitized| == i
      invariant forall k :: 0 <= k < i ==> sanitized[k] == Truncate(latest[k], cap)
    {
      var m := latest[i];
      if m.role == TOOL && m.content.Some? && m.content.value != "" && |m.content.value| > cap / 2 {
        var marker := TruncationMarker(cap, |m.content.value|);
        sanitized := sanitized + [Message(TOOL, Some(marker), [], m.toolCallId, m.name, m.imageId)];
      } else {
        sanitized := sanitized + [m];
      }
    }
  }

  // ------------------------------------------------------------------------
  // Assembly
  // ------------------------------------------------------------------------

  /** The message list handed to the guard: a system message first, then the conversation. */
  function Assemble(conversation: seq<Message>, systemPrompt: Option<string>, defaultPrompt: string): seq<Message> {
    var effective :=
      if systemPrompt.Some? && !Blank(systemPrompt.value) then Strip(systemPrompt.value) else defaultPrompt;
    if conversation != [] && conversation[0].role == SYSTEM then
      var kept := if conversation[0].content.Some? && conversation[0].content.value != ""
                  then conversation[0].content.value else effective;
      [SystemMessage(if systemPrompt.Some? then effective else kept)] + conversation[1..]
    else
      [SystemMessage(effective)] + conversation
  }

  /** The prompt that a request opens with: the one asked for, else the conversation's own, else the default. */
  predicate OpensWith(conversation: seq<Message>, systemPrompt: Option<string>, defaultPrompt: string, text: string) {
    if systemPrompt.Some? && !Blank(systemPrompt.value) then text == Strip(systemPrompt.value)
    else if systemPrompt.None? && conversation != [] && conversation[0].role == SYSTEM
            && conversation[0].content.Some? && conversation[0].content.value != ""
    then Some(text) == conversation[0].content
    else text == defaultPrompt
  }

  /** The conversation but for a system message of its own. */
  function Spoken(conversation: seq<Message>): seq<Message> {
    if conversation != [] && conversation[0].role == SYSTEM then conversation[1..] else conversation
  }

  /**
   * Every provider request built from a valid conversation is valid and opens with the right prompt, whatever
   * prompt and cap are asked for; and if all of it fits, then nothing of the conversation is missing.
   */
  lemma BuildKeepsProtocol(conversation: seq<Message>, systemPrompt: Option<string>, defaultPrompt: string, cap: int)
    requires ValidSequence(conversation)
    ensures var request := Guard(Assemble(conversation, systemPrompt, defaultPrompt), cap);
            && ValidSequence(request)
            && request != [] && request[0].content.Some? && request[0] == SystemMessage(request[0].content.value)
            && OpensWith(conversation, systemPrompt, defaultPrompt, request[0].content.value)
            && (Chars([request[0]] + Spoken(conversation)) <= cap ==> request[1..] == Spoken(conversation))
  {
    hide Guard, Chars, Strip;
    var assembled := Assemble(conversation, systemPrompt, defaultPrompt);
    ValidTail(assembled);
    assert assembled == [assembled[0]] + Spoken(conversation);
    if conversation != [] && conversation[0].role == SYSTEM {
      ValidTail(conversation);
    }
    assert assembled[1..] == Spoken(conversation);
    GuardKeepsProtocol(assembled, cap);
    if Chars(assembled) <= cap {
      FittingStays(assembled, cap);
    }
  }

  lemma FittingStays(messages: seq<Message>, cap: int)
    requires Chars(messages) <= cap
    ensures Guard(messages, cap) == messages
  {
  }
}
