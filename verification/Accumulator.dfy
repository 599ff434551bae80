/** Reassembly of streamed tool-call fragments (agent/tool_call_accumulator.py). */
module Accumulator {
  import opened PyText
  import opened Chat

  /** One fragment; an absent field and an empty one are both `""`. */
  datatype Delta = Delta(index: nat, callId: string, nameDelta: string, argumentsDelta: string)

  datatype Entry = Entry(callId: string, toolName: string, arguments: string)

  const EMPTY: Entry := Entry("", "", "")

  type Calls = map<nat, Entry>

  /** What `json.loads` makes of an argument text. */
  datatype Decoded = NotJson | NotObject | Object(arguments: string)

  datatype Error =
    | MissingCallId(index: nat)
    | MissingToolName(index: nat)
    | MalformedJson(index: nat)
    | NonObjectArguments(index: nat)

  datatype Result<+T> = Ok(value: T) | Err(error: Error)

  function MergeCallId(held: string, fragment: string): string {
    if fragment == "" then held
    else if held == "" then fragment
    else if held != fragment then held + fragment
    else held
  }

  function Merge(e: Entry, d: Delta): Entry {
    Entry(MergeCallId(e.callId, d.callId), e.toolName + d.nameDelta, e.arguments + d.argumentsDelta)
  }

  function Feed(calls: Calls, d: Delta): Calls {
    calls[d.index := Merge(if d.index in calls then calls[d.index] else EMPTY, d)]
  }

  function FeedAll(calls: Calls, ds: seq<Delta>): Calls
    decreases ds
  {
    if ds == [] then calls else FeedAll(Feed(calls, ds[0]), ds[1..])
  }

  // ------------------------------------------------------------------------
  // Each index sees only its own fragments
  // ------------------------------------------------------------------------

  /** The fragments of one index, in order. */
  function Own(ds: seq<Delta>, i: nat): seq<Delta> {
    if ds == [] then [] else (if ds[0].index == i then [ds[0]] else []) + Own(ds[1..], i)
  }

  function MergeAll(e: Entry, ds: seq<Delta>): Entry
    decreases ds
  {
    if ds == [] then e else MergeAll(Merge(e, ds[0]), ds[1..])
  }

  /** An entry is what its own fragments make of it, whatever was interleaved. */
  lemma {:induction false} EntryFromOwn(calls: Calls, ds: seq<Delta>, i: nat)
    ensures var r := FeedAll(calls, ds);
            && (i in r <==> i in calls || Own(ds, i) != [])
            && (i in r ==> r[i] == MergeAll(if i in calls then calls[i] else EMPTY, Own(ds, i)))
    decreases ds
  {
    if ds != [] {
      EntryFromOwn(Feed(calls, ds[0]), ds[1..], i);
      if ds[0].index == i {
        assert Own(ds, i)[1..] == Own(ds[1..], i);
      } else {
        assert Own(ds, i) == Own(ds[1..], i);
      }
    }
  }

  /** Two interleavings of the same per-index fragment sequences build the same table. */
  lemma InterleavingIrrelevant(ds: seq<Delta>, es: seq<Delta>)
    requires forall i: nat :: Own(ds, i) == Own(es, i)
    ensures FeedAll(map[], ds) == FeedAll(map[], es)
  {
    var r, s := FeedAll(map[], ds), FeedAll(map[], es);
    forall i: nat
      ensures (i in r <==> i in s) && (i in r ==> r[i] == s[i])
    {
      EntryFromOwn(map[], ds, i);
      EntryFromOwn(map[], es, i);
    }
  }

  function Names(ds: seq<Delta>): string {
    if ds == [] then "" else ds[0].nameDelta + Names(ds[1..])
  }

  function Arguments(ds: seq<Delta>): string {
    if ds == [] then "" else ds[0].argumentsDelta + Arguments(ds[1..])
  }

  /** Name and arguments are the concatenated fragments, so cutting them otherwise changes nothing. */
  lemma {:induction false} TextsConcatenate(e: Entry, ds: seq<Delta>)
    ensures MergeAll(e, ds).toolName == e.toolName + Names(ds)
    ensures MergeAll(e, ds).arguments == e.arguments + Arguments(ds)
    decreases ds
  {
    if ds == [] {
      assert e.toolName + "" == e.toolName && e.arguments + "" == e.arguments;
    } else {
      TextsConcatenate(Merge(e, ds[0]), ds[1..]);
      assert (e.toolName + ds[0].nameDelta) + Names(ds[1..]) == e.toolName + (ds[0].nameDelta + Names(ds[1..]));
      assert (e.arguments + ds[0].argumentsDelta) + Arguments(ds[1..])
          == e.arguments + (ds[0].argumentsDelta + Arguments(ds[1..]));
    }
  }

  /** The id fragments that are not empty. */
  function Ids(ds: seq<Delta>): seq<string> {
    if ds == [] then [] else (if ds[0].callId != "" then [ds[0].callId] else []) + Ids(ds[1..])
  }

  function MergeIds(held: string, ids: seq<string>): string
    decreases ids
  {
    if ids == [] then held else MergeIds(MergeCallId(held, ids[0]), ids[1..])
  }

  lemma {:induction false} IdFromFragments(e: Entry, ds: seq<Delta>)
    ensures MergeAll(e, ds).callId == MergeIds(e.callId, Ids(ds))
    decreases ds
  {
    if ds != [] {
      IdFromFragments(Merge(e, ds[0]), ds[1..]);
      if ds[0].callId != "" {
        assert Ids(ds)[0] == ds[0].callId && Ids(ds)[1..] == Ids(ds[1..]);
      } else {
        assert Ids(ds) == Ids(ds[1..]);
      }
    }
  }

  /** The same fragments, but for empty ones and for where names and arguments are cut. */
  predicate SameTexts(ds: seq<Delta>, es: seq<Delta>) {
    && (ds == [] <==> es == []) && Ids(ds) == Ids(es)
    && Names(ds) == Names(es) && Arguments(ds) == Arguments(es)
  }

  /** However names and arguments are cut, and indices interleaved, the same table is built. */
  lemma ResplitIrrelevant(ds: seq<Delta>, es: seq<Delta>)
    requires forall i: nat :: SameTexts(Own(ds, i), Own(es, i))
    ensures FeedAll(map[], ds) == FeedAll(map[], es)
  {
    var r, s := FeedAll(map[], ds), FeedAll(map[], es);
    forall i: nat
      ensures (i in r <==> i in s) && (i in r ==> r[i] == s[i])
    {
      assert SameTexts(Own(ds, i), Own(es, i));
      EntryFromOwn(map[], ds, i);
      EntryFromOwn(map[], es, i);
      TextsConcatenate(EMPTY, Own(ds, i));
      TextsConcatenate(EMPTY, Own(es, i));
      IdFromFragments(EMPTY, Own(ds, i));
      IdFromFragments(EMPTY, Own(es, i));
    }
  }

  /**
   * Call ids are not so: a repeated id is dropped instead of appended. Cutting an id fragment in two is
   * harmless exactly when no merge involved meets an equal text.
   */
  lemma {:induction false} CallIdCutExactly(held: string, a: string, b: string)
    requires a != "" && b != ""
    ensures MergeCallId(MergeCallId(held, a), b) == MergeCallId(held, a + b)
            <==> held != a && held != a + b && held + a != b
  {
    var whole := MergeCallId(held, a + b);
    var cut := MergeCallId(MergeCallId(held, a), b);
    if held == "" {
      assert held + a == a;
      assert a == b ==> |cut| < |whole|;
    } else if held == a {
      assert |cut| < |whole|;
    } else if held == a + b {
      assert |cut| > |whole|;
    } else {
      assert held + a + b == held + (a + b);
      assert held + a == b ==> |cut| < |whole|;
    }
  }

  // ------------------------------------------------------------------------
  // Finalisation
  // ------------------------------------------------------------------------

  /** The validation of one entry, in the order of the source. */
  function Check(index: nat, e: Entry, decode: string -> Decoded): Result<ToolCall> {
    if Blank(e.callId) then Err(MissingCallId(index))
    else if Blank(e.toolName) then Err(MissingToolName(index))
    else if Blank(e.arguments) then Ok(ToolCall(e.callId, e.toolName, "{}"))
    else
      match decode(Strip(e.arguments))
      case NotJson => Err(MalformedJson(index))
      case NotObject => Err(NonObjectArguments(index))
      case Object(arguments) => Ok(ToolCall(e.callId, e.toolName, arguments))
  }

  lemma {:induction false} MinExists(s: set<nat>) returns (m: nat)
    requires s != {}
    ensures m in s && forall x <- s :: m <= x
  {
    var x :| x in s;
    if s == {x} {
      m := x;
    } else {
      var rest := s - {x};
      assert s == rest + {x} && rest != {};
      var r := MinExists(rest);
      m := if r < x then r else x;
    }
  }

  function Min(s: set<nat>): (m: nat)
    requires s != {}
    ensures m in s && forall x <- s :: m <= x
  {
    assert exists m :: m in s && forall x <- s :: m <= x by {
      var m := MinExists(s);
    }
    var m :| m in s && forall x <- s :: m <= x;
    m
  }

  /** `sorted(keys)`. */
  function Sorted(s: set<nat>): (r: seq<nat>)
    ensures forall x :: x in s <==> x in r
    ensures forall i, j :: 0 <= i < j < |r| ==> r[i] < r[j]
  {
    if s == {} then [] else [Min(s)] + Sorted(s - {Min(s)})
  }

  type Checker = (nat, Entry) -> Result<ToolCall>

  function FinalizeIn(calls: Calls, order: seq<nat>, check: Checker): Result<seq<ToolCall>>
    requires forall i <- order :: i in calls
  {
    if order == [] then Ok([])
    else
      match check(order[0], calls[order[0]])
      case Err(e) => Err(e)
      case Ok(call) =>
        match FinalizeIn(calls, order[1..], check)
        case Err(e) => Err(e)
        case Ok(rest) => Ok([call] + rest)
  }

  function Checks(decode: string -> Decoded): Checker {
    (index: nat, e: Entry) => Check(index, e, decode)
  }

  function Finalize(calls: Calls, decode: string -> Decoded): Result<seq<ToolCall>> {
    FinalizeIn(calls, Sorted(calls.Keys), Checks(decode))
  }

  predicate Passes(calls: Calls, i: nat, check: Checker) {
    i in calls && check(i, calls[i]).Ok?
  }

  /** `k` is how many entries pass before the first that does not. */
  lemma {:induction false} FinalizeStops(calls: Calls, order: seq<nat>, check: Checker) returns (k: nat)
    requires forall i <- order :: i in calls
    ensures k <= |order|
    ensures forall j :: 0 <= j < k ==> Passes(calls, order[j], check)
    ensures k < |order| ==> !Passes(calls, order[k], check)
                            && FinalizeIn(calls, order, check) == Err(check(order[k], calls[order[k]]).error)
    ensures k == |order| ==> FinalizeIn(calls, order, check).Ok?
    decreases order
  {
    k := 0;
    if order != [] && Passes(calls, order[0], check) {
      var rest := order[1..];
      var r := FinalizeStops(calls, rest, check);
      k := r + 1;
      forall j | 0 <= j < k
        ensures Passes(calls, order[j], check)
      {
        if j > 0 {
          assert order[j] == rest[j - 1];
        }
      }
    }
  }

  lemma {:induction false} FinalizeResults(calls: Calls, order: seq<nat>, check: Checker)
    requires forall i <- order :: i in calls
    requires FinalizeIn(calls, order, check).Ok?
    ensures |FinalizeIn(calls, order, check).value| == |order|
    ensures forall k :: 0 <= k < |order| ==>
              check(order[k], calls[order[k]]) == Ok(FinalizeIn(calls, order, check).value[k])
    decreases order
  {
    if order != [] {
      var rest := order[1..];
      FinalizeResults(calls, rest, check);
      var results := FinalizeIn(calls, order, check).value;
      forall k | 0 <= k < |order|
        ensures check(order[k], calls[order[k]]) == Ok(results[k])
      {
        if k > 0 {
          assert order[k] == rest[k - 1];
        }
      }
    }
  }

  /**
   * Finalising succeeds exactly when every entry passes, with one call per index in strictly increasing
   * index order; otherwise it reports the error of the least index that has one.
   */
  lemma FinalizeMeaning(calls: Calls, check: Checker)
    ensures var r, order := FinalizeIn(calls, Sorted(calls.Keys), check), Sorted(calls.Keys);
            && (r.Ok? <==> forall i <- calls :: Passes(calls, i, check))
            && (r.Ok? ==>
                  (|r.value| == |order|
                   && forall k :: 0 <= k < |order| ==> check(order[k], calls[order[k]]) == Ok(r.value[k])))
            && (r.Err? ==> exists i <- calls ::
                  check(i, calls[i]) == Err(r.error) && forall j <- calls :: j < i ==> Passes(calls, j, check))
  {
    var order := Sorted(calls.Keys);
    var k := FinalizeStops(calls, order, check);
    if k == |order| {
      FinalizeResults(calls, order, check);
      forall i <- calls
        ensures Passes(calls, i, check)
      {
        assert i in order;
      }
    } else {
      assert order[k] in order;
      forall i <- calls | i < order[k]
        ensures Passes(calls, i, check)
      {
        assert i in order;
        var j :| 0 <= j < |order| && order[j] == i;
        if k < j {
          assert order[k] < order[j];
        }
      }
    }
  }

  /** The fault of an entry, if it has one: the id is looked at first, then the name, then the arguments. */
  predicate HasFault(e: Entry, error: Error, decode: string -> Decoded) {
    match error
    case MissingCallId(_) => Blank(e.callId)
    case MissingToolName(_) => !Blank(e.callId) && Blank(e.toolName)
    case MalformedJson(_) =>
      !Blank(e.callId) && !Blank(e.toolName) && !Blank(e.arguments) && decode(Strip(e.arguments)).NotJson?
    case NonObjectArguments(_) =>
      !Blank(e.callId) && !Blank(e.toolName) && !Blank(e.arguments) && decode(Strip(e.arguments)).NotObject?
  }

  /** The call made of an id, a name and an argument text: no arguments count as an empty object. */
  predicate IsCallOf(call: ToolCall, callId: string, toolName: string, arguments: string, decode: string -> Decoded) {
    && call.callId == callId && !Blank(callId)
    && call.toolName == toolName && !Blank(toolName)
    && (if Blank(arguments) then call.arguments == "{}"
        else decode(Strip(arguments)) == Object(call.arguments))
  }

  /** An entry that passes becomes its call; a failing one is named by its index, with its fault. */
  lemma CheckMeaning(index: nat, e: Entry, decode: string -> Decoded)
    ensures match Check(index, e, decode)
            case Ok(call) => IsCallOf(call, e.callId, e.toolName, e.arguments, decode)
            case Err(error) => error.index == index && HasFault(e, error, decode)
  {
  }

  /** If finalising fails, it is with the very fault of the entry of least index that has one. */
  lemma FinalizedFault(calls: Calls, decode: string -> Decoded)
    requires Finalize(calls, decode).Err?
    ensures var error := Finalize(calls, decode).error;
            && error.index in calls && HasFault(calls[error.index], error, decode)
            && forall j <- calls, other: Error :: j < error.index ==> !HasFault(calls[j], other, decode)
  {
    hide FinalizeIn;
    FinalizeMeaning(calls, Checks(decode));
    var error := Finalize(calls, decode).error;
    var i :| i in calls && Check(i, calls[i], decode) == Err(error)
             && forall j <- calls :: j < i ==> Passes(calls, j, Checks(decode));
    CheckMeaning(i, calls[i], decode);
    forall j <- calls, other: Error | j < error.index
      ensures !HasFault(calls[j], other, decode)
    {
      assert Passes(calls, j, Checks(decode));
      CheckMeaning(j, calls[j], decode);
    }
  }

  /** Interleaving does not matter to the outcome either: same calls in the same order, or the same error. */
  lemma InterleavingFinalizesAlike(ds: seq<Delta>, es: seq<Delta>, decode: string -> Decoded)
    requires forall i: nat :: Own(ds, i) == Own(es, i)
    ensures Finalize(FeedAll(map[], ds), decode) == Finalize(FeedAll(map[], es), decode)
  {
    InterleavingIrrelevant(ds, es);
  }

  /** Nor does the cutting of names and arguments. */
  lemma ResplitFinalizesAlike(ds: seq<Delta>, es: seq<Delta>, decode: string -> Decoded)
    requires forall i: nat :: SameTexts(Own(ds, i), Own(es, i))
    ensures Finalize(FeedAll(map[], ds), decode) == Finalize(FeedAll(map[], es), decode)
  {
    ResplitIrrelevant(ds, es);
  }

  /**
   * What is delivered: one call per index, in increasing order, each with the id, the name and the decoded
   * arguments of its entry; the former two are not blank, as the call's constructor demands.
   */
  lemma FinalizedCallsAreWhole(calls: Calls, decode: string -> Decoded)
    requires Finalize(calls, decode).Ok?
    ensures var order, r := Sorted(calls.Keys), Finalize(calls, decode).value;
            && |r| == |order|
            && forall k :: 0 <= k < |r| ==>
                 && order[k] in calls
                 && IsCallOf(r[k], calls[order[k]].callId, calls[order[k]].toolName, calls[order[k]].arguments, decode)
  {
    hide Check, FinalizeIn, IsCallOf;
    var order := Sorted(calls.Keys);
    FinalizeMeaning(calls, Checks(decode));
    var r := Finalize(calls, decode).value;
    forall k | 0 <= k < |r|
      ensures order[k] in calls
      ensures IsCallOf(r[k], calls[order[k]].callId, calls[order[k]].toolName, calls[order[k]].arguments, decode)
    {
      assert order[k] in order;
      CheckMeaning(order[k], calls[order[k]], decode);
    }
  }

  /**
   * From the fragments of a stream to the calls: every index with a fragment becomes one call, in increasing
   * order, whose name and arguments are those that its fragments concatenate to.
   */
  lemma StreamedCallsAreWhole(ds: seq<Delta>, decode: string -> Decoded)
    requires Finalize(FeedAll(map[], ds), decode).Ok?
    ensures var order, r := Sorted(FeedAll(map[], ds).Keys), Finalize(FeedAll(map[], ds), decode).value;
            && (forall i: nat :: i in order <==> Own(ds, i) != [])
            && |r| == |order|
            && forall k :: 0 <= k < |r| ==>
                 var own := Own(ds, order[k]);
                 IsCallOf(r[k], MergeIds("", Ids(own)), Names(own), Arguments(own), decode)
  {
    hide FinalizeIn, IsCallOf, FeedAll, Own, Names, Arguments, Ids, MergeIds, MergeAll;
    var calls := FeedAll(map[], ds);
    FinalizedCallsAreWhole(calls, decode);
    forall i: nat
      ensures i in calls <==> Own(ds, i) != []
      ensures i in calls ==> var own := Own(ds, i);
                             && calls[i].callId == MergeIds("", Ids(own)) && calls[i].toolName == Names(own)
                             && calls[i].arguments == Arguments(own)
    {
      EntryFromOwn(map[], ds, i);
      TextsConcatenate(EMPTY, Own(ds, i));
      IdFromFragments(EMPTY, Own(ds, i));
      assert "" + Names(Own(ds, i)) == Names(Own(ds, i)) && "" + Arguments(Own(ds, i)) == Arguments(Own(ds, i));
    }
  }

  /** An id that comes whole, once or again and again, is the id of the call. */
  lemma {:induction false} RepeatedId(id: string, ids: seq<string>)
    requires ids != [] && forall x <- ids :: x == id
    ensures MergeIds("", ids) == id && MergeIds(id, ids) == id
  {
    assert ids[0] in ids;
    if |ids| > 1 {
      assert forall x <- ids[1..] :: x in ids;
      RepeatedId(id, ids[1..]);
    } else {
      assert ids[1..] == [];
    }
  }

  /** The outcome of a finalisation that already has `done`. */
  function After(done: seq<ToolCall>, r: Result<seq<ToolCall>>): Result<seq<ToolCall>> {
    match r case Err(e) => Err(e) case Ok(rest) => Ok(done + rest)
  }

  lemma Resumed(r: Result<seq<ToolCall>>)
    ensures After([], r) == r
  {
    if r.Ok? {
      assert [] + r.value == r.value;
    }
  }

  lemma AfterOne(done: seq<ToolCall>, calls: Calls, order: seq<nat>, i: nat, check: Checker)
    requires i < |order| && forall x <- order :: x in calls
    ensures After(done, FinalizeIn(calls, order[i..], check)) ==
            match check(order[i], calls[order[i]])
            case Err(e) => Err(e)
            case Ok(call) => After(done + [call], FinalizeIn(calls, order[i + 1..], check))
  {
    assert order[i..][0] == order[i] && order[i..][1..] == order[i + 1..];
    if check(order[i], calls[order[i]]).Ok? && FinalizeIn(calls, order[i + 1..], check).Ok? {
      var call, rest := check(order[i], calls[order[i]]).value, FinalizeIn(calls, order[i + 1..], check).value;
      assert done + ([call] + rest) == (done + [call]) + rest;
    }
  }

  // ------------------------------------------------------------------------
  // The accumulator object
  // ------------------------------------------------------------------------

  class ToolCallAccumulator {
    var calls: Calls

    constructor ()
      ensures calls == map[]
    {
      calls := map[];
    }

    method FeedDelta(delta: Delta)
      modifies this
      ensures calls == Feed(old(calls), delta)
    {
      if delta.index !in calls {
        calls := calls[delta.index := EMPTY];
      }
      var entry := calls[delta.index];
      if delta.callId != "" {
        if entry.callId == "" {
          entry := entry.(callId := delta.callId);
        } else if entry.callId != delta.callId {
          entry := entry.(callId := entry.callId + delta.callId);
        }
      }
      if delta.nameDelta != "" {
        entry := entry.(toolName := entry.toolName + delta.nameDelta);
      }
      if delta.argumentsDelta != "" {
        entry := entry.(arguments := entry.arguments + delta.argumentsDelta);
      }
      assert calls[delta.index].toolName + "" == calls[delta.index].toolName;
      assert calls[delta.index].arguments + "" == calls[delta.index].arguments;
      calls := calls[delta.index := entry];
    }

    /** The validation of one entry, as the loop body of the source. */
    static method CheckEntry(idx: nat, entry: Entry, decode: string -> Decoded) returns (r: Result<ToolCall>)
      ensures r == Check(idx, entry, decode)
    {
      if Blank(entry.callId) {
        return Err(MissingCallId(idx));
      }
      if Blank(entry.toolName) {
        return Err(MissingToolName(idx));
      }
      var rawArgs := Strip(entry.arguments);
      var parsed := "{}";
      if rawArgs != "" {
        match decode(rawArgs)
        case NotJson => return Err(MalformedJson(idx));
        case NotObject => return Err(NonObjectArguments(idx));
        case Object(loaded) => parsed := loaded;
      }
      r := Ok(ToolCall(entry.callId, entry.toolName, parsed));
    }

    method FinalizeCalls(decode: string -> Decoded) returns (r: Result<seq<ToolCall>>)
      ensures r == Finalize(calls, decode)
    {
      var order := Sorted(calls.Keys);
      r := FinalizeInOrder(order, decode);
    }

    method FinalizeInOrder(order: seq<nat>, decode: string -> Decoded) returns (r: Result<seq<ToolCall>>)
      requires forall i <- order :: i in calls
      ensures r == FinalizeIn(calls, order, Checks(decode))
    {
      ghost var check := Checks(decode);
      var results: seq<ToolCall> := [];
      assert order[0..] == order;
      Resumed(FinalizeIn(calls, order, check));
      for i := 0 to |order|
        invariant FinalizeIn(calls, order, check) == After(results, FinalizeIn(calls, order[i..], check))
      {
        var idx := order[i];
        var outcome := CheckEntry(idx, calls[idx], decode);
        AfterOne(results, calls, order, i, check);
        if outcome.Err? {
          return Err(outcome.error);
        }
        results := results + [outcome.value];
      }
      assert order[|order|..] == [] && results + [] == results;
      r := Ok(results);
    }

    method Reset()
      modifies this
      ensures calls == map[]
    {
      calls := map[];
    }
  }
}
