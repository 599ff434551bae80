/** The scene part of the rolling memory: which objects live, which were deleted (agent/memory.py). */
module SceneMemory {
  import opened PyText

  datatype Status = Pass | Fail | Other

  /** `readable`: what is to be recorded as a number can be read as one. */
  datatype Verification = Verification(status: Status, operation: string, target: string, readable: bool)

  /**
   * What an inspection reports; garbled are counts of a scene that are no dictionary, or collections without a
   * length.
   */
  datatype Inspection = NotInspected | Inspected(text: string) | Garbled

  /** A tool message as the extraction reads it, after JSON decoding. */
  datatype Payload =
    | NoContent
    | NotJson(text: string, mentionsError: bool)
    | ErrorPayload(text: string)
    | Data(verification: Option<Verification>, visual: Option<(string, string)>, inspection: Inspection)

  datatype Memory = Memory(
    living: map<string, string>,
    deleted: seq<string>,
    inspections: seq<string>,
    errors: seq<string>,
    lastVisual: Option<(string, string)>)

  const EMPTY: Memory := Memory(map[], [], [], [], None)

  predicate IsDelete(operation: string) {
    operation == "delete" || operation == "delete_object"
  }

  /** `list.remove`: drop the first occurrence. */
  function RemoveFirst(s: seq<string>, x: string): seq<string> {
    if s == [] then [] else if s[0] == x then s[1..] else [s[0]] + RemoveFirst(s[1..], x)
  }

  /** Reading the properties of a passing verification raises; deletions have none. */
  predicate RecordRaises(p: Payload) {
    && p.Data? && p.verification.Some? && p.verification.value.status.Pass?
    && !IsDelete(p.verification.value.operation) && !p.verification.value.readable
  }

  /** Garbled inspections raise, too, but a failed verification is reported before they are read. */
  predicate InspectionRaises(p: Payload) {
    && p.Data? && p.inspection.Garbled?
    && !RecordRaises(p) && !(p.verification.Some? && p.verification.value.status.Fail?)
  }

  predicate Raises(p: Payload) {
    RecordRaises(p) || InspectionRaises(p)
  }

  /** Where a number cannot be read, the target is already off the deleted list and not yet on the other. */
  function HalfRecord(m: Memory, target: string): Memory {
    m.(deleted := if target in m.deleted then RemoveFirst(m.deleted, target) else m.deleted)
  }

  /** What one passing verification does to the two collections. */
  function Record(m: Memory, operation: string, target: string): Memory {
    if IsDelete(operation) then
      m.(living := m.living - {target},
         deleted := if target in m.deleted then m.deleted else m.deleted + [target])
    else
      HalfRecord(m, target).(living := m.living[target := operation])
  }

  function Observe(m: Memory, visual: Option<(string, string)>, inspection: Inspection): Memory {
    m.(lastVisual := if visual.Some? then visual else m.lastVisual,
       inspections := if inspection.Inspected? && inspection.text !in m.inspections
                      then m.inspections + [inspection.text] else m.inspections)
  }

  /** The memory after one tool message, or as it is when the extraction raises. */
  function Extract(m: Memory, p: Payload): Memory {
    match p
    case NoContent => m
    case NotJson(text, mentionsError) => if mentionsError then m.(errors := m.errors + [text]) else m
    case ErrorPayload(text) => m.(errors := m.errors + [text])
    case Data(verification, visual, inspection) =>
      if verification.None? || verification.value.status.Other? then Observe(m, visual, inspection)
      else if verification.value.status.Fail? then m.(errors := m.errors + [verification.value.target])
      else if RecordRaises(p) then HalfRecord(m, verification.value.target)
      else Observe(Record(m, verification.value.operation, verification.value.target), visual, inspection)
  }

  /** All tool messages in turn; None where one raises, for then the memory is dropped. */
  function ExtractAll(m: Memory, ps: seq<Payload>): Option<Memory> {
    if ps == [] then Some(m)
    else
      match ExtractAll(m, ps[..|ps| - 1])
      case None => None
      case Some(before) => if Raises(ps[|ps| - 1]) then None else Some(Extract(before, ps[|ps| - 1]))
  }

  /** Absorb the deleted names that a prior summary lists. */
  function AbsorbDeleted(m: Memory, names: seq<string>): Memory {
    if names == [] then m
    else
      var before := AbsorbDeleted(m, names[..|names| - 1]);
      var name := names[|names| - 1];
      if name != "" && name !in before.deleted && name !in before.living
      then before.(deleted := before.deleted + [name]) else before
  }

  // ------------------------------------------------------------------------
  // The memory tracks the scene
  // ------------------------------------------------------------------------

  predicate NoDuplicates(s: seq<string>) {
    forall i, j :: 0 <= i < j < |s| ==> s[i] != s[j]
  }

  /** No object is listed twice as deleted, none as deleted and living. */
  predicate Coherent(m: Memory) {
    NoDuplicates(m.deleted) && forall t <- m.deleted :: t !in m.living
  }

  datatype Fate = Unmentioned | Lives(operation: string) | Deleted

  /** The last passing verification of `t` decides; the others do not count. */
  function FateOf(ps: seq<Payload>, t: string): Fate {
    if ps == [] then Unmentioned
    else
      var p := ps[|ps| - 1];
      if p.Data? && p.verification.Some? && p.verification.value.status.Pass? && p.verification.value.target == t then
        if p.verification.value.operation in {"delete", "delete_object"} then Deleted
        else Lives(p.verification.value.operation)
      else FateOf(ps[..|ps| - 1], t)
  }

  lemma {:induction false} RemoveFirstMeaning(s: seq<string>, x: string)
    requires NoDuplicates(s)
    ensures NoDuplicates(RemoveFirst(s, x))
    ensures forall y :: y in RemoveFirst(s, x) <==> y in s && y != x
  {
    if s != [] {
      var tail := s[1..];
      assert s == [s[0]] + tail;
      assert forall i :: 0 <= i < |tail| ==> tail[i] == s[i + 1] != s[0];
      RemoveFirstMeaning(tail, x);
      var rest := RemoveFirst(tail, x);
      assert s[0] !in rest;
      assert forall i :: 0 <= i < |rest| ==> rest[i] != s[0];
    }
  }

  lemma ExtractCoherent(m: Memory, p: Payload)
    requires Coherent(m)
    ensures Coherent(Extract(m, p))
  {
    RemoveFirstAny(m.deleted);
  }

  lemma RemoveFirstAny(s: seq<string>)
    requires NoDuplicates(s)
    ensures forall x :: NoDuplicates(RemoveFirst(s, x)) && forall y :: y in RemoveFirst(s, x) <==> y in s && y != x
  {
    forall x
      ensures NoDuplicates(RemoveFirst(s, x)) && forall y :: y in RemoveFirst(s, x) <==> y in s && y != x
    {
      RemoveFirstMeaning(s, x);
    }
  }

  predicate AnyRaises(ps: seq<Payload>) {
    exists p <- ps :: Raises(p)
  }

  /** A message raises exactly by a passing check of no deletion with an unreadable number, or a garbled inspection. */
  lemma RaisesExactly(p: Payload)
    ensures Raises(p) <==>
            || (p.Data? && p.verification.Some? && p.verification.value.status.Pass? && !p.verification.value.readable
                && p.verification.value.operation !in {"delete", "delete_object"})
            || (p.Data? && p.inspection.Garbled? && !(p.verification.Some? && p.verification.value.status.Fail?))
  {
  }

  /**
   * From any coherent memory, over any sequence of tool messages: the extraction goes through exactly if no
   * message makes it raise; then a target is living or deleted as its last passing verification says, with the
   * operation of that verification, and as before if it has none; and the memory stays coherent.
   */
  lemma {:induction false} ScenesTracked(m: Memory, ps: seq<Payload>, t: string)
    requires Coherent(m)
    ensures ExtractAll(m, ps).None? <==> AnyRaises(ps)
    ensures ExtractAll(m, ps).Some? ==>
            var r := ExtractAll(m, ps).value;
            && Coherent(r)
            && (t in r.living <==> FateOf(ps, t).Lives? || (FateOf(ps, t) == Unmentioned && t in m.living))
            && (t in r.living ==> r.living[t] == if FateOf(ps, t).Lives? then FateOf(ps, t).operation else m.living[t])
            && (t in r.deleted <==> FateOf(ps, t) == Deleted || (FateOf(ps, t) == Unmentioned && t in m.deleted))
  {
    if ps != [] {
      var front, p := ps[..|ps| - 1], ps[|ps| - 1];
      assert ps == front + [p];
      ScenesTracked(m, front, t);
      if ExtractAll(m, front).Some? {
        ExtractCoherent(ExtractAll(m, front).value, p);
        RemoveFirstAny(ExtractAll(m, front).value.deleted);
      }
    }
  }

  // ------------------------------------------------------------------------
  // What is reported besides
  // ------------------------------------------------------------------------

  /** The error that a message reports, if it does: an error payload, broken JSON about an error, a failed check. */
  function ErrorOf(p: Payload): seq<string> {
    match p
    case NoContent => []
    case NotJson(text, mentionsError) => if mentionsError then [text] else []
    case ErrorPayload(text) => [text]
    case Data(verification, _, _) =>
      if verification.Some? && verification.value.status.Fail? then [verification.value.target] else []
  }

  function ErrorsOf(ps: seq<Payload>): seq<string> {
    if ps == [] then [] else ErrorsOf(ps[..|ps| - 1]) + ErrorOf(ps[|ps| - 1])
  }

  /** The message is data, and no failed check. */
  predicate Informs(p: Payload) {
    p.Data? && !(p.verification.Some? && p.verification.value.status.Fail?)
  }

  function LastVisualOf(ps: seq<Payload>): Option<(string, string)> {
    if ps == [] then None
    else if Informs(ps[|ps| - 1]) && ps[|ps| - 1].visual.Some? then ps[|ps| - 1].visual
    else LastVisualOf(ps[..|ps| - 1])
  }

  predicate InspectedIn(ps: seq<Payload>, text: string) {
    exists p <- ps :: Informs(p) && p.inspection == Inspected(text)
  }

  /**
   * If the extraction goes through: all reported errors are added, in order; the last visual verification is
   * remembered; and every inspection is listed, behind the earlier ones, none of them twice.
   */
  lemma {:induction false} ReportsCollected(m: Memory, ps: seq<Payload>, text: string)
    requires NoDuplicates(m.inspections) && ExtractAll(m, ps).Some?
    ensures var r := ExtractAll(m, ps).value;
            && r.errors == m.errors + ErrorsOf(ps)
            && r.lastVisual == (if LastVisualOf(ps).Some? then LastVisualOf(ps) else m.lastVisual)
            && m.inspections <= r.inspections && NoDuplicates(r.inspections)
            && (text in r.inspections <==> text in m.inspections || InspectedIn(ps, text))
  {
    if ps == [] {
      assert m.errors + [] == m.errors;
    } else {
      var front, p := ps[..|ps| - 1], ps[|ps| - 1];
      ReportsCollected(m, front, text);
      var before := ExtractAll(m, front).value;
      OneReport(before, p);
      assert (m.errors + ErrorsOf(front)) + ErrorOf(p) == m.errors + (ErrorsOf(front) + ErrorOf(p));
      assert ps == front + [p];
      assert InspectedIn(ps, text) <==> InspectedIn(front, text) || (Informs(p) && p.inspection == Inspected(text));
    }
  }

  lemma OneReport(m: Memory, p: Payload)
    requires NoDuplicates(m.inspections) && !Raises(p)
    ensures var r := Extract(m, p);
            && r.errors == m.errors + ErrorOf(p)
            && r.lastVisual == (if Informs(p) && p.visual.Some? then p.visual else m.lastVisual)
            && m.inspections <= r.inspections && NoDuplicates(r.inspections)
            && (forall text :: text in r.inspections <==>
                  text in m.inspections || (Informs(p) && p.inspection == Inspected(text)))
  {
  }

  /**
   * An extraction that raises over a number leaves its target on neither list, unless it was living before; one
   * that raises over an inspection has done all the rest.
   */
  lemma RaisingExtraction(m: Memory, p: Payload)
    requires Coherent(m) && Raises(p)
    ensures RecordRaises(p) ==>
            && Coherent(Extract(m, p)) && Extract(m, p) == m.(deleted := Extract(m, p).deleted)
            && forall x :: x in Extract(m, p).deleted <==> x in m.deleted && x != p.verification.value.target
    ensures InspectionRaises(p) ==>
            var q := p.(inspection := NotInspected);
            !Raises(q) && Extract(m, p) == Extract(m, q)
  {
    ExtractCoherent(m, p);
    RemoveFirstAny(m.deleted);
  }

  lemma {:induction false} AbsorbMeaning(m: Memory, names: seq<string>)
    requires Coherent(m)
    ensures Coherent(AbsorbDeleted(m, names)) && AbsorbDeleted(m, names).living == m.living
    ensures forall t :: t in AbsorbDeleted(m, names).deleted <==>
                        t in m.deleted || (t in names && t != "" && t !in m.living)
  {
    if names != [] {
      AbsorbMeaning(m, names[..|names| - 1]);
      assert names == names[..|names| - 1] + [names[|names| - 1]];
    }
  }

  /** The same when a prior summary's deletions are absorbed into a fresh memory first. */
  lemma ScenesTrackedAfterSummary(names: seq<string>, ps: seq<Payload>, t: string)
    requires t != ""
    ensures ExtractAll(AbsorbDeleted(EMPTY, names), ps).None? <==> AnyRaises(ps)
    ensures ExtractAll(AbsorbDeleted(EMPTY, names), ps).Some? ==>
            var m := ExtractAll(AbsorbDeleted(EMPTY, names), ps).value;
            && Coherent(m)
            && (t in m.living <==> FateOf(ps, t).Lives?)
            && (t in m.living ==> m.living[t] == FateOf(ps, t).operation)
            && (t in m.deleted <==> FateOf(ps, t) == Deleted || (FateOf(ps, t) == Unmentioned && t in names))
  {
    AbsorbMeaning(EMPTY, names);
    ScenesTracked(AbsorbDeleted(EMPTY, names), ps, t);
  }

  // ------------------------------------------------------------------------
  // Deleted names through the summary text
  // ------------------------------------------------------------------------

  /** The line that the summary writes for a deleted object. */
  function WriteDeleted(name: string): string {
    "  * '" + name + "': deleted [PASS]"
  }

  function DropQuotesLeft(s: string): string {
    if s != "" && s[0] == '\'' then DropQuotesLeft(s[1..]) else s
  }

  function DropQuotesRight(s: string): string {
    if s != "" && s[|s| - 1] == '\'' then DropQuotesRight(s[..|s| - 1]) else s
  }

  /** The name that the merge reads back from a line. */
  function ReadDeleted(line: string): string {
    var stripped := Strip(line);
    if |stripped| < 2 then ""
    else DropQuotesRight(DropQuotesLeft(Strip(Split(stripped[2..], ':')[0])))
  }

  lemma {:induction false} DropQuotesShorter(s: string)
    ensures |DropQuotesLeft(s)| <= |s| && DropQuotesRight(s) <= s
    ensures DropQuotesLeft(s) == s <==> s == "" || s[0] != '\''
    ensures DropQuotesRight(s) == s <==> s == "" || s[|s| - 1] != '\''
  {
    if s != "" {
      DropQuotesShorter(s[1..]);
      DropQuotesShorter(s[..|s| - 1]);
    }
  }

  lemma {:induction false} StripShorter(s: string)
    ensures |Strip(s)| <= |s|
  {
    StripLeftShorter(s);
    StripRightShape(StripLeft(s));
  }

  lemma {:induction false} StripLeftShorter(s: string)
    ensures |StripLeft(s)| <= |s|
  {
    if s != "" {
      StripLeftShorter(s[1..]);
    }
  }

  lemma {:induction false} FirstPart(h: string, t: string)
    requires ':' !in h
    ensures Split(h + ":" + t, ':')[0] == h
  {
    var s := h + ":" + t;
    if h != "" {
      assert s[0] == h[0] && s[1..] == h[1..] + ":" + t;
      FirstPart(h[1..], t);
      assert [h[0]] + h[1..] == h;
    }
  }

  lemma {:induction false} CutAtColon(s: string) returns (h: string, t: string)
    requires ':' in s
    ensures s == h + ":" + t && ':' !in h
  {
    if s[0] == ':' {
      h, t := "", s[1..];
    } else {
      assert s == [s[0]] + s[1..];
      h, t := CutAtColon(s[1..]);
      h := [s[0]] + h;
    }
  }

  lemma {:induction false} DropLeftKeepsLast(s: string)
    ensures DropQuotesLeft(s) != "" ==> DropQuotesLeft(s)[|DropQuotesLeft(s)| - 1] == s[|s| - 1]
  {
    if s != "" && s[0] == '\'' {
      DropLeftKeepsLast(s[1..]);
    }
  }

  lemma QuotesAround(name: string)
    ensures DropQuotesLeft("'" + name + "'") == DropQuotesLeft(name + "'")
    ensures DropQuotesRight(name + "'") == DropQuotesRight(name)
  {
    assert ("'" + name + "'")[1..] == name + "'";
    assert (name + "'")[..|name|] == name;
  }

  lemma DropOuterQuotes(name: string)
    ensures DropQuotesRight(DropQuotesLeft("'" + name + "'")) == name
            <==> name == "" || (name[0] != '\'' && name[|name| - 1] != '\'')
  {
    QuotesAround(name);
    DropQuotesShorter(name);
    if name == "" {
      assert name + "'" == "'";
      assert DropQuotesLeft("'") == "";
    } else if name[0] != '\'' {
      assert (name + "'")[0] == name[0];
    } else {
      QuotedShrinks(name);
    }
  }

  lemma QuotedShrinks(name: string)
    requires name != "" && name[0] == '\''
    ensures |DropQuotesRight(DropQuotesLeft(name + "'"))| < |name|
  {
    var inner := (name + "'")[1..];
    assert |inner| == |name| && inner[|inner| - 1] == '\'';
    var x := DropQuotesLeft(inner);
    DropQuotesShorter(inner);
    DropLeftKeepsLast(inner);
    DropQuotesShorter(x);
  }

  lemma StripIndent(rest: string)
    requires rest != "" && !IsSpace(rest[0]) && !IsSpace(rest[|rest| - 1])
    ensures Strip("  " + rest) == rest
  {
    var line := "  " + rest;
    assert line[1..] == " " + rest && line[1..][1..] == rest;
    assert IsSpace(' ') && StripLeft(line) == StripLeft(line[1..]) == StripLeft(rest) == rest;
  }

  lemma StripWritten(name: string)
    ensures Strip(WriteDeleted(name)) == WriteDeleted(name)[2..]
    ensures WriteDeleted(name)[2..][2..] == "'" + name + "':" + " deleted [PASS]"
  {
    hide Strip, IsSpace;
    var rest := "* '" + name + "': deleted [PASS]";
    assert WriteDeleted(name) == "  " + rest;
    assert rest[0] == '*' && rest[|rest| - 1] == ']';
    NoSpaces();
    StripIndent(rest);
    var tail := "'" + name + "':" + " deleted [PASS]";
    assert rest == "* " + tail;
    assert rest[2..] == tail;
  }

  lemma NoSpaces()
    ensures !IsSpace('*') && !IsSpace(']')
  {
  }

  lemma StripQuoted(name: string)
    ensures Strip("'" + name + "'") == "'" + name + "'"
  {
    assert !IsSpace('\'');
  }

  /**
   * A deleted name survives the trip through the summary text exactly when it holds no colon and neither
   * begins nor ends with a quote. (Names holding line breaks are cut into several lines and not covered.)
   */
  lemma DeletedNameRoundTrip(name: string)
    ensures ReadDeleted(WriteDeleted(name)) == name
            <==> ':' !in name && (name == "" || (name[0] != '\'' && name[|name| - 1] != '\''))
  {
    StripWritten(name);
    var tail := "'" + name + "':" + " deleted [PASS]";
    if ':' !in name {
      assert tail == ("'" + name + "'") + ":" + " deleted [PASS]";
      FirstPart("'" + name + "'", " deleted [PASS]");
      StripQuoted(name);
      DropOuterQuotes(name);
    } else {
      var h, t := CutAtColon(name);
      assert tail == ("'" + h) + ":" + (t + "':" + " deleted [PASS]");
      FirstPart("'" + h, t + "':" + " deleted [PASS]");
      var s := Strip("'" + h);
      StripShorter("'" + h);
      DropQuotesShorter(s);
      DropQuotesShorter(DropQuotesLeft(s));
      StripFirstKept('\'', h);
      assert |DropQuotesRight(DropQuotesLeft(s))| < |name|;
    }
  }

  /** A first character that is no space survives stripping; being a quote, it is then dropped. */
  lemma StripFirstKept(c: char, h: string)
    requires c == '\''
    ensures |DropQuotesLeft(Strip([c] + h))| <= |h|
  {
    var s := [c] + h;
    assert !IsSpace(c) && StripLeft(s) == s;
    StripRightShape(s);
    var r := StripRight(s);
    if r != "" {
      assert r[0] == c;
      DropQuotesShorter(r[1..]);
    }
  }

  // ------------------------------------------------------------------------
  // The memory object
  // ------------------------------------------------------------------------

  class RollingMemory {
    var verifiedMutations: map<string, string>
    var deletedEntities: seq<string>
    var inspections: seq<string>
    var errors: seq<string>
    var lastVisualVerification: Option<(string, string)>

    constructor ()
      ensures Value() == EMPTY
    {
      verifiedMutations, deletedEntities, inspections, errors, lastVisualVerification := map[], [], [], [], None;
    }

    function Value(): Memory
      reads this
    {
      Memory(verifiedMutations, deletedEntities, inspections, errors, lastVisualVerification)
    }

    method ExtractToolMessage(p: Payload) returns (raised: bool)
      modifies this
      ensures Value() == Extract(old(Value()), p)
      ensures raised <==> Raises(p)
    {
      raised := false;
      match p
      case NoContent =>
      case NotJson(text, mentionsError) =>
        if mentionsError {
          errors := errors + [text];
        }
      case ErrorPayload(text) =>
        errors := errors + [text];
      case Data(verification, visual, inspection) =>
        if verification.Some? {
          var op, target := verification.value.operation, verification.value.target;
          if verification.value.status.Pass? {
            if IsDelete(op) {
              verifiedMutations := verifiedMutations - {target};
              if target !in deletedEntities {
                deletedEntities := deletedEntities + [target];
              }
            } else {
              if target in deletedEntities {
                deletedEntities := RemoveFirst(deletedEntities, target);
              }
              if !verification.value.readable {
                return true;
              }
              verifiedMutations := verifiedMutations[target := op];
            }
          } else if verification.value.status.Fail? {
            errors := errors + [target];
            return;
          }
        }
        if visual.Some? {
          lastVisualVerification := visual;
        }
        match inspection
        case NotInspected =>
        case Inspected(text) =>
          if text !in inspections {
            inspections := inspections + [text];
          }
        case Garbled =>
          raised := true;
    }

    /** The "Deleted Objects" section of a prior summary, name by name. */
    method MergeDeletedSection(names: seq<string>)
      modifies this
      ensures Value() == AbsorbDeleted(old(Value()), names)
    {
      for i := 0 to |names|
        invariant Value() == AbsorbDeleted(old(Value()), names[..i])
      {
        assert names[..i + 1][..i] == names[..i];
        if names[i] != "" && names[i] !in deletedEntities {
          if names[i] !in verifiedMutations {
            deletedEntities := deletedEntities + [names[i]];
          }
        }
      }
      assert names[..|names|] == names;
    }
  }
}
