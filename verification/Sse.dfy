/** Incremental server-sent-event parsing (agent/sse_parser.py), on text after UTF-8 decoding. */
module Sse {
  import opened PyText

  const DONE_MARKER: string := "[DONE]"

  // ------------------------------------------------------------------------
  // Line ends
  // ------------------------------------------------------------------------

  /** `s.replace("\r\n", "\n")`. */
  function ReplaceCrLf(s: string): (r: string)
    ensures |r| <= |s|
  {
    if s == "" then ""
    else if |s| >= 2 && s[0] == '\r' && s[1] == '\n' then "\n" + ReplaceCrLf(s[2..])
    else [s[0]] + ReplaceCrLf(s[1..])
  }

  /** `s.replace("\r", "\n")`. */
  function ReplaceCr(s: string): (r: string)
    ensures |r| == |s| && '\r' !in r
  {
    seq(|s|, i requires 0 <= i < |s| => if s[i] == '\r' then '\n' else s[i])
  }

  function Normalize(s: string): (r: string)
    ensures |r| <= |s| && '\r' !in r
  {
    ReplaceCr(ReplaceCrLf(s))
  }

  predicate EndsCr(s: string) {
    s != "" && s[|s| - 1] == '\r'
  }

  predicate StartsLf(s: string) {
    s != "" && s[0] == '\n'
  }

  lemma {:induction false} ReplaceCrLfConcat(a: string, b: string)
    requires !(EndsCr(a) && StartsLf(b))
    ensures ReplaceCrLf(a + b) == ReplaceCrLf(a) + ReplaceCrLf(b)
  {
    if a == "" {
      assert a + b == b;
    } else if |a| >= 2 && a[0] == '\r' && a[1] == '\n' {
      var c := a + b;
      assert c[0] == a[0] && c[1] == a[1] && c[2..] == a[2..] + b;
      ReplaceCrLfConcat(a[2..], b);
      assert "\n" + (ReplaceCrLf(a[2..]) + ReplaceCrLf(b)) == ("\n" + ReplaceCrLf(a[2..])) + ReplaceCrLf(b);
    } else {
      var c := a + b;
      assert c[0] == a[0] && c[1..] == a[1..] + b;
      assert |c| >= 2 ==> c[1] == if |a| >= 2 then a[1] else b[0];
      ReplaceCrLfConcat(a[1..], b);
      assert [a[0]] + (ReplaceCrLf(a[1..]) + ReplaceCrLf(b)) == ([a[0]] + ReplaceCrLf(a[1..])) + ReplaceCrLf(b);
    }
  }

  /** Line ends may be normalised piece by piece, unless a CR LF pair is cut in two. */
  lemma NormalizeConcat(a: string, b: string)
    requires !(EndsCr(a) && StartsLf(b))
    ensures Normalize(a + b) == Normalize(a) + Normalize(b)
  {
    ReplaceCrLfConcat(a, b);
    var x, y := ReplaceCrLf(a), ReplaceCrLf(b);
    assert ReplaceCr(x + y) == ReplaceCr(x) + ReplaceCr(y);
  }

  lemma {:induction false} NormalizeClean(s: string)
    requires '\r' !in s
    ensures Normalize(s) == s
  {
    if s != "" {
      NormalizeClean(s[1..]);
      NormalizeConcat([s[0]], s[1..]);
      assert s == [s[0]] + s[1..];
      assert Normalize([s[0]]) == [s[0]];
    }
  }

  // ------------------------------------------------------------------------
  // Lines to payloads
  // ------------------------------------------------------------------------

  function IndexOf(s: string, c: char): (i: nat)
    requires c in s
    ensures i < |s| && s[i] == c && c !in s[..i]
  {
    if s[0] == c then 0
    else
      assert s == [s[0]] + s[1..];
      var i := IndexOf(s[1..], c) + 1;
      assert s[..i] == [s[0]] + s[1..][..i - 1];
      i
  }

  /** The field name and value of a line, cut at the first colon; one leading space of the value goes. */
  function ParseField(line: string): (string, string) {
    if ':' in line then
      var i := IndexOf(line, ':');
      var value := line[i + 1..];
      (line[..i], if value != "" && value[0] == ' ' then value[1..] else value)
    else (line, "")
  }

  function TotalLength(lines: seq<string>): nat {
    if lines == [] then 0 else TotalLength(lines[..|lines| - 1]) + |lines[|lines| - 1]|
  }

  /** The parser fields that line processing changes, the payloads so far, and whether it has raised. */
  datatype Progress = Progress(data: seq<string>, done: bool, events: seq<string>, overflow: bool)

  /** Dispatch the accumulated event, if there is one. */
  function Dispatch(p: Progress): Progress {
    if p.data == [] then p
    else
      var payload := Join("\n", p.data);
      Progress([], p.done || payload == DONE_MARKER, p.events + [payload], p.overflow)
  }

  /** `limit` None stands for a parser without size caps. */
  function ProcessLine(p: Progress, line: string, limit: Option<nat>): Progress {
    if line == "" then Dispatch(p)
    else if line[0] == ':' then p
    else if ParseField(line).0 == "data" then
      var data := p.data + [ParseField(line).1];
      p.(data := data, overflow := limit.Some? && TotalLength(data) > limit.value)
    else p
  }

  function ProcessLines(p: Progress, lines: seq<string>, limit: Option<nat>): Progress
    decreases lines
  {
    if lines == [] || p.overflow then p
    else ProcessLines(ProcessLine(p, lines[0], limit), lines[1..], limit)
  }

  lemma {:induction false} ProcessConcat(p: Progress, a: seq<string>, b: seq<string>, limit: Option<nat>)
    ensures ProcessLines(p, a + b, limit) == ProcessLines(ProcessLines(p, a, limit), b, limit)
    decreases a
  {
    if a == [] || p.overflow {
      assert a == [] ==> a + b == b;
    } else {
      assert (a + b)[1..] == a[1..] + b;
      ProcessConcat(ProcessLine(p, a[0], limit), a[1..], b, limit);
    }
  }

  /** Payloads already dispatched do not influence later lines. */
  lemma {:induction false} ProcessPrefix(p: Progress, before: seq<string>, lines: seq<string>, limit: Option<nat>)
    ensures var q := ProcessLines(p, lines, limit);
            ProcessLines(p.(events := before + p.events), lines, limit) == q.(events := before + q.events)
    decreases lines
  {
    if lines != [] && !p.overflow {
      var next := ProcessLine(p, lines[0], limit);
      ProcessPrefix(next, before, lines[1..], limit);
      if p.data != [] {
        var payload := Join("\n", p.data);
        assert before + (p.events + [payload]) == (before + p.events) + [payload];
      }
    }
  }

  /** Without an overflow the caps have had no effect. */
  lemma {:induction false} CapsInvisible(p: Progress, lines: seq<string>, limit: nat)
    requires !ProcessLines(p, lines, Some(limit)).overflow
    ensures ProcessLines(p, lines, None) == ProcessLines(p, lines, Some(limit))
    decreases lines
  {
    if lines != [] && !p.overflow {
      var next := ProcessLine(p, lines[0], Some(limit));
      CapsInvisible(next, lines[1..], limit);
    }
  }

  /** The done flag is raised exactly by a `[DONE]` payload. */
  lemma {:induction false} DoneMeansMarker(p: Progress, lines: seq<string>, limit: Option<nat>)
    requires p.done <==> DONE_MARKER in p.events
    ensures var q := ProcessLines(p, lines, limit); q.done <==> DONE_MARKER in q.events
    decreases lines
  {
    if lines != [] && !p.overflow {
      DoneMeansMarker(ProcessLine(p, lines[0], limit), lines[1..], limit);
    }
  }

  // ------------------------------------------------------------------------
  // One feed, and the close at the end of the stream
  // ------------------------------------------------------------------------

  datatype State = State(buffer: string, data: seq<string>, done: bool)

  datatype Outcome = Payloads(events: seq<string>) | EventTooLarge

  const START: State := State("", [], false)

  /** A trailing CR is held back, because its LF may come with the next chunk. */
  function HeldBack(s: string): (r: string)
    ensures |r| <= |s|
  {
    if EndsCr(s) then "\r" else ""
  }

  function Body(s: string): string {
    s[..|s| - |HeldBack(s)|]
  }

  /** The complete lines of the buffer. */
  function LinesOf(s: string): seq<string> {
    var parts := Split(Normalize(Body(s)), '\n');
    parts[..|parts| - 1]
  }

  /** The incomplete last line. */
  function Partial(s: string): string {
    var parts := Split(Normalize(Body(s)), '\n');
    parts[|parts| - 1]
  }

  /** What stays in the buffer. */
  function RestOf(s: string): string {
    Partial(s) + HeldBack(s)
  }

  function Feed(st: State, text: string, limit: nat): (State, Outcome) {
    var buffer := st.buffer + text;
    if |buffer| > limit then (st.(buffer := buffer), EventTooLarge)
    else
      var p := ProcessLines(Progress(st.data, st.done, [], false), LinesOf(buffer), Some(limit));
      (State(RestOf(buffer), p.data, p.done), if p.overflow then EventTooLarge else Payloads(p.events))
  }

  function Close(st: State, limit: nat): (State, Outcome) {
    var p0 := Progress(st.data, st.done, [], false);
    var p := if st.buffer == "" then p0 else ProcessLines(p0, Split(Normalize(st.buffer), '\n'), Some(limit));
    if p.overflow then (State("", p.data, p.done), EventTooLarge)
    else
      var q := Dispatch(p);
      (State("", q.data, q.done), Payloads(q.events))
  }

  // ------------------------------------------------------------------------
  // Chunk independence
  // ------------------------------------------------------------------------

  lemma {:induction false} SplitLength(s: string, sep: char)
    ensures |Split(s, sep)[|Split(s, sep)| - 1]| <= |s|
  {
    if s != "" {
      SplitLength(s[1..], sep);
    }
  }

  lemma PartialIsClean(s: string)
    ensures '\r' !in Partial(s) && '\n' !in Partial(s)
    ensures |RestOf(s)| <= |s|
  {
    var n := Normalize(Body(s));
    SplitFree(n, '\n');
    SplitKeeps(n, '\n');
    SplitLength(n, '\n');
  }

  lemma {:induction false} SplitKeeps(s: string, sep: char)
    ensures forall k, c :: 0 <= k < |Split(s, sep)| && c in Split(s, sep)[k] ==> c in s
  {
    if s != "" {
      SplitKeeps(s[1..], sep);
      var tail := Split(s[1..], sep);
      assert s == [s[0]] + s[1..];
      forall k, c | 0 <= k < |Split(s, sep)| && c in Split(s, sep)[k]
        ensures c in s
      {
        if s[0] == sep {
          assert k > 0 && c in tail[k - 1];
        } else if k == 0 {
          assert c == s[0] || c in tail[0];
        } else {
          assert c in tail[k];
        }
      }
    }
  }

  lemma GlueEnds(p: seq<string>, q: seq<string>)
    requires |p| >= 1 && |q| >= 1
    ensures var last := p[|p| - 1];
            var whole, tail := Glue(p, q), Glue([last], q);
            && whole[..|whole| - 1] == p[..|p| - 1] + tail[..|tail| - 1]
            && whole[|whole| - 1] == tail[|tail| - 1]
            && whole == p[..|p| - 1] + tail
  {
    assert [p[|p| - 1]][..0] == [];
  }

  /** Normalising and splitting a buffer goes on from the partial line that an earlier extraction left. */
  lemma SplitResumes(s: string, z: string)
    requires !(EndsCr(Body(s)) && StartsLf(z))
    ensures Split(Normalize(Body(s) + z), '\n') == LinesOf(s) + Split(Normalize(Partial(s) + z), '\n')
  {
    var n, m, r := Normalize(Body(s)), Normalize(z), Partial(s);
    PartialIsClean(s);
    NormalizeConcat(Body(s), z);
    NormalizeConcat(r, z);
    NormalizeClean(r);
    SplitConcat(n, m, '\n');
    SplitConcat(r, m, '\n');
    SplitFree(r, '\n');
    GlueEnds(Split(n, '\n'), Split(m, '\n'));
  }

  /** A nonempty tail decides what is held back. */
  lemma TailDecides(a: string, z: string)
    requires z != ""
    ensures HeldBack(a + z) == HeldBack(z) && Body(a + z) == a + Body(z)
  {
    assert (a + z)[|a + z| - 1] == z[|z| - 1];
  }

  lemma AllButLast(p: seq<string>, q: seq<string>)
    requires |q| >= 1
    ensures (p + q)[..|p + q| - 1] == p + q[..|q| - 1] && (p + q)[|p + q| - 1] == q[|q| - 1]
  {
  }

  lemma ExtractClean(r: string)
    requires '\r' !in r && '\n' !in r
    ensures LinesOf(r) == [] && RestOf(r) == r
  {
    NormalizeClean(r);
    SplitFree(r, '\n');
    assert Body(r) == r && r + "" == r;
  }

  /** Extracting lines from a longer text is extracting twice, with the rest carried over. */
  lemma ExtractResumes(s: string, y: string)
    ensures LinesOf(s + y) == LinesOf(s) + LinesOf(RestOf(s) + y)
    ensures RestOf(s + y) == RestOf(RestOf(s) + y)
  {
    hide Normalize, Split, LinesOf, Partial;
    PartialIsClean(s);
    var held, r := HeldBack(s), Partial(s);
    var z := held + y;
    assert s == Body(s) + held;
    assert s + y == Body(s) + z && RestOf(s) + y == r + z;
    if z == "" {
      assert s + y == s && r + z == r == RestOf(s);
      ExtractClean(r);
    } else {
      ExtractMore(s, z);
    }
  }

  lemma ExtractMore(s: string, z: string)
    requires z != "" && !(EndsCr(Body(s)) && StartsLf(Body(z)))
    ensures LinesOf(Body(s) + z) == LinesOf(s) + LinesOf(Partial(s) + z)
    ensures RestOf(Body(s) + z) == RestOf(Partial(s) + z)
  {
    TailDecides(Body(s), z);
    TailDecides(Partial(s), z);
    SplitResumes(s, Body(z));
    AllButLast(LinesOf(s), Split(Normalize(Partial(s) + Body(z)), '\n'));
  }

  /**
   * One chunk may be cut in two anywhere, also between CR and LF: feeding `x + y` succeeds exactly when
   * feeding `x` and then `y` does and the whole text fits the buffer cap, and then payloads and final
   * state agree.
   */
  lemma ChunkIndependence(st: State, x: string, y: string, limit: nat)
    ensures var whole := Feed(st, x + y, limit);
            var first := Feed(st, x, limit);
            var second := Feed(first.0, y, limit);
            && (whole.1.Payloads? <==>
                  first.1.Payloads? && second.1.Payloads? && |st.buffer| + |x| + |y| <= limit)
            && (whole.1.Payloads? ==>
                  whole.0 == second.0 && whole.1.events == first.1.events + second.1.events)
  {
    var s := st.buffer + x;
    assert st.buffer + (x + y) == s + y;
    ExtractResumes(s, y);
    PartialIsClean(s);
    var p0 := Progress(st.data, st.done, [], false);
    var p1 := ProcessLines(p0, LinesOf(s), Some(limit));
    ProcessConcat(p0, LinesOf(s), LinesOf(RestOf(s) + y), Some(limit));
    ProcessPrefix(p1.(events := []), p1.events, LinesOf(RestOf(s) + y), Some(limit));
    assert p1.events + [] == p1.events;
    assert p1.(events := []).(events := p1.events + []) == p1;
  }

  function FeedAll(st: State, chunks: seq<string>, limit: nat): (State, Outcome)
    decreases chunks
  {
    if chunks == [] then (st, Payloads([]))
    else
      var first := Feed(st, chunks[0], limit);
      if first.1.EventTooLarge? then first
      else
        var rest := FeedAll(first.0, chunks[1..], limit);
        (rest.0, if rest.1.EventTooLarge? then EventTooLarge else Payloads(first.1.events + rest.1.events))
  }

  function Concat(chunks: seq<string>): string {
    if chunks == [] then "" else chunks[0] + Concat(chunks[1..])
  }

  /** A buffer as a feed leaves it: at most a trailing CR is left of the line ends. */
  predicate Settled(st: State, limit: nat) {
    |st.buffer| <= limit && LinesOf(st.buffer) == [] && RestOf(st.buffer) == st.buffer
  }

  lemma FeedSettles(st: State, text: string, limit: nat)
    requires Feed(st, text, limit).1.Payloads?
    ensures Settled(Feed(st, text, limit).0, limit)
  {
    var s := st.buffer + text;
    ExtractResumes(s, "");
    PartialIsClean(s);
    assert s + "" == s && RestOf(s) + "" == RestOf(s);
  }

  /**
   * A text fed in one piece succeeds exactly if all pieces of any cutting succeed and the whole fits the buffer
   * cap; then payloads and final state agree.
   */
  lemma {:induction false} AnyChunking(st: State, chunks: seq<string>, limit: nat)
    requires Settled(st, limit)
    ensures Feed(st, Concat(chunks), limit).1.Payloads? <==>
            FeedAll(st, chunks, limit).1.Payloads? && |st.buffer| + |Concat(chunks)| <= limit
    ensures Feed(st, Concat(chunks), limit).1.Payloads? ==>
            FeedAll(st, chunks, limit) == Feed(st, Concat(chunks), limit)
    decreases chunks
  {
    if chunks == [] {
      assert st.buffer + "" == st.buffer;
    } else {
      ChunkIndependence(st, chunks[0], Concat(chunks[1..]), limit);
      if Feed(st, chunks[0], limit).1.Payloads? {
        FeedSettles(st, chunks[0], limit);
        PartialIsClean(st.buffer + chunks[0]);
        AnyChunking(Feed(st, chunks[0], limit).0, chunks[1..], limit);
      }
    }
  }

  /** The caps do depend on the cutting: two blank lines overflow a cap of one character, line by line they pass. */
  lemma CapDependsOnChunking()
    ensures Feed(START, "\n\n", 1).1.EventTooLarge?
    ensures FeedAll(START, ["\n", "\n"], 1) == (START, Payloads([]))
  {
    hide Feed;
    var x := "\n";
    OneBlankLine();
    OverTheCap();
    QuietChunk(START, x, [], 1);
    QuietChunk(START, x, [x], 1);
    assert [x] + [] == [x] && [x] + [x] == [x, x];
  }

  /** A piece that yields nothing and changes nothing may be left out. */
  lemma QuietChunk(st: State, chunk: string, rest: seq<string>, limit: nat)
    requires Feed(st, chunk, limit) == (st, Payloads([]))
    ensures FeedAll(st, [chunk] + rest, limit) == FeedAll(st, rest, limit)
  {
    hide Feed;
    assert ([chunk] + rest)[1..] == rest;
    var more := FeedAll(st, rest, limit).1;
    assert more.Payloads? ==> [] + more.events == more.events;
  }

  lemma OneBlankLine()
    ensures Feed(START, "\n", 1) == (START, Payloads([]))
  {
    var x := "\n";
    NormalizeClean(x);
    assert Split(x, '\n') == ["", ""];
    assert START.buffer + x == x && Body(x) == x;
    assert LinesOf(x) == [""] && RestOf(x) == "";
    assert [""][1..] == [];
  }

  lemma OverTheCap()
    ensures Feed(START, "\n\n", 1).1.EventTooLarge?
  {
    assert START.buffer + "\n\n" == "\n\n";
  }

  // ------------------------------------------------------------------------
  // The one-shot reference
  // ------------------------------------------------------------------------

  /** The value a line adds to the event, after section 9.2.6 of the WHATWG HTML Standard. */
  function DataValue(line: string): Option<string> {
    if line == "data" then Some("")
    else if "data:" <= line then
      Some(if |line| > 5 && line[5] == ' ' then line[6..] else line[5..])
    else None
  }

  /** A line is a data line for the parser exactly when it is one for the standard. */
  lemma DataField(line: string)
    requires line != ""
    ensures line[0] != ':' && ParseField(line).0 == "data" <==> DataValue(line).Some?
    ensures DataValue(line).Some? ==> ParseField(line).1 == DataValue(line).value
  {
    if "data:" <= line {
      assert line[..4] == "data" && line[4] == "data:"[4] == ':';
      IndexOfIs(line, ':', 4);
    }
    if ':' in line && line[..IndexOf(line, ':')] == "data" {
      assert line == "data" + [':'] + line[5..];
    }
  }

  lemma {:induction false} IndexOfIs(s: string, c: char, k: nat)
    requires k < |s| && s[k] == c && c !in s[..k]
    ensures IndexOf(s, c) == k
  {
    var i := IndexOf(s, c);
    assert forall j :: 0 <= j < k ==> s[..k][j] == s[j];
    assert forall j :: 0 <= j < i ==> s[..i][j] == s[j];
  }

  lemma {:induction false} FirstPartIs(h: string, t: string, sep: char)
    requires sep !in h
    ensures Split(h + [sep] + t, sep) == [h] + Split(t, sep)
  {
    var s := h + [sep] + t;
    if h == "" {
      assert s[1..] == t;
    } else {
      assert s[0] == h[0] && s[1..] == h[1..] + [sep] + t;
      FirstPartIs(h[1..], t, sep);
      assert [h[0]] + h[1..] == h;
      assert ([h[1..]] + Split(t, sep))[1..] == Split(t, sep);
    }
  }

  /** The lines of a text: CR LF, LF and CR each end one line, and the end of the text ends the last. */
  function TextLines(text: string): (lines: seq<string>)
    ensures |lines| >= 1
  {
    if text == "" then [""]
    else if "\r\n" <= text then [""] + TextLines(text[2..])
    else if text[0] == '\n' || text[0] == '\r' then [""] + TextLines(text[1..])
    else
      var tail := TextLines(text[1..]);
      [[text[0]] + tail[0]] + tail[1..]
  }

  lemma SplitCons(c: char, s: string)
    ensures Split([c] + s, '\n') ==
            if c == '\n' then [""] + Split(s, '\n') else [[c] + Split(s, '\n')[0]] + Split(s, '\n')[1..]
  {
    assert ([c] + s)[1..] == s;
  }

  lemma StartsCrLf(s: string)
    ensures "\r\n" <= s <==> |s| >= 2 && s[0] == '\r' && s[1] == '\n'
  {
    var pair := "\r\n";
    assert pair <= s <==> |s| >= 2 && s[..2] == pair;
    assert |s| >= 2 ==> s[..2] == [s[0], s[1]];
  }

  lemma NormalizeHead(s: string)
    requires s != ""
    ensures Normalize(s) == if "\r\n" <= s then "\n" + Normalize(s[2..])
                            else [if s[0] == '\r' then '\n' else s[0]] + Normalize(s[1..])
  {
    StartsCrLf(s);
  }

  /** Splitting the normalised text gives its lines. */
  lemma {:induction false} NormalizedLines(text: string)
    ensures Split(Normalize(text), '\n') == TextLines(text)
  {
    if text != "" {
      NormalizeHead(text);
      if "\r\n" <= text {
        NormalizedLines(text[2..]);
        SplitCons('\n', Normalize(text[2..]));
      } else {
        NormalizedLines(text[1..]);
        SplitCons(if text[0] == '\r' then '\n' else text[0], Normalize(text[1..]));
      }
    }
  }

  /** Cut a list of lines at its blank lines. */
  function Blocks(lines: seq<string>): (bs: seq<seq<string>>)
    ensures |bs| >= 1
  {
    if lines == [] then [[]]
    else
      var tail := Blocks(lines[1..]);
      if lines[0] == "" then [[]] + tail else [[lines[0]] + tail[0]] + tail[1..]
  }

  function DataValues(block: seq<string>): seq<string> {
    if block == [] then []
    else (if DataValue(block[0]).Some? then [DataValue(block[0]).value] else []) + DataValues(block[1..])
  }

  /** The payload of one event: its data values joined by newlines, if it has any. */
  function Emit(values: seq<string>): seq<string> {
    if values == [] then [] else [Join("\n", values)]
  }

  function EmitAll(blocks: seq<seq<string>>): seq<string> {
    if blocks == [] then [] else Emit(DataValues(blocks[0])) + EmitAll(blocks[1..])
  }

  /** The payloads of a whole stream; data pending at its end counts as an event. */
  function Decode(text: string): seq<string> {
    EmitAll(Blocks(TextLines(text)))
  }

  lemma BlankLineStep(p: Progress, tail: seq<seq<string>>)
    requires |tail| >= 1
    ensures Dispatch(p).events + Emit(Dispatch(p).data + DataValues(tail[0])) + EmitAll(tail[1..])
         == p.events + Emit(p.data + DataValues([])) + EmitAll(([[]] + tail)[1..])
  {
    assert ([[]] + tail)[1..] == tail;
    assert p.data + DataValues([]) == p.data;
    assert [] + DataValues(tail[0]) == DataValues(tail[0]);
    assert Dispatch(p).data == [] && Dispatch(p).events == p.events + Emit(p.data);
  }

  lemma TextLineStep(p: Progress, line: string, first: seq<string>)
    requires line != "" && !p.overflow
    ensures var next := ProcessLine(p, line, None);
            && next.events == p.events && !next.overflow
            && next.data + DataValues(first) == p.data + DataValues([line] + first)
  {
    DataField(line);
    assert ([line] + first)[1..] == first;
    if DataValue(line).Some? {
      assert (p.data + [DataValue(line).value]) + DataValues(first)
          == p.data + ([DataValue(line).value] + DataValues(first));
    }
  }

  /** Line-by-line processing with a final flush is what the blocks say. */
  lemma {:induction false} ProcessMeansBlocks(p: Progress, lines: seq<string>)
    requires !p.overflow
    ensures !ProcessLines(p, lines, None).overflow
    ensures Dispatch(ProcessLines(p, lines, None)).events
         == p.events + Emit(p.data + DataValues(Blocks(lines)[0])) + EmitAll(Blocks(lines)[1..])
    decreases lines
  {
    if lines == [] {
      assert p.data + [] == p.data;
    } else {
      var tail := Blocks(lines[1..]);
      ProcessMeansBlocks(ProcessLine(p, lines[0], None), lines[1..]);
      if lines[0] == "" {
        BlankLineStep(p, tail);
      } else {
        TextLineStep(p, lines[0], tail[0]);
        assert Blocks(lines)[1..] == tail[1..];
      }
    }
  }

  lemma AppendNothing<T>(s: seq<T>)
    ensures s + [] == s && [] + s == s
  {
  }

  lemma Regroup<T>(a: seq<T>, b: seq<T>, c: seq<T>)
    ensures a + (b + c) == (a + b) + c
  {
  }

  /** The parser has read `text`: buffer and progress are those of one extraction from the whole of it. */
  predicate HasRead(st: State, text: string, events: seq<string>) {
    && st.buffer == RestOf(text)
    && ProcessLines(Progress([], false, [], false), LinesOf(text), None) == Progress(st.data, st.done, events, false)
  }

  lemma FeedExtendsRead(st: State, text: string, events: seq<string>, chunk: string, limit: nat)
    requires HasRead(st, text, events)
    requires Feed(st, chunk, limit).1.Payloads?
    ensures HasRead(Feed(st, chunk, limit).0, text + chunk, events + Feed(st, chunk, limit).1.events)
  {
    ExtractResumes(text, chunk);
    var more := LinesOf(RestOf(text) + chunk);
    var p := Progress(st.data, st.done, [], false);
    ProcessConcat(Progress([], false, [], false), LinesOf(text), more, None);
    CapsInvisible(p, more, limit);
    ProcessPrefix(p, events, more, None);
    assert p.(events := events + []) == Progress(st.data, st.done, events, false) by { assert events + [] == events; }
  }

  lemma {:induction false} FeedAllExtendsRead(st: State, text: string, events: seq<string>,
                                              chunks: seq<string>, limit: nat)
    requires HasRead(st, text, events)
    requires FeedAll(st, chunks, limit).1.Payloads?
    ensures HasRead(FeedAll(st, chunks, limit).0, text + Concat(chunks), events + FeedAll(st, chunks, limit).1.events)
    decreases chunks
  {
    if chunks == [] {
      AppendNothing(text);
      AppendNothing(events);
    } else {
      var first := Feed(st, chunks[0], limit);
      var rest := FeedAll(first.0, chunks[1..], limit);
      Regroup(text, chunks[0], Concat(chunks[1..]));
      Regroup(events, first.1.events, rest.1.events);
      FeedExtendsRead(st, text, events, chunks[0], limit);
      FeedAllExtendsRead(first.0, text + chunks[0], events + first.1.events, chunks[1..], limit);
    }
  }

  /** Extracted lines and the split of the rest are together the split of the whole. */
  lemma LinesAndRest(text: string)
    ensures Split(Normalize(text), '\n') == LinesOf(text) + Split(Normalize(RestOf(text)), '\n')
  {
    var held := HeldBack(text);
    SplitResumes(text, held);
    assert Body(text) + held == text;
  }

  /** The reference, computed line by line. */
  lemma DecodeIsProcess(text: string)
    ensures var all := ProcessLines(Progress([], false, [], false), Split(Normalize(text), '\n'), None);
            && !all.overflow && Decode(text) == Dispatch(all).events
            && (Dispatch(all).done <==> DONE_MARKER in Decode(text))
  {
    var start := Progress([], false, [], false);
    var lines := Split(Normalize(text), '\n');
    NormalizedLines(text);
    ProcessMeansBlocks(start, lines);
    DoneMeansMarker(start, lines, None);
    AppendNothing(DataValues(Blocks(lines)[0]));
    AppendNothing(Emit(DataValues(Blocks(lines)[0])));
  }

  /** Closing is processing the split of what is buffered, then dispatching. */
  lemma CloseProcessesRest(st: State, limit: nat)
    requires Close(st, limit).1.Payloads?
    ensures var q := Dispatch(ProcessLines(Progress(st.data, st.done, [], false),
                                           Split(Normalize(st.buffer), '\n'), None));
            Close(st, limit) == (State("", q.data, q.done), Payloads(q.events))
  {
    var p := Progress(st.data, st.done, [], false);
    var tail := Split(Normalize(st.buffer), '\n');
    if st.buffer == "" {
      assert Normalize("") == "" && tail == [""] && tail[1..] == [];
      assert ProcessLines(p, tail, None) == Dispatch(p);
      DispatchTwice(p);
    } else {
      CapsInvisible(p, tail, limit);
    }
  }

  lemma CloseCompletesRead(st: State, text: string, events: seq<string>, limit: nat)
    requires HasRead(st, text, events)
    requires Close(st, limit).1.Payloads?
    ensures events + Close(st, limit).1.events == Decode(text)
    ensures DONE_MARKER in Decode(text) <==> Close(st, limit).0.done
  {
    var tail := Split(Normalize(st.buffer), '\n');
    var p := Progress(st.data, st.done, [], false);
    LinesAndRest(text);
    ProcessConcat(Progress([], false, [], false), LinesOf(text), tail, None);
    DecodeIsProcess(text);
    CloseProcessesRest(st, limit);
    AppendNothing(events);
    ProcessPrefix(p, events, tail, None);
    DispatchPrefix(ProcessLines(p, tail, None), events);
  }

  lemma DispatchPrefix(p: Progress, before: seq<string>)
    ensures var q := Dispatch(p);
            Dispatch(p.(events := before + p.events)) == q.(events := before + q.events)
  {
    if p.data != [] {
      Regroup(before, p.events, [Join("\n", p.data)]);
    }
  }

  lemma DispatchTwice(p: Progress)
    ensures Dispatch(Dispatch(p)) == Dispatch(p)
  {
  }

  lemma StartHasRead()
    ensures HasRead(START, "", [])
  {
  }

  /**
   * For every cutting that does not raise, the payloads of all feeds followed by those of close are the
   * one-shot reading of the concatenated text, and the parser ends done exactly when `[DONE]` is among them.
   */
  lemma StreamRefinesReference(chunks: seq<string>, limit: nat)
    requires FeedAll(START, chunks, limit).1.Payloads?
    requires Close(FeedAll(START, chunks, limit).0, limit).1.Payloads?
    ensures var fed := FeedAll(START, chunks, limit);
            && fed.1.events + Close(fed.0, limit).1.events == Decode(Concat(chunks))
            && (Close(fed.0, limit).0.done <==> DONE_MARKER in Decode(Concat(chunks)))
  {
    hide FeedAll, Close, Decode, HasRead;
    StartHasRead();
    FeedAllExtendsRead(START, "", [], chunks, limit);
    var fed := FeedAll(START, chunks, limit);
    assert "" + Concat(chunks) == Concat(chunks) && [] + fed.1.events == fed.1.events;
    CloseCompletesRead(fed.0, Concat(chunks), fed.1.events, limit);
  }

  // ------------------------------------------------------------------------
  // Framed payloads come back
  // ------------------------------------------------------------------------

  predicate IsLineEnd(eol: string) {
    eol == "\n" || eol == "\r\n" || eol == "\r"
  }

  function FrameLines(parts: seq<string>, eol: string): string {
    if parts == [] then "" else "data: " + parts[0] + eol + FrameLines(parts[1..], eol)
  }

  /** How a server frames one payload: a data line per line of text, then a blank line. */
  function Frame(payload: string, eol: string): string {
    FrameLines(Split(payload, '\n'), eol) + eol
  }

  function Encode(payloads: seq<string>, eol: string): string {
    if payloads == [] then "" else Frame(payloads[0], eol) + Encode(payloads[1..], eol)
  }

  function DataLines(parts: seq<string>): seq<string> {
    seq(|parts|, i requires 0 <= i < |parts| => "data: " + parts[i])
  }

  predicate CleanLine(line: string) {
    '\n' !in line && '\r' !in line
  }

  /** A CR ends a line only if no LF follows, for that would belong to it. */
  predicate EndsHere(eol: string, rest: string) {
    IsLineEnd(eol) && (eol == "\r" ==> !StartsLf(rest))
  }

  lemma {:induction false} LineThenRest(line: string, eol: string, rest: string)
    requires CleanLine(line) && EndsHere(eol, rest)
    ensures TextLines(line + eol + rest) == [line] + TextLines(rest)
  {
    var text := line + eol + rest;
    StartsCrLf(text);
    if line == "" {
      assert text == eol + rest && text[|eol|..] == rest;
      assert text[0] == eol[0] && (|text| >= 2 ==> text[1] == if |eol| == 2 then eol[1] else rest[0]);
    } else {
      assert text[0] == line[0] && text[1..] == line[1..] + eol + rest;
      LineThenRest(line[1..], eol, rest);
      assert [line[0]] + line[1..] == line;
      assert ([line[1..]] + TextLines(rest))[1..] == TextLines(rest);
    }
  }

  lemma {:induction false} FramedLines(parts: seq<string>, eol: string, rest: string)
    requires EndsHere(eol, rest) && forall k :: 0 <= k < |parts| ==> CleanLine(parts[k])
    ensures TextLines(FrameLines(parts, eol) + rest) == DataLines(parts) + TextLines(rest)
  {
    hide TextLines, DataLines;
    if parts == [] {
      assert FrameLines(parts, eol) + rest == rest;
      DataLinesCons(parts);
      assert DataLines(parts) + TextLines(rest) == TextLines(rest);
    } else {
      var more := FrameLines(parts[1..], eol) + rest;
      assert FrameLines(parts, eol) + rest == ("data: " + parts[0]) + eol + more;
      FramedStart(parts[1..], eol, rest);
      LineThenRest("data: " + parts[0], eol, more);
      FramedLines(parts[1..], eol, rest);
      DataLinesCons(parts);
    }
  }

  lemma FramedStart(parts: seq<string>, eol: string, rest: string)
    requires EndsHere(eol, rest)
    ensures EndsHere(eol, FrameLines(parts, eol) + rest)
  {
    if parts != [] {
      assert (FrameLines(parts, eol) + rest)[0] == "data: "[0];
    }
  }

  lemma DataLinesCons(parts: seq<string>)
    ensures DataLines(parts) == if parts == [] then [] else ["data: " + parts[0]] + DataLines(parts[1..])
  {
  }

  lemma {:induction false} BlockOfDataLines(parts: seq<string>, rest: seq<string>)
    ensures Blocks(DataLines(parts) + [""] + rest) == [DataLines(parts)] + Blocks(rest)
  {
    if parts == [] {
      assert DataLines(parts) + [""] + rest == [""] + rest;
      assert ([""] + rest)[1..] == rest;
    } else {
      var lines := DataLines(parts) + [""] + rest;
      BlockOfDataLines(parts[1..], rest);
      assert DataLines(parts) == ["data: " + parts[0]] + DataLines(parts[1..]);
      assert lines[1..] == DataLines(parts[1..]) + [""] + rest;
    }
  }

  lemma {:induction false} ValuesOfDataLines(parts: seq<string>)
    ensures DataValues(DataLines(parts)) == parts
  {
    if parts != [] {
      ValuesOfDataLines(parts[1..]);
      assert DataLines(parts)[1..] == DataLines(parts[1..]);
      assert DataValue("data: " + parts[0]) == Some(parts[0]);
    }
  }

  lemma EncodedStart(payloads: seq<string>, eol: string)
    ensures !StartsLf(Encode(payloads, eol))
  {
    if payloads != [] {
      var parts := Split(payloads[0], '\n');
      assert Encode(payloads, eol) == FrameLines(parts, eol) + (eol + Encode(payloads[1..], eol));
      assert Encode(payloads, eol)[0] == "data: "[0];
    }
  }

  lemma CleanParts(payload: string)
    requires '\r' !in payload
    ensures forall k :: 0 <= k < |Split(payload, '\n')| ==> CleanLine(Split(payload, '\n')[k])
  {
    SplitFree(payload, '\n');
    SplitKeeps(payload, '\n');
  }

  lemma FramedPayload(payload: string, eol: string, rest: string)
    requires '\r' !in payload && IsLineEnd(eol) && !StartsLf(rest)
    ensures TextLines(Frame(payload, eol) + rest) == DataLines(Split(payload, '\n')) + [""] + TextLines(rest)
  {
    hide TextLines, DataLines, FrameLines, Split;
    var parts := Split(payload, '\n');
    CleanParts(payload);
    assert Frame(payload, eol) + rest == FrameLines(parts, eol) + (eol + rest);
    FramedLines(parts, eol, eol + rest);
    LineThenRest("", eol, rest);
    assert "" + eol + rest == eol + rest;
    assert DataLines(parts) + ([""] + TextLines(rest)) == DataLines(parts) + [""] + TextLines(rest);
  }

  lemma {:induction false} EncodedBlocks(payloads: seq<string>, eol: string)
    requires IsLineEnd(eol) && forall p <- payloads :: '\r' !in p
    ensures EmitAll(Blocks(TextLines(Encode(payloads, eol)))) == payloads
  {
    if payloads == [] {
      assert [""][1..] == [];
      assert Blocks([""]) == [[]] + [[]];
      assert Blocks([""])[1..] == [[]];
    } else {
      var parts := Split(payloads[0], '\n');
      var rest := Encode(payloads[1..], eol);
      EncodedStart(payloads[1..], eol);
      FramedPayload(payloads[0], eol, rest);
      BlockOfDataLines(parts, TextLines(rest));
      ValuesOfDataLines(parts);
      JoinSplit(payloads[0], '\n');
      EncodedBlocks(payloads[1..], eol);
      assert ([DataLines(parts)] + Blocks(TextLines(rest)))[1..] == Blocks(TextLines(rest));
    }
  }

  lemma {:induction false} JoinClean(parts: seq<string>)
    requires forall k :: 0 <= k < |parts| ==> '\r' !in parts[k]
    ensures '\r' !in Join("\n", parts)
  {
    if |parts| > 1 {
      JoinClean(parts[1..]);
    }
  }

  /** No decoded payload holds a CR. */
  lemma {:induction false} EmittedClean(lines: seq<string>)
    requires forall k :: 0 <= k < |lines| ==> '\r' !in lines[k]
    ensures forall k :: 0 <= k < |Blocks(lines)| ==>
              forall j :: 0 <= j < |DataValues(Blocks(lines)[k])| ==> '\r' !in DataValues(Blocks(lines)[k])[j]
  {
    if lines != [] {
      EmittedClean(lines[1..]);
      var tail := Blocks(lines[1..]);
      if lines[0] != "" {
        assert ([lines[0]] + tail[0])[1..] == tail[0];
      }
    }
  }

  lemma {:induction false} EmitAllClean(bs: seq<seq<string>>)
    requires forall k :: 0 <= k < |bs| ==> forall j :: 0 <= j < |DataValues(bs[k])| ==> '\r' !in DataValues(bs[k])[j]
    ensures forall k :: 0 <= k < |EmitAll(bs)| ==> '\r' !in EmitAll(bs)[k]
  {
    if bs != [] {
      EmitAllClean(bs[1..]);
      JoinClean(DataValues(bs[0]));
    }
  }

  /** Whatever the line ends, framing and decoding give the payloads back exactly when no payload holds a CR. */
  lemma FramedRoundTrip(payloads: seq<string>, eol: string)
    requires IsLineEnd(eol)
    ensures Decode(Encode(payloads, eol)) == payloads <==> forall p <- payloads :: '\r' !in p
  {
    if forall p <- payloads :: '\r' !in p {
      EncodedBlocks(payloads, eol);
    }
    if Decode(Encode(payloads, eol)) == payloads {
      var text := Encode(payloads, eol);
      NormalizedLines(text);
      SplitKeeps(Normalize(text), '\n');
      EmittedClean(TextLines(text));
      EmitAllClean(Blocks(TextLines(text)));
    }
  }

  // ------------------------------------------------------------------------
  // When an event is too large
  // ------------------------------------------------------------------------

  /** The data values gathered since the last blank line, `data` being those of earlier lines. */
  function Gathered(data: seq<string>, lines: seq<string>): seq<string>
    decreases lines
  {
    if lines == [] then data
    else if lines[0] == "" then Gathered([], lines[1..])
    else if DataValue(lines[0]).Some? then Gathered(data + [DataValue(lines[0]).value], lines[1..])
    else Gathered(data, lines[1..])
  }

  /** With the k-th line, a data line, the gathered values together exceed the limit. */
  predicate Exceeds(data: seq<string>, lines: seq<string>, limit: nat, k: nat)
    requires k < |lines|
  {
    DataValue(lines[k]).Some? && |Concat(Gathered(data, lines[..k + 1]))| > limit
  }

  lemma {:induction false} ConcatAppend(parts: seq<string>, last: string)
    ensures Concat(parts + [last]) == Concat(parts) + last
  {
    if parts == [] {
      assert [last][1..] == [] && parts + [last] == [last];
    } else {
      assert (parts + [last])[1..] == parts[1..] + [last];
      ConcatAppend(parts[1..], last);
    }
  }

  lemma {:induction false} TotalIsConcat(parts: seq<string>)
    ensures TotalLength(parts) == |Concat(parts)|
  {
    if parts != [] {
      var front, last := parts[..|parts| - 1], parts[|parts| - 1];
      TotalIsConcat(front);
      ConcatAppend(front, last);
      assert parts == front + [last];
    }
  }

  /** One line: what it gathers, and when that is too much. */
  lemma LineOverflow(p: Progress, line: string, limit: nat)
    requires !p.overflow
    ensures var next := ProcessLine(p, line, Some(limit));
            && (forall rest :: Gathered(p.data, [line] + rest) == Gathered(next.data, rest))
            && (next.overflow <==> DataValue(line).Some? && |Concat(Gathered(p.data, [line]))| > limit)
  {
    hide Concat, DataValue, ParseField;
    var next := ProcessLine(p, line, Some(limit));
    if line == "" {
      EmptyLine();
    } else {
      DataField(line);
    }
    TotalIsConcat(next.data);
    forall rest
      ensures Gathered(p.data, [line] + rest) == Gathered(next.data, rest)
    {
      assert ([line] + rest)[1..] == rest;
    }
    assert [line] + [] == [line] && Gathered(next.data, []) == next.data;
  }

  lemma EmptyLine()
    ensures DataValue("").None?
  {
  }

  lemma {:induction false} OverflowExactly(p: Progress, lines: seq<string>, limit: nat)
    requires !p.overflow
    ensures ProcessLines(p, lines, Some(limit)).overflow <==>
            exists k: nat :: k < |lines| && Exceeds(p.data, lines, limit, k)
    decreases lines
  {
    if lines != [] {
      var line, rest := lines[0], lines[1..];
      var next := ProcessLine(p, line, Some(limit));
      LineOverflow(p, line, limit);
      assert lines[..1] == [line];
      assert next.overflow <==> Exceeds(p.data, lines, limit, 0);
      if !next.overflow {
        OverflowExactly(next, rest, limit);
        forall k: nat | k < |rest|
          ensures Exceeds(next.data, rest, limit, k) <==> Exceeds(p.data, lines, limit, k + 1)
        {
          assert lines[..k + 2] == [line] + rest[..k + 1];
        }
        if exists k: nat :: k < |rest| && Exceeds(next.data, rest, limit, k) {
          var k: nat :| k < |rest| && Exceeds(next.data, rest, limit, k);
          assert Exceeds(p.data, lines, limit, k + 1);
        }
        if exists k: nat :: k < |lines| && Exceeds(p.data, lines, limit, k) {
          var k: nat :| k < |lines| && Exceeds(p.data, lines, limit, k);
          assert Exceeds(next.data, rest, limit, k - 1);
        }
      }
    }
  }

  /** The complete lines of a text: all but what follows the last line end; a CR at the very end may be half of one. */
  function CompleteLines(text: string): seq<string> {
    var lines := TextLines(if EndsCr(text) then text[..|text| - 1] else text);
    lines[..|lines| - 1]
  }

  /**
   * A feed raises exactly if the buffer outgrows the limit, or if with one of the complete lines the data of one
   * event does; closing raises exactly if that happens with one of the lines that are left.
   */
  lemma TooLargeExactly(st: State, text: string, limit: nat)
    ensures Feed(st, text, limit).1.EventTooLarge? <==>
            || |st.buffer + text| > limit
            || var lines := CompleteLines(st.buffer + text);
               exists k: nat :: k < |lines| && Exceeds(st.data, lines, limit, k)
    ensures Close(st, limit).1.EventTooLarge? <==>
            var lines := TextLines(st.buffer);
            exists k: nat :: k < |lines| && Exceeds(st.data, lines, limit, k)
  {
    hide ProcessLines, Exceeds, TextLines, Normalize;
    var p := Progress(st.data, st.done, [], false);
    CompleteIsExtracted(st.buffer + text);
    OverflowExactly(p, LinesOf(st.buffer + text), limit);
    NormalizedLines(st.buffer);
    OverflowExactly(p, TextLines(st.buffer), limit);
    if st.buffer == "" {
      NoLine(st.data, limit);
    }
  }

  lemma CompleteIsExtracted(text: string)
    ensures CompleteLines(text) == LinesOf(text)
  {
    NormalizedLines(Body(text));
    assert Body(text) == if EndsCr(text) then text[..|text| - 1] else text;
  }

  lemma NoLine(data: seq<string>, limit: nat)
    ensures forall k: nat :: k < |TextLines("")| ==> !Exceeds(data, TextLines(""), limit, k)
  {
  }

  // ------------------------------------------------------------------------
  // The parser object
  // ------------------------------------------------------------------------

  class SseParser {
    const maxEventSize: nat
    var buffer: string
    var currentDataLines: seq<string>
    var isDone: bool

    constructor (maxEventSize: nat)
      ensures this.maxEventSize == maxEventSize && Value() == START
    {
      this.maxEventSize := maxEventSize;
      buffer, currentDataLines, isDone := "", [], false;
    }

    function Value(): State
      reads this
    {
      State(buffer, currentDataLines, isDone)
    }

    method FeedText(text: string) returns (r: Outcome)
      modifies this
      ensures (Value(), r) == Feed(old(Value()), text, maxEventSize)
    {
      buffer := buffer + text;
      if |buffer| > maxEventSize {
        return EventTooLarge;
      }
      var lines := ExtractLines();
      r := Process(lines);
    }

    method CloseStream() returns (r: Outcome)
      modifies this
      ensures (Value(), r) == Close(old(Value()), maxEventSize)
    {
      var events: seq<string> := [];
      if buffer != "" {
        var normalized := Normalize(buffer);
        buffer := "";
        r := Process(Split(normalized, '\n'));
        if r.EventTooLarge? {
          return;
        }
        events := r.events;
      }
      if currentDataLines != [] {
        var payload := Join("\n", currentDataLines);
        if payload == DONE_MARKER {
          isDone := true;
        }
        events := events + [payload];
        currentDataLines := [];
      }
      r := Payloads(events);
    }

    method Reset()
      modifies this
      ensures Value() == START
    {
      buffer, currentDataLines, isDone := "", [], false;
    }

    method ExtractLines() returns (lines: seq<string>)
      modifies this`buffer
      ensures lines == LinesOf(old(buffer)) && buffer == RestOf(old(buffer))
    {
      var buf, pendingCr := buffer, "";
      if EndsCr(buf) {
        pendingCr := "\r";
        buf := buf[..|buf| - 1];
      }
      assert buf == Body(buffer) && pendingCr == HeldBack(buffer);
      var normalized := Normalize(buf);
      SplitFree(normalized, '\n');
      if '\n' in normalized {
        var parts := Split(normalized, '\n');
        lines := parts[..|parts| - 1];
        buffer := parts[|parts| - 1] + pendingCr;
      } else {
        lines := [];
        buffer := normalized + pendingCr;
      }
    }

    method Process(lines: seq<string>) returns (r: Outcome)
      modifies this`currentDataLines, this`isDone
      ensures var p := ProcessLines(Progress(old(currentDataLines), old(isDone), [], false), lines, Some(maxEventSize));
              && currentDataLines == p.data && isDone == p.done
              && r == if p.overflow then EventTooLarge else Payloads(p.events)
    {
      var events: seq<string> := [];
      ghost var start := Progress(currentDataLines, isDone, [], false);
      for i := 0 to |lines|
        invariant ProcessLines(start, lines, Some(maxEventSize)) ==
                  ProcessLines(Progress(currentDataLines, isDone, events, false), lines[i..], Some(maxEventSize))
      {
        var line := lines[i];
        assert lines[i..][1..] == lines[i + 1..];
        if line == "" {
          if currentDataLines != [] {
            var payload := Join("\n", currentDataLines);
            if payload == DONE_MARKER {
              isDone := true;
            }
            events := events + [payload];
            currentDataLines := [];
          }
          continue;
        }
        if line[0] == ':' {
          continue;
        }
        var (field, value) := ParseField(line);
        if field == "data" {
          currentDataLines := currentDataLines + [value];
          var currentSize := TotalLength(currentDataLines);
          if currentSize > maxEventSize {
            return EventTooLarge;
          }
        }
      }
      r := Payloads(events);
    }
  }
}
