/** The few operations on Python strings that the modelled code relies on. */
module PyText {

  datatype Option<+T> = None | Some(value: T)

  /** The characters for which Python's `str.isspace` holds; `str.strip` removes exactly these. */
  predicate IsSpace(c: char) {
    var n := c as int;
    || 0x09 <= n <= 0x0D || 0x1C <= n <= 0x20 || n == 0x85 || n == 0xA0 || n == 0x1680
    || 0x2000 <= n <= 0x200A || n == 0x2028 || n == 0x2029 || n == 0x202F || n == 0x205F || n == 0x3000
  }

  function StripLeft(s: string): string {
    if s != "" && IsSpace(s[0]) then StripLeft(s[1..]) else s
  }

  function StripRight(s: string): string {
    if s != "" && IsSpace(s[|s| - 1]) then StripRight(s[..|s| - 1]) else s
  }

  /** `str.strip()`. */
  function Strip(s: string): string {
    StripRight(StripLeft(s))
  }

  /** A string that `not s.strip()` rejects. */
  predicate Blank(s: string) {
    Strip(s) == ""
  }

  lemma {:induction false} StripLeftShape(s: string)
    ensures StripLeft(s) != "" ==> !IsSpace(StripLeft(s)[0])
  {
    if s != "" {
      StripLeftShape(s[1..]);
    }
  }

  lemma {:induction false} StripRightShape(s: string)
    ensures StripRight(s) <= s
    ensures StripRight(s) != "" ==> !IsSpace(StripRight(s)[|StripRight(s)| - 1])
  {
    if s != "" {
      StripRightShape(s[..|s| - 1]);
    }
  }

  /** Stripping twice is stripping once. */
  lemma StripIdempotent(s: string)
    ensures Strip(Strip(s)) == Strip(s)
  {
    StripLeftShape(s);
    StripRightShape(StripLeft(s));
    var r := Strip(s);
    if r != "" {
      assert r[0] == StripLeft(s)[0];
    }
  }

  predicate AllSpaces(s: string) {
    forall c <- s :: IsSpace(c)
  }

  lemma {:induction false} StripLeftTakes(s: string) returns (spaces: string)
    ensures s == spaces + StripLeft(s) && AllSpaces(spaces)
  {
    if s != "" && IsSpace(s[0]) {
      spaces := StripLeftTakes(s[1..]);
      spaces := [s[0]] + spaces;
      assert s == [s[0]] + s[1..];
    } else {
      spaces := "";
    }
  }

  lemma {:induction false} StripRightTakes(s: string) returns (spaces: string)
    ensures s == StripRight(s) + spaces && AllSpaces(spaces)
  {
    if s != "" && IsSpace(s[|s| - 1]) {
      spaces := StripRightTakes(s[..|s| - 1]);
      spaces := spaces + [s[|s| - 1]];
      assert s == s[..|s| - 1] + [s[|s| - 1]];
    } else {
      spaces := "";
    }
  }

  /** Stripping takes spaces off both ends, all of them, and nothing else. */
  lemma StripMeaning(s: string) returns (before: string, behind: string)
    ensures s == before + Strip(s) + behind && AllSpaces(before) && AllSpaces(behind)
    ensures Strip(s) != "" ==> !IsSpace(Strip(s)[0]) && !IsSpace(Strip(s)[|Strip(s)| - 1])
    ensures Blank(s) <==> AllSpaces(s)
  {
    before := StripLeftTakes(s);
    behind := StripRightTakes(StripLeft(s));
    StripLeftShape(s);
    StripRightShape(StripLeft(s));
    assert s == before + (Strip(s) + behind) == before + Strip(s) + behind;
    if Strip(s) != "" {
      assert Strip(s)[0] == StripLeft(s)[0] && Strip(s)[0] in s;
    }
  }

  /** `sub in s`. */
  predicate Contains(s: string, sub: string) {
    exists i :: 0 <= i <= |s| && OccursAt(s, sub, i)
  }

  predicate OccursAt(s: string, sub: string, i: nat)
    requires i <= |s|
  {
    sub <= s[i..]
  }

  /** `sep.join(parts)`. */
  function Join(sep: string, parts: seq<string>): string {
    if parts == [] then ""
    else if |parts| == 1 then parts[0]
    else parts[0] + sep + Join(sep, parts[1..])
  }

  /** `s.split(sep)` for a one-character separator: never empty, parts free of the separator. */
  function Split(s: string, sep: char): (parts: seq<string>)
    ensures |parts| >= 1
  {
    if s == "" then [""]
    else
      var tail := Split(s[1..], sep);
      if s[0] == sep then [""] + tail else [[s[0]] + tail[0]] + tail[1..]
  }

  lemma {:induction false} SplitFree(s: string, sep: char)
    ensures forall k :: 0 <= k < |Split(s, sep)| ==> sep !in Split(s, sep)[k]
    ensures sep !in s ==> Split(s, sep) == [s]
  {
    if s != "" {
      SplitFree(s[1..], sep);
      assert s == [s[0]] + s[1..];
    }
  }

  /** Two lists of parts whose neighbouring parts were one part cut in two. */
  function Glue(p: seq<string>, q: seq<string>): seq<string>
    requires |p| >= 1 && |q| >= 1
  {
    p[..|p| - 1] + [p[|p| - 1] + q[0]] + q[1..]
  }

  /** Splitting a concatenation glues the last part of the left to the first part of the right. */
  lemma {:induction false} SplitConcat(a: string, b: string, sep: char)
    ensures Split(a + b, sep) == Glue(Split(a, sep), Split(b, sep))
  {
    if a == "" {
      assert a + b == b;
      assert Split(a, sep) == [""] && "" + Split(b, sep)[0] == Split(b, sep)[0];
    } else {
      SplitConcat(a[1..], b, sep);
      assert (a + b)[1..] == a[1..] + b;
      GlueHead(Split(a[1..], sep), Split(b, sep), [a[0]], a[0] == sep);
    }
  }

  lemma GlueHead(p: seq<string>, q: seq<string>, c: string, cut: bool)
    requires |p| >= 1 && |q| >= 1
    ensures cut ==> [""] + Glue(p, q) == Glue([""] + p, q)
    ensures !cut ==> [c + Glue(p, q)[0]] + Glue(p, q)[1..] == Glue([c + p[0]] + p[1..], q)
  {
    if cut {
    } else if |p| == 1 {
      assert c + (p[0] + q[0]) == (c + p[0]) + q[0];
    }
  }

  /** Joining what `split` produced gives the string back. */
  lemma {:induction false} JoinSplit(s: string, sep: char)
    ensures Join([sep], Split(s, sep)) == s
  {
    if s != "" {
      JoinSplit(s[1..], sep);
      var tail := Split(s[1..], sep);
      if s[0] == sep {
        assert ([""] + tail)[1..] == tail;
      } else if |tail| > 1 {
        assert ([[s[0]] + tail[0]] + tail[1..])[1..] == tail[1..];
      }
    }
  }

  /** Decimal rendering of an integer, as an f-string writes it. */
  function Decimal(n: int): string
    decreases if n < 0 then 1 else 0, if n < 0 then -n else n
  {
    if n < 0 then "-" + Decimal(-n)
    else if n < 10 then [('0' as int + n) as char]
    else Decimal(n / 10) + [('0' as int + n % 10) as char]
  }

  /** The number that a string of digits, perhaps behind a minus sign, stands for. */
  function NumberOf(s: string): int {
    if s == "" then 0
    else if s[0] == '-' then -NumberOf(s[1..])
    else 10 * NumberOf(s[..|s| - 1]) + (s[|s| - 1] as int - '0' as int)
  }

  /** The decimal rendering of a number stands for that number. */
  lemma {:induction false} DecimalReads(n: int)
    ensures NumberOf(Decimal(n)) == n && Decimal(n) != ""
    ensures n >= 0 ==> Decimal(n)[0] != '-'
    decreases if n < 0 then 1 else 0, if n < 0 then -n else n
  {
    if n < 0 {
      DecimalReads(-n);
      assert ("-" + Decimal(-n))[1..] == Decimal(-n);
    } else if n < 10 {
      assert Decimal(n)[..0] == "";
    } else {
      DecimalReads(n / 10);
      var front, last := Decimal(n / 10), ('0' as int + n % 10) as char;
      assert (front + [last])[..|front|] == front;
    }
  }
}
