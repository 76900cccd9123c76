/** Characters, `\n`-separated lines, and Python's `str.splitlines`.
  *
  * Regular expressions in multi-line mode see the lines that `Split` yields
  * (only `\n` separates them); `splitlines` also breaks at `\r`, form feeds
  * and the Unicode separators.  The two views agree on `Plain` texts.
  */
module Text {

  const LF: string := "\n"
  const CR: string := "\r"
  const CRLF: string := "\r\n"

  /** Characters at which `str.splitlines` ends a line. */
  predicate IsBreak(c: char) {
    || '\n' <= c <= '\r'
    || '\U{1C}' <= c <= '\U{1E}'
    || c == '\U{85}'
    || '\U{2028}' <= c <= '\U{2029}'
  }

  /** `\s` of the `re` module, and `str.isspace`. */
  predicate IsSpace(c: char) {
    || '\t' <= c <= '\r'
    || '\U{1C}' <= c <= ' '
    || c == '\U{85}' || c == '\U{A0}' || c == '\U{1680}'
    || '\U{2000}' <= c <= '\U{200A}'
    || '\U{2028}' <= c <= '\U{2029}'
    || c == '\U{202F}' || c == '\U{205F}' || c == '\U{3000}'
  }

  predicate Blank(s: string) {
    forall i | 0 <= i < |s| :: IsSpace(s[i])
  }

  function RStrip(s: string): (r: string)
    ensures |r| <= |s|
  {
    if s != "" && IsSpace(s[|s| - 1]) then RStrip(s[..|s| - 1]) else s
  }

  function LStrip(s: string): (r: string)
    ensures |r| <= |s|
  {
    if s != "" && IsSpace(s[0]) then LStrip(s[1..]) else s
  }

  function Strip(s: string): (r: string)
    ensures |r| <= |s|
  {
    RStrip(LStrip(s))
  }

  lemma {:induction false} RStripSpec(s: string)
    ensures RStrip(s) <= s && Blank(s[|RStrip(s)|..])
    ensures RStrip(s) != "" ==> !IsSpace(RStrip(s)[|RStrip(s)| - 1])
    decreases |s|
  {
    if s != "" && IsSpace(s[|s| - 1]) {
      var t := s[..|s| - 1];
      RStripSpec(t);
      var r := RStrip(t);
      forall i | |r| <= i < |s| ensures IsSpace(s[i]) {
        if i < |t| {
          assert t[|r|..][i - |r|] == s[i];
        }
      }
    }
  }

  lemma Trimmed(s: string)
    requires s != "" && !IsSpace(s[0]) && !IsSpace(s[|s| - 1])
    ensures LStrip(s) == s && RStrip(s) == s && Strip(s) == s
  {
  }

  predicate StartsWith(s: string, prefix: string) { prefix <= s }

  // ---- lines separated by `\n` -------------------------------------------

  function IndexOf(t: string, c: char): (k: nat)
    ensures k <= |t|
    ensures k < |t| ==> t[k] == c
    ensures forall i | 0 <= i < k :: t[i] != c
  {
    if t == "" || t[0] == c then 0 else 1 + IndexOf(t[1..], c)
  }

  function Split(t: string): (lines: seq<string>)
    ensures |lines| > 0
    decreases |t|
  {
    var k := IndexOf(t, '\n');
    if k == |t| then [t] else [t[..k]] + Split(t[k + 1..])
  }

  function Join(lines: seq<string>): string
    requires |lines| > 0
  {
    if |lines| == 1 then lines[0] else lines[0] + LF + Join(lines[1..])
  }

  /** The lines of some text: at least one, none holding `\n`. */
  ghost predicate IsLines(lines: seq<string>) {
    |lines| > 0 && forall l | l in lines :: '\n' !in l
  }

  lemma {:induction false} SplitIsLines(t: string)
    ensures IsLines(Split(t))
    decreases |t|
  {
    var k := IndexOf(t, '\n');
    if k < |t| {
      SplitIsLines(t[k + 1..]);
    }
  }

  lemma {:induction false} JoinOfSplit(t: string)
    ensures Join(Split(t)) == t
    decreases |t|
  {
    var k := IndexOf(t, '\n');
    if k < |t| {
      JoinOfSplit(t[k + 1..]);
      assert Split(t)[1..] == Split(t[k + 1..]);
      assert t == t[..k] + LF + t[k + 1..];
    }
  }

  /** The first line and the text after it. */
  lemma SplitFirst(a: string, b: string)
    requires '\n' !in a
    ensures Split(a + LF + b) == [a] + Split(b)
  {
    var t := a + LF + b;
    var k := IndexOf(t, '\n');
    assert t[|a|] == '\n';
    assert forall i | 0 <= i < |a| :: t[i] == a[i] && a[i] in a;
    assert k == |a|;
    assert t[..k] == a && t[k + 1..] == b;
  }

  lemma Regroup(a: string, b: string, c: string)
    ensures a + LF + b + LF + c == a + LF + (b + LF + c)
  {
  }

  lemma {:induction false} SplitAtBreak(a: string, b: string)
    ensures Split(a + LF + b) == Split(a) + Split(b)
    decreases |a|
  {
    var k := IndexOf(a, '\n');
    if k == |a| {
      SplitFirst(a, b);
      assert Split(a) == [a];
    } else {
      var head, rest := a[..k], a[k + 1..];
      SplitAtBreak(rest, b);
      calc {
        Split(a + LF + b);
        { Regroup(head, rest, b); assert a == head + LF + rest; }
        Split(head + LF + (rest + LF + b));
        { SplitFirst(head, rest + LF + b); }
        [head] + Split(rest + LF + b);
        [head] + (Split(rest) + Split(b));
        ([head] + Split(rest)) + Split(b);
        Split(a) + Split(b);
      }
    }
  }

  lemma {:induction false} SplitOfJoin(lines: seq<string>)
    requires IsLines(lines)
    ensures Split(Join(lines)) == lines
    decreases |lines|
  {
    var a, rest := lines[0], lines[1..];
    assert a in lines;
    if |lines| == 1 {
      assert IndexOf(a, '\n') == |a|;
      assert lines == [a];
    } else {
      assert IsLines(rest);
      SplitOfJoin(rest);
      SplitFirst(a, Join(rest));
      assert Join(lines) == a + LF + Join(rest);
      assert lines == [a] + rest;
    }
  }

  lemma {:induction false} JoinAppend(a: seq<string>, b: seq<string>)
    requires |a| > 0 && |b| > 0
    ensures Join(a + b) == Join(a) + LF + Join(b)
    decreases |a|
  {
    if |a| == 1 {
      assert (a + b)[1..] == b;
    } else {
      assert (a + b)[1..] == a[1..] + b;
      JoinAppend(a[1..], b);
    }
  }

  // ---- str.splitlines -----------------------------------------------------

  function BreakAt(t: string): (k: nat)
    ensures k <= |t|
    ensures k < |t| ==> IsBreak(t[k])
    ensures forall i | 0 <= i < k :: !IsBreak(t[i])
  {
    if t == "" || IsBreak(t[0]) then 0 else 1 + BreakAt(t[1..])
  }

  /** Length of the first line with its ending; `\r\n` is one ending. */
  function LineLength(t: string): (k: nat)
    ensures BreakAt(t) <= k <= |t|
    ensures t != "" ==> k > 0
  {
    var k := BreakAt(t);
    if k == |t| then k
    else if t[k] == '\r' && k + 1 < |t| && t[k + 1] == '\n' then k + 2
    else k + 1
  }

  /** `text.splitlines()` */
  function SplitLines(t: string): seq<string>
    decreases |t|
  {
    if t == "" then [] else [t[..BreakAt(t)]] + SplitLines(t[LineLength(t)..])
  }

  /** `text.splitlines(keepends=True)` */
  function SplitKeepEnds(t: string): seq<string>
    decreases |t|
  {
    if t == "" then [] else [t[..LineLength(t)]] + SplitKeepEnds(t[LineLength(t)..])
  }

  /** Only `\n` and `\r\n` end lines. */
  ghost predicate Plain(t: string) {
    forall i | 0 <= i < |t| && IsBreak(t[i]) ::
      t[i] == '\n' || (t[i] == '\r' && i + 1 < |t| && t[i + 1] == '\n')
  }

  function ChopCR(l: string): string {
    if l != "" && l[|l| - 1] == '\r' then l[..|l| - 1] else l
  }

  /** A line with no break character, apart from the `\r` of a `\r\n`. */
  ghost predicate PlainLine(l: string) {
    forall i | 0 <= i < |l| && IsBreak(l[i]) :: l[i] == '\r' && i == |l| - 1
  }

  /** A last, unterminated line: no break character at all. */
  ghost predicate PlainEnd(l: string) {
    forall i | 0 <= i < |l| :: !IsBreak(l[i])
  }

  ghost predicate PlainLines(lines: seq<string>) {
    && |lines| > 0
    && (forall i | 0 <= i < |lines| - 1 :: PlainLine(lines[i]))
    && PlainEnd(lines[|lines| - 1])
  }

  /** What `splitlines` yields for the text with these `\n`-separated lines. */
  function Physical(lines: seq<string>): seq<string>
    requires |lines| > 0
  {
    if |lines| == 1 then (if lines[0] == "" then [] else lines)
    else [ChopCR(lines[0])] + Physical(lines[1..])
  }

  lemma PlainConsDown(a: string, b: string)
    requires '\n' !in a && Plain(a + LF + b)
    ensures PlainLine(a) && Plain(b)
  {
    var t, n := a + LF + b, |a|;
    assert forall i | 0 <= i < n :: t[i] == a[i] && a[i] in a;
    forall i | 0 <= i < n && IsBreak(a[i]) ensures a[i] == '\r' && i == n - 1 {
      assert t[i] != '\n' && t[i + 1] == '\n';
    }
    forall i | 0 <= i < |b| && IsBreak(b[i])
      ensures b[i] == '\n' || (b[i] == '\r' && i + 1 < |b| && b[i + 1] == '\n')
    {
      assert t[n + 1 + i] == b[i];
      assert i + 1 < |b| ==> t[n + 1 + i + 1] == b[i + 1];
    }
  }

  lemma PlainConsUp(a: string, b: string)
    requires PlainLine(a) && Plain(b)
    ensures Plain(a + LF + b)
  {
    var t, n := a + LF + b, |a|;
    assert t[n] == '\n';
    forall i | 0 <= i < |t| && IsBreak(t[i])
      ensures t[i] == '\n' || (t[i] == '\r' && i + 1 < |t| && t[i + 1] == '\n')
    {
      if i < n {
        assert t[i] == a[i];
      } else if i > n {
        assert t[i] == b[i - n - 1];
        assert i + 1 < |t| ==> t[i + 1] == b[i - n];
      }
    }
  }

  lemma PlainCons(a: string, b: string)
    requires '\n' !in a
    ensures Plain(a + LF + b) <==> PlainLine(a) && Plain(b)
  {
    if Plain(a + LF + b) { PlainConsDown(a, b); }
    if PlainLine(a) && Plain(b) { PlainConsUp(a, b); }
  }

  lemma PlainLinesCons(a: string, rest: seq<string>)
    requires |rest| > 0
    ensures PlainLines([a] + rest) <==> PlainLine(a) && PlainLines(rest)
  {
    var lines := [a] + rest;
    assert lines[|lines| - 1] == rest[|rest| - 1];
    assert forall i | 0 <= i < |rest| :: lines[i + 1] == rest[i];
    assert forall i | 0 < i < |lines| :: lines[i] == rest[i - 1];
    if PlainLines(lines) {
      assert PlainLine(lines[0]);
      forall i | 0 <= i < |rest| - 1 ensures PlainLine(rest[i]) {
        assert PlainLine(lines[i + 1]);
      }
    }
  }

  lemma PlainSingle(t: string)
    requires '\n' !in t
    ensures Plain(t) <==> PlainEnd(t)
  {
    if Plain(t) {
      forall i | 0 <= i < |t| ensures !IsBreak(t[i]) {
        assert t[i] in t;
        assert i + 1 < |t| ==> t[i + 1] in t;
      }
    }
  }

  /** `t` is its only line, or its first line and the rest. */
  lemma SplitCases(t: string) returns (a: string, b: string)
    ensures '\n' !in t ==> Split(t) == [t]
    ensures '\n' in t ==> '\n' !in a && t == a + LF + b && Split(t) == [a] + Split(b) && |b| < |t|
  {
    var k := IndexOf(t, '\n');
    if k < |t| {
      a, b := t[..k], t[k + 1..];
    } else {
      a, b := "", "";
    }
  }

  lemma {:induction false} PlainIsPlainLines(t: string)
    ensures Plain(t) <==> PlainLines(Split(t))
    decreases |t|
  {
    var a, b := SplitCases(t);
    if '\n' in t {
      PlainIsPlainLines(b);
      PlainCons(a, b);
      PlainLinesCons(a, Split(b));
    } else {
      PlainSingle(t);
    }
  }

  lemma {:induction false} BreakAtIs(t: string, k: nat)
    requires k < |t| && IsBreak(t[k]) && forall i | 0 <= i < k :: !IsBreak(t[i])
    ensures BreakAt(t) == k
  {
    var b := BreakAt(t);
    assert IsBreak(t[k]);
  }

  lemma SplitLinesCons(a: string, b: string)
    requires '\n' !in a && PlainLine(a)
    ensures SplitLines(a + LF + b) == [ChopCR(a)] + SplitLines(b)
  {
    var t, n := a + LF + b, |a|;
    var c := ChopCR(a);
    assert forall i | 0 <= i < |c| :: t[i] == a[i] && !IsBreak(a[i]);
    assert t[n] == '\n' && (|c| < n ==> t[|c|] == '\r');
    BreakAtIs(t, |c|);
    assert LineLength(t) == n + 1;
    assert t[..|c|] == c && t[n + 1..] == b;
  }

  lemma SplitLinesEnd(t: string)
    requires PlainEnd(t)
    ensures SplitLines(t) == if t == "" then [] else [t]
  {
    assert BreakAt(t) == |t|;
    if t != "" {
      assert t[..|t|] == t && t[|t|..] == "";
      assert SplitLines("") == [];
    }
  }

  lemma {:induction false} SplitLinesOfPlain(t: string)
    requires Plain(t)
    ensures SplitLines(t) == Physical(Split(t))
    decreases |t|
  {
    var a, b := SplitCases(t);
    if '\n' in t {
      PlainCons(a, b);
      SplitLinesOfPlain(b);
      SplitLinesCons(a, b);
      assert Split(t)[1..] == Split(b);
    } else {
      PlainSingle(t);
      SplitLinesEnd(t);
    }
  }
}
