/** What a Status write changes: the value that is read back, and nothing of the plan. */
module StatusWrites {
  import opened Text
  import opened Handoff

  /** A status the CLI writes: one trimmed, non-empty line. */
  predicate ValidStatus(s: string) {
    && s != "" && !IsSpace(s[0]) && !IsSpace(s[|s| - 1])
    && forall i | 0 <= i < |s| :: !IsBreak(s[i])
  }

  // ---- reading back --------------------------------------------------------

  lemma {:induction false} RStripBlankTail(s: string, tail: string)
    requires s != "" && !IsSpace(s[|s| - 1]) && Blank(tail)
    ensures RStrip(s + tail) == s
    decreases |tail|
  {
    if tail == "" {
      assert s + tail == s;
    } else {
      var t := tail[..|tail| - 1];
      assert (s + tail)[|s + tail| - 1] == tail[|tail| - 1];
      assert (s + tail)[..|s + tail| - 1] == s + t;
      RStripBlankTail(s, t);
    }
  }

  lemma StripValue(s: string, tail: string)
    requires ValidStatus(s)
    ensures Strip(" " + s + tail) == s <==> Blank(tail)
  {
    var line := " " + s + tail;
    assert LStrip(line) == s + tail by {
      assert line[1..] == s + tail;
      assert LStrip(s + tail) == s + tail;
    }
    if Blank(tail) {
      RStripBlankTail(s, tail);
    } else {
      RStripSpec(s + tail);
      assert (s + tail)[|s|..] == tail;
    }
  }

  lemma NewStatusLine(line: string, s: string)
    requires StatusLine(line) && ValidStatus(s)
    ensures var l := StatusWith(s, line);
            StatusLine(l) && StatusRest(l) == " " + s + KeptTail(line) && Valued(l)
  {
    var l := StatusWith(s, line);
    assert l[..|STATUS_MARK|] == STATUS_MARK;
    assert StatusRest(l) == " " + s + KeptTail(line);
    assert StatusRest(l)[1] == s[0];
  }

  lemma FirstStatusStays(lines: seq<string>, s: string)
    requires ValidStatus(s)
    ensures FindStatus(ReplaceStatusLines(lines, s)) == FindStatus(lines)
  {
    var i := FindStatus(lines);
    if i < |lines| {
      NewStatusLine(lines[i], s);
      var r := ReplaceStatusLines(lines, s);
      assert StatusLine(r[i]);
      var k := FindStatus(r);
      assert k <= i;
      assert forall m | 0 <= m < i :: r[m] == lines[m];
    }
  }

  /** Reading Status back after a write gives the written value exactly when a
    * Status line exists and the write kept nothing but blanks on that line. */
  lemma ReadBack(text: string, s: string)
    requires ValidStatus(s)
    ensures var lines := Split(text);
            var i := FindStatus(lines);
            ReadStatus(ReplaceStatus(text, s)) == s
            <==> i < |lines| && Blank(KeptTail(lines[i]))
  {
    var lines := Split(text);
    var i := FindStatus(lines);
    var r := ReplaceStatusLines(lines, s);
    assert '\n' !in s by {
      assert forall k | 0 <= k < |s| :: !IsBreak(s[k]);
    }
    SplitIsLines(text);
    ReplaceStatusLinesAreLines(lines, s);
    SplitOfJoin(r);
    FirstStatusStays(lines, s);
    if i < |lines| {
      NewStatusLine(lines[i], s);
      StripValue(s, KeptTail(lines[i]));
    }
  }

  // ---- the plan text -------------------------------------------------------

  lemma ConsAppend<T>(x: T, a: seq<T>, b: seq<T>)
    ensures ([x] + a) + b == [x] + (a + b)
  {
  }

  lemma {:induction false} SubStatusAfterPrefix(a: seq<string>, b: seq<string>)
    requires forall l | l in a :: !StatusLine(l)
    ensures SubStatus(a + b) == a + SubStatus(b)
    decreases |a|
  {
    if a == [] {
      assert a + b == b;
    } else {
      var l, rest := a[0], a[1..];
      assert a == [l] + rest && l in a && forall x | x in rest :: x in a;
      ConsAppend(l, rest, b);
      SubStatusAfterPrefix(rest, b);
      ConsAppend(l, rest, SubStatus(b));
    }
  }

  lemma StatusLineIsNotBlank(l: string)
    requires StatusLine(l)
    ensures !Blank(l)
  {
    assert l[0] == STATUS_MARK[0] == '*';
  }

  lemma SameHead<T>(x: T, a: seq<T>, b: seq<T>)
    ensures [x] + a == [x] + b <==> a == b
  {
    assert ([x] + a)[1..] == a && ([x] + b)[1..] == b;
  }

  lemma SamePrefix<T>(p: seq<T>, a: seq<T>, b: seq<T>)
    ensures p + a == p + b <==> a == b
  {
    assert (p + a)[|p|..] == a && (p + b)[|p|..] == b;
  }

  lemma SubStatusSkipsBlanks(lines: seq<string>)
    ensures |SubStatus(lines)| == |lines| - |DropBlank(lines)| + |SubStatus(DropBlank(lines))|
  {
    var rest := DropBlank(lines);
    var blanks := lines[..|lines| - |rest|];
    assert lines == blanks + rest;
    forall l | l in blanks && StatusLine(l) ensures !Blank(l) {
      StatusLineIsNotBlank(l);
    }
    SubStatusAfterPrefix(blanks, rest);
  }

  predicate EmptyStatus(line: string) { StatusLine(line) && !Valued(line) }

  /** Whether giving the Status line at the head of `lines` a value changes what
    * `SubStatus` leaves: the head has no value and takes the next non-blank
    * line for it.  Only runs of empty Status lines can cancel that out. */
  predicate Swallows(lines: seq<string>)
    requires lines != [] && StatusLine(lines[0])
    decreases |lines|
  {
    if Valued(lines[0]) then false
    else
      var taken := DropBlank(lines[1..]);
      if taken == [] then false
      else if !EmptyStatus(taken[0]) then true
      else
        var next := DropBlank(taken[1..]);
        if next == [] || !StatusLine(next[0]) then true else Swallows(next)
  }

  lemma LineDropped(taken: seq<string>)
    requires taken != [] && !EmptyStatus(taken[0])
    ensures |SubStatus(taken)| > |SubStatus(DropBlank(taken[1..]))|
  {
    SubStatusSkipsBlanks(taken[1..]);
  }

  lemma PlainLineNext(taken: seq<string>, next: seq<string>)
    requires taken != [] && EmptyStatus(taken[0])
    requires next == DropBlank(taken[1..]) && next != [] && !StatusLine(next[0])
    ensures SubStatus(taken) != SubStatus(next)
  {
    assert SubStatus(next)[0] == next[0];
    assert SubStatus(taken)[0] == STATUS_MARK;
    assert StatusLine(STATUS_MARK);
  }

  lemma StatusLineNext(taken: seq<string>, next: seq<string>)
    requires taken != [] && EmptyStatus(taken[0])
    requires next == DropBlank(taken[1..]) && next != [] && StatusLine(next[0])
    ensures SubStatus(taken) == SubStatus(next)
            <==> SubStatus(DropBlank(next[1..])) == SubStatus(AfterStatus(next))
  {
    assert AfterStatus(taken) == DropBlank(next[1..]);
    SameHead(STATUS_MARK, SubStatus(DropBlank(next[1..])), SubStatus(AfterStatus(next)));
  }

  /** `taken` is what follows an empty Status line, up to blanks. */
  lemma {:induction false} TakenLineMatters(lines: seq<string>)
    requires lines != [] && EmptyStatus(lines[0]) && DropBlank(lines[1..]) != []
    ensures var taken := DropBlank(lines[1..]);
            SubStatus(taken) == SubStatus(DropBlank(taken[1..])) <==> !Swallows(lines)
    decreases |lines|
  {
    var taken := DropBlank(lines[1..]);
    var next := DropBlank(taken[1..]);
    if !EmptyStatus(taken[0]) {
      LineDropped(taken);
    } else if next == [] {
    } else if !StatusLine(next[0]) {
      PlainLineNext(taken, next);
    } else {
      StatusLineNext(taken, next);
      if !Valued(next[0]) && DropBlank(next[1..]) != [] {
        TakenLineMatters(next);
      }
    }
  }

  lemma HeadStatus(lines: seq<string>, l: string)
    requires lines != [] && StatusLine(lines[0])
    requires StatusLine(l) && Valued(l)
    ensures SubStatus(lines[0 := l]) == SubStatus(lines) <==> !Swallows(lines)
  {
    var given := lines[0 := l];
    assert given[1..] == lines[1..];
    var taken := DropBlank(lines[1..]);
    assert SubStatus(given) == [STATUS_MARK] + SubStatus(taken);
    if !Valued(lines[0]) && taken != [] {
      TakenLineMatters(lines);
      assert SubStatus(lines) == [STATUS_MARK] + SubStatus(DropBlank(taken[1..]));
      SameHead(STATUS_MARK, SubStatus(taken), SubStatus(DropBlank(taken[1..])));
    }
  }

  lemma HeadingsUnmoved(lines: seq<string>, i: nat, l: string)
    requires i < |lines| && StatusLine(lines[i]) && StatusLine(l)
    ensures !IsHeading(lines[i]) && !IsHeading(l)
  {
    assert lines[i][0] == STATUS_MARK[0] == '*' && l[0] == STATUS_MARK[0];
  }

  lemma {:induction false} NextHeadingUnmoved(lines: seq<string>, i: nat, l: string, c: nat)
    requires i < |lines| && c < |lines| && !IsHeading(lines[i]) && !IsHeading(l)
    ensures NextHeading(lines[i := l], c) == NextHeading(lines, c)
    decreases |lines| - c
  {
    var r := lines[i := l];
    if c + 1 < |lines| && !IsHeading(lines[c + 1]) {
      assert !IsHeading(r[c + 1]);
      NextHeadingUnmoved(lines, i, l, c + 1);
    } else if c + 1 < |lines| {
      assert IsHeading(r[c + 1]);
    }
  }

  lemma NamedUnmoved(lines: seq<string>, i: nat, l: string, heading: string)
    requires i < |lines| && !IsHeading(lines[i]) && !IsHeading(l)
    ensures FirstNamed(lines[i := l], heading) == FirstNamed(lines, heading)
    ensures LastNamed(lines[i := l], heading) == LastNamed(lines, heading)
  {
    SameNamed(lines[i := l], lines, heading);
  }

  /** The first Status line of the file lies in its Current Task section, has no
    * value there, and takes plan text for one. */
  predicate StatusSwallowsPlan(lines: seq<string>) {
    var c, i := FirstNamed(lines, TASK), FindStatus(lines);
    && c < i < |lines| && i < NextHeading(lines, c)
    && Swallows(SectionLines(lines, c)[i - c..])
  }

  lemma MidStatus(pre: seq<string>, tail: seq<string>, l: string)
    requires forall x | x in pre :: !StatusLine(x)
    requires tail != [] && StatusLine(tail[0]) && StatusLine(l) && Valued(l)
    ensures SubStatus(pre + tail[0 := l]) == SubStatus(pre + tail) <==> !Swallows(tail)
  {
    SubStatusAfterPrefix(pre, tail);
    SubStatusAfterPrefix(pre, tail[0 := l]);
    SamePrefix(pre, SubStatus(tail[0 := l]), SubStatus(tail));
    HeadStatus(tail, l);
  }

  lemma SectionSplit(lines: seq<string>, c: nat, i: nat, l: string)
    requires c < i < |lines| && i < NextHeading(lines, c)
    requires NextHeading(lines[i := l], c) == NextHeading(lines, c)
    ensures var sec, m := SectionLines(lines, c), i - c;
            && sec == lines[c..i] + sec[m..] && sec[m..] != [] && sec[m] == lines[i]
            && SectionLines(lines[i := l], c) == lines[c..i] + sec[m..][0 := l]
  {
  }

  lemma StatusInsidePlan(lines: seq<string>, c: nat, i: nat, l: string)
    requires c < i < |lines| && i == FindStatus(lines) && i < NextHeading(lines, c)
    requires NextHeading(lines[i := l], c) == NextHeading(lines, c)
    requires StatusLine(l) && Valued(l)
    ensures StatusLine(SectionLines(lines, c)[i - c..][0])
    ensures SubStatus(SectionLines(lines[i := l], c)) == SubStatus(SectionLines(lines, c))
            <==> !Swallows(SectionLines(lines, c)[i - c..])
  {
    SectionSplit(lines, c, i, l);
    forall x | x in lines[c..i] ensures !StatusLine(x) {
    }
    MidStatus(lines[c..i], SectionLines(lines, c)[i - c..], l);
  }

  lemma PlanWithStatus(lines: seq<string>, i: nat, l: string)
    requires i == FindStatus(lines) < |lines| && StatusLine(l) && Valued(l)
    ensures PlanLines(lines[i := l]) == PlanLines(lines) <==> !StatusSwallowsPlan(lines)
  {
    var c := FirstNamed(lines, TASK);
    HeadingsUnmoved(lines, i, l);
    NamedUnmoved(lines, i, l, TASK);
    if c < |lines| {
      NextHeadingUnmoved(lines, i, l, c);
      if c < i < NextHeading(lines, c) {
        StatusInsidePlan(lines, c, i, l);
      } else {
        assert c != i;
      }
    }
  }

  /** A Status write leaves the plan text alone exactly when the Status line did
    * not swallow a plan line before the write. */
  lemma StatusWriteKeepsPlan(lines: seq<string>, s: string)
    requires ValidStatus(s)
    ensures PlanLines(ReplaceStatusLines(lines, s)) == PlanLines(lines) <==> !StatusSwallowsPlan(lines)
  {
    var i := FindStatus(lines);
    if i < |lines| {
      NewStatusLine(lines[i], s);
      PlanWithStatus(lines, i, StatusWith(s, lines[i]));
    }
  }

  /** A Status write above the QA section leaves that section alone. */
  lemma StatusWriteKeepsQa(lines: seq<string>, s: string)
    requires ValidStatus(s)
    requires FindStatus(lines) <= LastNamed(lines, QA)
    ensures QaLines(ReplaceStatusLines(lines, s)) == QaLines(lines)
  {
    var q, i := LastNamed(lines, QA), FindStatus(lines);
    if i < |lines| {
      var l := StatusWith(s, lines[i]);
      NewStatusLine(lines[i], s);
      HeadingsUnmoved(lines, i, l);
      NamedUnmoved(lines, i, l, QA);
      if q < |lines| {
        NextHeadingUnmoved(lines, i, l, q);
      }
    }
  }

  // ---- any number of writes -------------------------------------------------

  function WriteAll(text: string, statuses: seq<string>): string
    decreases |statuses|
  {
    if statuses == [] then text else WriteAll(ReplaceStatus(text, statuses[0]), statuses[1..])
  }

  lemma LinesOfReplace(text: string, s: string)
    requires ValidStatus(s)
    ensures Split(ReplaceStatus(text, s)) == ReplaceStatusLines(Split(text), s)
  {
    assert '\n' !in s by {
      assert forall k | 0 <= k < |s| :: !IsBreak(s[k]);
    }
    SplitIsLines(text);
    ReplaceStatusLinesAreLines(Split(text), s);
    SplitOfJoin(ReplaceStatusLines(Split(text), s));
  }

  lemma TailKept(line: string, s: string)
    requires StatusLine(line) && ValidStatus(s)
    ensures StatusLine(StatusWith(s, line)) && KeptTail(StatusWith(s, line)) == KeptTail(line)
  {
    var l, tail := StatusWith(s, line), KeptTail(line);
    NewStatusLine(line, s);
    var rest := StatusRest(l);
    var k := IndexOf(rest, '\r');
    assert forall i | 0 <= i < |s| :: rest[i + 1] == s[i] && !IsBreak(s[i]);
    if tail != "" {
      assert rest[1 + |s|] == tail[0] == '\r';
      assert k == 1 + |s|;
    } else {
      assert k == |rest|;
    }
  }

  /** Once written, a Status no longer swallows plan text. */
  lemma WrittenStatusHasValue(lines: seq<string>, s: string)
    requires ValidStatus(s)
    ensures !StatusSwallowsPlan(ReplaceStatusLines(lines, s))
  {
    var r, i := ReplaceStatusLines(lines, s), FindStatus(lines);
    FirstStatusStays(lines, s);
    if i < |lines| {
      NewStatusLine(lines[i], s);
      var c := FirstNamed(r, TASK);
      if c < i && i < NextHeading(r, c) {
        assert SectionLines(r, c)[i - c] == r[i];
      }
    }
  }

  lemma {:induction false} WritesKeepPlan(text: string, statuses: seq<string>)
    requires forall s | s in statuses :: ValidStatus(s)
    requires !StatusSwallowsPlan(Split(text))
    ensures PlanLines(Split(WriteAll(text, statuses))) == PlanLines(Split(text))
    decreases |statuses|
  {
    if statuses != [] {
      assert statuses[0] in statuses;
      LinesOfReplace(text, statuses[0]);
      StatusWriteKeepsPlan(Split(text), statuses[0]);
      WrittenStatusHasValue(Split(text), statuses[0]);
      WritesKeepPlan(ReplaceStatus(text, statuses[0]), statuses[1..]);
    }
  }

  /** A Status line exists and ends without a stray `\r`. */
  predicate StatusReadable(lines: seq<string>) {
    FindStatus(lines) < |lines| && Blank(KeptTail(lines[FindStatus(lines)]))
  }

  lemma StatusStaysReadable(lines: seq<string>, s: string)
    requires ValidStatus(s) && StatusReadable(lines)
    ensures StatusReadable(ReplaceStatusLines(lines, s))
  {
    FirstStatusStays(lines, s);
    TailKept(lines[FindStatus(lines)], s);
  }

  lemma ReadableReadBack(text: string, s: string)
    requires ValidStatus(s) && StatusReadable(Split(text))
    ensures ReadStatus(ReplaceStatus(text, s)) == s
    ensures StatusReadable(Split(ReplaceStatus(text, s)))
  {
    ReadBack(text, s);
    LinesOfReplace(text, s);
    StatusStaysReadable(Split(text), s);
  }

  lemma {:induction false} LastWriteIsRead(text: string, statuses: seq<string>)
    requires forall s | s in statuses :: ValidStatus(s)
    requires statuses != [] && StatusReadable(Split(text))
    ensures ReadStatus(WriteAll(text, statuses)) == statuses[|statuses| - 1]
    decreases |statuses|
  {
    assert statuses[0] in statuses;
    ReadableReadBack(text, statuses[0]);
    if |statuses| > 1 {
      LastWriteIsRead(ReplaceStatus(text, statuses[0]), statuses[1..]);
    }
  }

  /** Over any sequence of Status writes -- approval, reconciliation, QA -- the
    * plan text is unchanged, provided the first one found a Status that swallows
    * none of it; and the last status written is the one read. */
  lemma StatusWritesKeepPlan(text: string, statuses: seq<string>)
    requires forall s | s in statuses :: ValidStatus(s)
    requires !StatusSwallowsPlan(Split(text))
    ensures PlanLines(Split(WriteAll(text, statuses))) == PlanLines(Split(text))
    ensures statuses != [] && StatusReadable(Split(text))
            ==> ReadStatus(WriteAll(text, statuses)) == statuses[|statuses| - 1]
  {
    WritesKeepPlan(text, statuses);
    if statuses != [] && StatusReadable(Split(text)) {
      LastWriteIsRead(text, statuses);
    }
  }

  /** The failing case: an empty Status value takes the next line, here Branch,
    * out of the plan text, and any first write puts it back. */
  lemma EmptyStatusSwallowsBranch(lines: seq<string>, s: string)
    requires lines == [TASK, STATUS_MARK, "**Branch:** b"] && ValidStatus(s)
    ensures StatusSwallowsPlan(lines) && PlanLines(ReplaceStatusLines(lines, s)) != PlanLines(lines)
  {
    EmptyStatusLines(lines);
    StatusWriteKeepsPlan(lines, s);
  }

  lemma EmptyStatusLines(lines: seq<string>)
    requires lines == [TASK, STATUS_MARK, "**Branch:** b"]
    ensures StatusSwallowsPlan(lines)
  {
    var branch := lines[2];
    assert branch[2] == 'B' && STATUS_MARK[2] == 'S' && TASK[0] == '#' && branch[0] == STATUS_MARK[0] == '*';
    assert !StatusLine(branch) && !StatusLine(TASK) && !IsHeading(STATUS_MARK) && !IsHeading(branch);
    assert TASK[|TASK| - 1] == 'k' && TASK[..3] == "## ";
    Trimmed(TASK);
    assert FirstNamed(lines, TASK) == 0 && FindStatus(lines) == 1 && NextHeading(lines, 0) == 3;
    EmptyStatusTail(SectionLines(lines, 0)[1..], branch);
  }

  lemma EmptyStatusTail(tail: seq<string>, value: string)
    requires |tail| == 2 && tail[0] == STATUS_MARK && tail[1] == value
    requires value != "" && !IsSpace(value[0]) && !StatusLine(value)
    ensures Swallows(tail)
  {
    assert StatusRest(STATUS_MARK) == "";
    assert tail[1..][0] == value;
    assert !Blank(value);
  }
}
