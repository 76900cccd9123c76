/** `render_qa` with and without a Status to set: which bytes, lines and plan text
  * a QA write keeps.
  */
module QaWrites {
  import opened Wrappers
  import opened Text
  import opened Handoff
  import opened StatusWrites
  import opened Acceptance
  import opened Delivery
  import opened Qa

  // ---- a Status write in the text ------------------------------------------------

  /** The Status mark and the value that a write replaces. */
  function Replaced(line: string): string
    requires StatusLine(line)
  {
    line[..|line| - |KeptTail(line)|]
  }

  function NewStatus(s: string): string { STATUS_MARK + " " + s }

  lemma ReplacedFacts(line: string)
    requires StatusLine(line) && '\n' !in line
    ensures line == Replaced(line) + KeptTail(line) && Replaced(line) != "" && Replaced(line)[0] == '*'
    ensures '\r' !in Replaced(line) && '\n' !in Replaced(line)
    ensures KeptTail(line) != "" ==> KeptTail(line)[0] == '\r'
  {
    var rest := StatusRest(line);
    var k := IndexOf(rest, '\r');
    assert Replaced(line) == STATUS_MARK + rest[..k];
    assert forall i | 0 <= i < |STATUS_MARK| :: STATUS_MARK[i] != '\r' && STATUS_MARK[i] != '\n';
    forall i | 0 <= i < |Replaced(line)| ensures Replaced(line)[i] != '\r' {
      if i >= |STATUS_MARK| { assert Replaced(line)[i] == rest[i - |STATUS_MARK|]; }
    }
    assert STATUS_MARK[0] == '*';
  }

  /** Text before, from and after a line, as strings. */
  lemma JoinAround(lines: seq<string>, i: nat, x: string)
    requires i < |lines|
    ensures Join(lines[i := x])
            == (if i == 0 then "" else Join(lines[..i]) + LF) + (x + (if i + 1 == |lines| then "" else LF + Join(lines[i + 1..])))
  {
    var tail := lines[i := x][i..];
    assert lines[i := x] == lines[..i] + tail;
    if i > 0 {
      JoinAppend(lines[..i], tail);
    }
    assert tail[1..] == lines[i + 1..] && tail[0] == x;
  }

  /** What a Status write does to the text: `value` becomes the new Status. */
  ghost predicate StatusCut(text: string, above: string, value: string, below: string) {
    && text == above + (value + below)
    && (above == "" || above[|above| - 1] == '\n')
    && value != "" && value[0] == '*' && '\r' !in value && '\n' !in value
    && (below != "" ==> below[0] == '\r' || below[0] == '\n')
  }

  lemma CutStatus(text: string) returns (above: string, value: string, below: string)
    requires FindStatus(Split(text)) < |Split(text)|
    ensures StatusCut(text, above, value, below) && value == Replaced(Split(text)[FindStatus(Split(text))])
    ensures forall s :: ReplaceStatus(text, s) == above + (NewStatus(s) + below)
  {
    var lines, i := Split(text), FindStatus(Split(text));
    SplitIsLines(text);
    JoinOfSplit(text);
    assert lines[i] in lines;
    ReplacedFacts(lines[i]);
    above := if i == 0 then "" else Join(lines[..i]) + LF;
    value := Replaced(lines[i]);
    var more := if i + 1 == |lines| then "" else LF + Join(lines[i + 1..]);
    below := KeptTail(lines[i]) + more;
    JoinAround(lines, i, lines[i]);
    assert lines[i := lines[i]] == lines;
    Regroup3(value, KeptTail(lines[i]), more);
    forall s ensures ReplaceStatus(text, s) == above + (NewStatus(s) + below) {
      JoinAround(lines, i, StatusWith(s, lines[i]));
      Regroup3(NewStatus(s), KeptTail(lines[i]), more);
    }
  }

  // ---- the physical lines of a Status write ------------------------------------------

  lemma EndsInBreak(l: string, ending: string)
    requires Follows(ending, "") && l + ending != ""
    ensures ending != "" ==> IsBreak((l + ending)[|l + ending| - 1])
  {
    assert ending != "" ==> (l + ending)[|l + ending| - 1] == ending[|ending| - 1];
    assert IsBreak('\n');
  }

  lemma UnbrokenMore(a: string, l: string, end: string, more: string, ending: string, rest: string)
    requires a == l + end + more && NoBreaks(l) && Follows(end, more) && l + end != "" && more != ""
    requires SplitLines(a) == [l] + SplitLines(more)
    requires SplitLines(more + ending + rest) == SplitLines(more) + SplitLines(rest)
    ensures SplitLines(a + ending + rest) == SplitLines(a) + SplitLines(rest)
  {
    var tail := more + ending + rest;
    assert tail[0] == more[0];
    Assoc(l + end, more, ending);
    Assoc(l + end, more + ending, rest);
    LineThen(l, end, tail);
    Assoc([l], SplitLines(more), SplitLines(rest));
  }

  lemma UnbrokenLast(a: string, l: string, end: string, ending: string, rest: string)
    requires a == l + end && NoBreaks(l) && Follows(end, "") && a != "" && !IsBreak(a[|a| - 1]) && Follows(ending, rest)
    ensures a == l && SplitLines(a + ending + rest) == [l] + SplitLines(rest)
  {
    EndsInBreak(l, end);
    assert l + "" == l;
    LineThen(l, ending, rest);
  }

  lemma {:induction false} Unbroken(a: string, ending: string, rest: string)
    requires a != "" && !IsBreak(a[|a| - 1]) && Follows(ending, rest)
    ensures SplitLines(a + ending + rest) == SplitLines(a) + SplitLines(rest)
    decreases |a|
  {
    var l, end, more := FirstLineCut(a);
    if more == "" {
      assert a == l + end;
      UnbrokenLast(a, l, end, ending, rest);
      assert SplitLines("") == [] && SplitLines(a) == [l];
    } else {
      LastOfTail(l + end, more);
      Unbroken(more, ending, rest);
      UnbrokenMore(a, l, end, more, ending, rest);
    }
  }

  lemma LastOfTail(front: string, more: string)
    requires more != ""
    ensures (front + more)[|front + more| - 1] == more[|more| - 1]
  {
  }

  /** What follows the value: its line ending, and the rest. */
  lemma BelowCut(below: string) returns (ending: string, rest: string)
    requires below != "" ==> below[0] == '\r' || below[0] == '\n'
    ensures below == ending + rest && Follows(ending, rest) && (below != "" ==> ending != "")
    ensures below != "" ==> SplitLines(below) == [""] + SplitLines(rest)
  {
    if below == "" {
      ending, rest := "", "";
    } else {
      var l;
      l, ending, rest := FirstLineCut(below);
      assert IsBreak('\r') && IsBreak('\n');
    }
  }

  /** The lines of the new text from the Status line on. */
  lemma LineLines(l: string, below: string, ending: string, rest: string)
    requires NoBreaks(l) && l != "" && below == ending + rest && Follows(ending, rest)
    ensures SplitLines(l + below) == [l] + SplitLines(rest)
  {
    Regroup3(l, ending, rest);
    LineThen(l, ending, rest);
  }

  /** The lines of the old text from the Status line on. */
  lemma ValueLines(value: string, below: string, ending: string, rest: string)
    requires value != "" && '\r' !in value && '\n' !in value
    requires below == ending + rest && Follows(ending, rest) && (below == "" ==> rest == "")
    requires below != "" ==> SplitLines(below) == [""] + SplitLines(rest)
    ensures SplitLines(value + below) == SplitLines(value) + SplitLines(rest)
            || SplitLines(value + below) == SplitLines(value) + ([""] + SplitLines(rest))
  {
    if IsBreak(value[|value| - 1]) {
      assert value[|value| - 1] in value;
      if below == "" {
        assert SplitLines("") == [];
        assert value + below == value && SplitLines(value) + [] == SplitLines(value);
      } else {
        LinesAppend(value, below);
      }
    } else {
      Regroup3(value, ending, rest);
      Unbroken(value, ending, rest);
    }
  }

  lemma ValueStarts(value: string)
    requires value != "" && value[0] == '*'
    ensures SplitLines(value) != [] && SplitLines(value)[0] != "" && SplitLines(value)[0][0] == '*'
  {
    var l, ending, rest := FirstLineCut(value);
    assert !IsBreak('*');
  }

  /** The physical lines a Status write removes: those of the old value after the
    * first.  None, unless the value holds an unusual line break. */
  function Taken(text: string): seq<string> {
    var lines := Split(text);
    var i := FindStatus(lines);
    if i == |lines| then [] else
      var value := SplitLines(Replaced(lines[i]));
      if value == [] then [] else value[1..]
  }

  lemma LinesBelow(above: string, x: string)
    requires above == "" || above[|above| - 1] == '\n'
    ensures SplitLines(above + x) == SplitLines(above) + SplitLines(x)
  {
    assert IsBreak('\n');
    LinesAppend(above, x);
  }

  lemma Around(a: seq<string>, v: seq<string>, b: seq<string>, whole: seq<string>) returns (m: seq<string>)
    requires v != [] && (whole == a + (v + b) || whole == a + (v + ([""] + b)))
    ensures whole == a + m + b && m != [] && m[0] == v[0] && (m[1..] == v[1..] || m[1..] == v[1..] + [""])
  {
    if whole == a + (v + b) {
      m := v;
    } else {
      m := v + [""];
    }
    assert m[1..] == v[1..] + (if m == v then [] else [""]);
    assert whole == a + (m + b);
    Assoc(a, m, b);
  }

  /** `a + m + b` are the lines before, `a + [l] + b` those after the write. */
  lemma WriteLines(text: string, s: string) returns (a: seq<string>, m: seq<string>, l: string, b: seq<string>)
    requires ValidStatus(s) && FindStatus(Split(text)) < |Split(text)|
    ensures SplitLines(text) == a + m + b && SplitLines(ReplaceStatus(text, s)) == a + [l] + b
    ensures l == NewStatus(s) && m != [] && m[0] != "" && m[0][0] == '*' && (m[1..] == Taken(text) || m[1..] == Taken(text) + [""])
  {
    var above, value, below := CutStatus(text);
    l := NewStatus(s);
    NewStatusHasNoBreaks(s);
    var ending, rest := BelowCut(below);
    ValueLines(value, below, ending, rest);
    LineLines(l, below, ending, rest);
    ValueStarts(value);
    LinesBelow(above, value + below);
    LinesBelow(above, l + below);
    a, b := SplitLines(above), SplitLines(rest);
    m := Around(a, SplitLines(value), b, SplitLines(text));
    Assoc(a, [l], b);
  }

  lemma NewStatusHasNoBreaks(s: string)
    requires ValidStatus(s)
    ensures NoBreaks(NewStatus(s)) && NewStatus(s) != "" && NewStatus(s)[0] == '*'
  {
    assert forall i | 0 <= i < |STATUS_MARK| :: !IsBreak(STATUS_MARK[i]);
    assert STATUS_MARK[0] == '*';
  }

  // ---- when a Status write keeps the structure ---------------------------------------------

  /** Where an index goes when the block `m` at `n` becomes one line. */
  function Moved(p: nat, n: nat, m: nat): nat {
    if p < n then p else if p < n + m then n else p - m + 1
  }

  lemma OnlyOutside(a: seq<string>, m: seq<string>, l: string, b: seq<string>, x: string, p: nat)
    requires OnlyAt(a + m + b, x, p) && x !in m && x != l && m != []
    ensures OnlyAt(a + [l] + b, x, Moved(p, |a|, |m|)) && (p < |a| || |a| + |m| <= p)
  {
    var xs, ys := a + m + b, a + [l] + b;
    assert forall k | 0 <= k < |m| :: xs[|a| + k] == m[k] && m[k] in m;
    forall k | 0 <= k < |ys| && k != Moved(p, |a|, |m|) ensures ys[k] != x {
      if k < |a| {
        assert ys[k] == xs[k];
      } else if k > |a| {
        assert ys[k] == xs[k + |m| - 1];
      }
    }
  }

  lemma InsideOutside(a: seq<string>, m: seq<string>, l: string, b: seq<string>, task: nat, notes: nat)
    requires notes < |a + m + b| && (forall i | task < i < notes :: !StartsWith((a + m + b)[i], "## "))
    requires m != [] && !StartsWith(l, "## ") && task < notes
    requires (task < |a| || |a| + |m| <= task) && (notes < |a| || |a| + |m| <= notes)
    ensures Moved(task, |a|, |m|) < Moved(notes, |a|, |m|)
    ensures forall k | Moved(task, |a|, |m|) < k < Moved(notes, |a|, |m|) :: !StartsWith((a + [l] + b)[k], "## ")
  {
    var xs, ys := a + m + b, a + [l] + b;
    forall k | Moved(task, |a|, |m|) < k < Moved(notes, |a|, |m|) ensures !StartsWith(ys[k], "## ") {
      if k < |a| {
        assert ys[k] == xs[k];
      } else if k > |a| {
        assert ys[k] == xs[k + |m| - 1];
      }
    }
  }

  lemma ShapeOutside(a: seq<string>, m: seq<string>, l: string, b: seq<string>, task: nat, notes: nat, qa: nat)
    requires Shape(a + m + b, task, notes, qa) && NoHeadings(m) && m != []
    requires l != TASK && l != NOTES && l != QA && !StartsWith(l, "## ")
    ensures StructureOf(a + [l] + b) == []
  {
    OnlyOutside(a, m, l, b, TASK, task);
    OnlyOutside(a, m, l, b, NOTES, notes);
    OnlyOutside(a, m, l, b, QA, qa);
    InsideOutside(a, m, l, b, task, notes);
    assert Shape(a + [l] + b, Moved(task, |a|, |m|), Moved(notes, |a|, |m|), Moved(qa, |a|, |m|));
    StructureMeansShape(a + [l] + b);
  }

  /** A line that is only in the removed block is lost. */
  lemma LostInside(a: seq<string>, m: seq<string>, l: string, b: seq<string>, x: string, p: nat)
    requires OnlyAt(a + m + b, x, p) && x in m && x != l
    ensures x !in a + [l] + b
  {
    var xs, ys := a + m + b, a + [l] + b;
    var i :| 0 <= i < |m| && m[i] == x;
    assert xs[|a| + i] == x;
    forall k | 0 <= k < |ys| ensures ys[k] != x {
      if k < |a| {
        assert ys[k] == xs[k];
      } else if k > |a| {
        assert ys[k] == xs[k + |m| - 1];
      }
    }
  }

  lemma MissingHeading(lines: seq<string>, x: string)
    requires x == TASK || x == NOTES || x == QA
    requires x !in lines
    ensures StructureOf(lines) != []
  {
    if StructureOf(lines) == [] {
      StructureMeansShape(lines);
    }
  }

  lemma StructureOutside(a: seq<string>, m: seq<string>, l: string, b: seq<string>)
    requires StructureOf(a + m + b) == [] && m != []
    requires l != TASK && l != NOTES && l != QA && !StartsWith(l, "## ")
    ensures StructureOf(a + [l] + b) == [] <==> NoHeadings(m)
  {
    StructureMeansShape(a + m + b);
    var task: nat, notes: nat, qa: nat :| Shape(a + m + b, task, notes, qa);
    if NoHeadings(m) {
      ShapeOutside(a, m, l, b, task, notes, qa);
    } else if TASK in m {
      LostInside(a, m, l, b, TASK, task);
      MissingHeading(a + [l] + b, TASK);
    } else if NOTES in m {
      LostInside(a, m, l, b, NOTES, notes);
      MissingHeading(a + [l] + b, NOTES);
    } else {
      LostInside(a, m, l, b, QA, qa);
      MissingHeading(a + [l] + b, QA);
    }
  }

  lemma StarIsNoHeading(l: string)
    requires l != "" && l[0] == '*'
    ensures l != TASK && l != NOTES && l != QA && !StartsWith(l, "## ")
  {
    assert TASK[0] == '#' && NOTES[0] == '#' && QA[0] == '#' && "## "[0] == '#';
  }

  lemma HeadingsInBlock(m: seq<string>, taken: seq<string>)
    requires m != [] && m[0] != "" && m[0][0] == '*' && (m[1..] == taken || m[1..] == taken + [""])
    ensures NoHeadings(m) <==> NoHeadings(taken)
  {
    StarIsNoHeading(m[0]);
    assert m == [m[0]] + m[1..];
    assert TASK != "" && NOTES != "" && QA != "";
  }

  /** A Status write keeps a document well formed exactly if the old value holds no
    * required heading behind an unusual line break. */
  lemma StatusKeepsStructure(text: string, s: string)
    requires WellFormed(text) && ValidStatus(s)
    ensures WellFormed(ReplaceStatus(text, s)) <==> NoHeadings(Taken(text))
  {
    if FindStatus(Split(text)) < |Split(text)| {
      var a, m, l, b := WriteLines(text, s);
      NewStatusHasNoBreaks(s);
      StarIsNoHeading(l);
      HeadingsInBlock(m, Taken(text));
      StructureOutside(a, m, l, b);
    } else {
      JoinOfSplit(text);
    }
  }

  /** With `\n` and `\r\n` alone, nothing is taken. */
  lemma PlainTakesNothing(text: string)
    requires Plain(text)
    ensures Taken(text) == []
  {
    var lines, i := Split(text), FindStatus(Split(text));
    if i < |lines| {
      var value := Replaced(lines[i]);
      SplitIsLines(text);
      PlainIsPlainLines(text);
      assert lines[i] in lines;
      ReplacedFacts(lines[i]);
      PlainValue(lines, i);
      SplitLinesEnd(value);
    }
  }

  lemma PlainValue(lines: seq<string>, i: nat)
    requires PlainLines(lines) && i < |lines| && StatusLine(lines[i]) && '\n' !in lines[i]
    ensures PlainEnd(Replaced(lines[i]))
  {
    var line := lines[i];
    var value := Replaced(line);
    ReplacedFacts(line);
    assert PlainLine(line);
    forall k | 0 <= k < |value| ensures !IsBreak(value[k]) {
      assert value[k] == line[k] && value[k] in value;
    }
  }

  lemma {:induction false} CountAppend(a: seq<string>, b: seq<string>, x: string)
    ensures |Positions(a + b, x)| == |Positions(a, x)| + |Positions(b, x)|
    decreases |b|
  {
    if b == [] {
      assert a + b == a;
    } else {
      var n := |b| - 1;
      assert (a + b)[..|a + b| - 1] == a + b[..n] && (a + b)[|a + b| - 1] == b[n];
      CountAppend(a, b[..n], x);
    }
  }

  lemma NoneThere(m: seq<string>, x: string)
    requires x !in m
    ensures |Positions(m, x)| == 0
  {
  }

  lemma CountOutside(a: seq<string>, m: seq<string>, l: string, b: seq<string>, x: string)
    requires x !in m && l != x
    ensures |Positions(a + m + b, x)| == |Positions(a + [l] + b, x)|
  {
    CountAppend(a + m, b, x);
    CountAppend(a, m, x);
    CountAppend(a + [l], b, x);
    CountAppend(a, [l], x);
    NoneThere(m, x);
    NoneThere([l], x);
  }

  /** A Status write neither makes nor settles an ambiguity. */
  lemma UnambiguousStays(text: string, s: string)
    requires Plain(text) && ValidStatus(s)
    ensures Unambiguous(ReplaceStatus(text, s)) == Unambiguous(text)
  {
    if FindStatus(Split(text)) < |Split(text)| {
      var a, m, l, b := WriteLines(text, s);
      PlainTakesNothing(text);
      HeadingsInBlock(m, []);
      NewStatusHasNoBreaks(s);
      StarIsNoHeading(l);
      CountOutside(a, m, l, b, TASK);
      CountOutside(a, m, l, b, QA);
    } else {
      JoinOfSplit(text);
    }
  }

  // ---- the bytes of a QA write ----------------------------------------------------------------

  /** The head ends its last `\n`-line and holds no Status line. */
  predicate NoStatusIn(head: string) {
    (head == "" || head[|head| - 1] == '\n') && FindStatus(Split(head)) == |Split(head)|
  }

  /** A Status to set stands above the QA heading, or in the QA text. */
  predicate StatusFits(text: string, status: Option<string>) {
    status.Some? ==>
      && QaParts(text).Some? && ValidStatus(status.value)
      && (StatusAbove(QaParts(text).value.head) || NoStatusIn(QaParts(text).value.head))
  }

  /** The new head and body: the first Status line of the two gets the new value. */
  function SetParts(head: string, body: string, status: Option<string>): string {
    if status.None? then head + body
    else if StatusAbove(head) then ReplaceStatus(head, status.value) + body
    else head + ReplaceStatus(body, status.value)
  }

  lemma LastEmpty(head: string)
    requires head == "" || head[|head| - 1] == '\n'
    ensures Split(head)[|Split(head)| - 1] == ""
    decreases |head|
  {
    if head != "" {
      var a := head[..|head| - 1];
      assert head == a + LF + "";
      SplitAtBreak(a, "");
      assert Split("") == [""];
    }
  }

  lemma LinesBelowHead(head: string, body: string) returns (front: seq<string>)
    requires NoStatusIn(head)
    ensures Split(head + body) == front + Split(body) && Split(head) == front + [""]
    ensures forall l | l in front :: !StatusLine(l)
  {
    var lines := Split(head);
    LastEmpty(head);
    SplitAppend(head, body);
    front := lines[..|lines| - 1];
    assert "" + body == body && lines == front + [""];
    forall i | 0 <= i < |front| ensures !StatusLine(front[i]) {
      assert front[i] == lines[i];
    }
  }

  lemma FindStatusBelow(front: seq<string>, more: seq<string>)
    requires forall l | l in front :: !StatusLine(l)
    ensures FindStatus(front + more) == |front| + FindStatus(more)
  {
    var i, j := FindStatus(front + more), FindStatus(more);
    forall k | 0 <= k < |front| ensures !StatusLine((front + more)[k]) {
      assert front[k] in front;
    }
    if i < |front + more| {
      assert (front + more)[i] == more[i - |front|];
    }
    if j < |more| {
      assert (front + more)[|front| + j] == more[j];
    }
  }

  lemma UpdateSuffix<T>(a: seq<T>, b: seq<T>, i: nat, x: T)
    requires i < |b|
    ensures (a + b)[|a| + i := x] == a + b[i := x]
  {
  }

  lemma JoinBelow(front: seq<string>, more: seq<string>)
    requires |more| > 0
    ensures Join(front + more) == (if front == [] then "" else Join(front) + LF) + Join(more)
  {
    if front == [] {
      assert front + more == more;
    } else {
      JoinAppend(front, more);
    }
  }

  /** A Status write below `front`, on lines. */
  lemma ReplaceBelow(front: seq<string>, more: seq<string>, s: string)
    requires forall l | l in front :: !StatusLine(l)
    ensures ReplaceStatusLines(front + more, s) == front + ReplaceStatusLines(more, s)
    ensures var i, j := FindStatus(front + more), FindStatus(more);
            (i < |front + more| <==> j < |more|) && (j < |more| ==> (front + more)[i] == more[j])
  {
    var j := FindStatus(more);
    FindStatusBelow(front, more);
    if j < |more| {
      UpdateSuffix(front, more, j, StatusWith(s, more[j]));
      assert (front + more)[|front| + j] == more[j];
    }
  }

  lemma FrontText(head: string, front: seq<string>)
    requires Split(head) == front + [""]
    ensures head == if front == [] then "" else Join(front) + LF
  {
    JoinOfSplit(head);
    JoinBelow(front, [""]);
    assert Join([""]) == "";
  }

  /** Without a Status line in the head, setting Status acts on the body. */
  lemma StatusSetInBody(head: string, body: string, s: string)
    requires NoStatusIn(head)
    ensures ReplaceStatus(head + body, s) == head + ReplaceStatus(body, s)
  {
    var front := LinesBelowHead(head, body);
    ReplaceBelow(front, Split(body), s);
    FrontText(head, front);
    JoinBelow(front, ReplaceStatusLines(Split(body), s));
  }

  lemma TakenBelow(head: string, body: string)
    requires NoStatusIn(head)
    ensures Taken(head + body) == Taken(body)
  {
    var front := LinesBelowHead(head, body);
    ReplaceBelow(front, Split(body), "");
  }

  /** Every byte before the QA body is kept but the first Status value; append keeps
    * the old body too, and new text uses the ending of the QA heading line.  Where no
    * Status line stands above the QA heading, the first one of the QA text is set. */
  lemma WriteKeepsBytes(text: string, qaBody: string, status: Option<string>, append: bool)
    requires QaParts(text).Some? && StatusFits(text, status)
    ensures var parts := QaParts(text).value;
            var ending := LineEnding(parts.heading);
            && text == parts.head + parts.body && IsLineOf(parts.heading, QA)
            && RenderQa(text, qaBody, status, append)
               == Ok(SetParts(parts.head,
                              if append then parts.body + Separator(parts.body, ending) + ApplyEnding(qaBody, ending)
                              else ApplyEnding(qaBody, ending),
                              status))
            && UsesOnly(ApplyEnding(qaBody, ending), ending)
  {
    var parts := QaParts(text).value;
    var body := NewBody(parts, Payload(parts, qaBody), append);
    RenderKeepsBytes(text, qaBody, append);
    if status.Some? {
      if StatusAbove(parts.head) {
        StatusSetInHead(parts.head, body, status.value);
      } else {
        StatusSetInBody(parts.head, body, status.value);
      }
    }
  }

  /** The same Status line, whatever follows the head. */
  lemma StatusInFront(lines: seq<string>, n: nat, more: seq<string>, all: seq<string>)
    requires FindStatus(lines) < n <= |lines| && all == lines[..n] + more
    ensures FindStatus(all) == FindStatus(lines) < |all| && all[FindStatus(lines)] == lines[FindStatus(lines)]
  {
    var front := lines[..n];
    assert front[FindStatus(lines)] == lines[FindStatus(lines)];
    assert forall k | 0 <= k < n :: front[k] == lines[k];
    FindStatusInPrefix(front, more);
  }

  lemma StatusLineOfHead(head: string, body: string)
    requires StatusAbove(head)
    ensures var i, lines, all := FindStatus(Split(head)), Split(head), Split(head + body);
            FindStatus(all) == i < |all| && all[i] == lines[i]
  {
    SplitAppend(head, body);
    StatusInFront(Split(head), |Split(head)| - 1, Split(Split(head)[|Split(head)| - 1] + body), Split(head + body));
  }

  lemma TakenOfHead(head: string, body: string, body': string)
    requires StatusAbove(head)
    ensures Taken(head + body) == Taken(head + body')
  {
    StatusLineOfHead(head, body);
    StatusLineOfHead(head, body');
  }

  // ---- where appended text goes -------------------------------------------------------------

  /** The text ends with an empty line. */
  predicate EndsBlank(body: string) { EndsWith(body, "\n\n") || EndsWith(body, "\r\n\r\n") || EndsWith(body, "\r\r") }

  lemma EndingThen(e: string, payload: string)
    requires e in [LF, CR, CRLF] && UsesOnly(payload, e)
    ensures SplitLines(e + payload) == [""] + SplitLines(payload) && Breaks(e, payload)
  {
    assert IsBreak('\r') && IsBreak('\n');
    if payload != "" { assert payload[0] in payload; }
    assert "" + e + payload == e + payload;
    LineThen("", e, payload);
  }

  lemma LastIs(body: string, suffix: string)
    requires EndsWith(body, suffix) && suffix != ""
    ensures body != "" && body[|body| - 1] == suffix[|suffix| - 1]
  {
    assert body[|body| - |suffix|..][|suffix| - 1] == body[|body| - 1];
  }

  lemma EndsWithOne(body: string, c: char)
    ensures EndsWith(body, [c]) <==> body != "" && body[|body| - 1] == c
  {
    if body != "" { assert body[|body| - 1..] == [body[|body| - 1]]; }
  }

  lemma BlankEnd(body: string, e: string, payload: string)
    requires e in [LF, CR, CRLF] && UsesOnly(payload, e) && EndsBlank(body) && (EndsWith(body, CR) ==> e != LF)
    ensures SplitLines(body + payload) == SplitLines(body) + SplitLines(payload)
  {
    assert IsBreak('\r') && IsBreak('\n');
    EndsWithOne(body, '\r');
    if EndsWith(body, "\n\n") { LastIs(body, "\n\n"); }
    if EndsWith(body, "\r\n\r\n") { LastIs(body, "\r\n\r\n"); }
    if EndsWith(body, "\r\r") { LastIs(body, "\r\r"); }
    if payload != "" { assert payload[0] in payload; }
    LinesAppend(body, payload);
  }

  lemma OneEnding(body: string, e: string, payload: string)
    requires e in [LF, CR, CRLF] && UsesOnly(payload, e) && body != "" && (body[|body| - 1] == '\r' ==> e != LF)
    requires IsBreak(body[|body| - 1])
    ensures SplitLines(body + (e + payload)) == SplitLines(body) + ([""] + SplitLines(payload))
  {
    EndingThen(e, payload);
    LinesAppend(body, e + payload);
  }

  lemma EmptyThenMore(e: string, more: string)
    requires e in [LF, CR, CRLF] && Follows(e, e + more)
    ensures SplitLines(e + (e + more)) == [""] + SplitLines(e + more)
  {
    assert "" + e + (e + more) == e + (e + more);
    LineThen("", e, e + more);
  }

  lemma FollowsItself(e: string, more: string)
    requires e in [LF, CR, CRLF]
    ensures Follows(e, e + more)
  {
    assert IsBreak('\r') && IsBreak('\n');
  }

  lemma UnendedLine(body: string, e: string, payload: string)
    requires e in [LF, CR, CRLF] && UsesOnly(payload, e) && body != "" && !IsBreak(body[|body| - 1])
    ensures SplitLines(body + (e + (e + payload))) == SplitLines(body) + ([""] + SplitLines(payload))
  {
    EndingThen(e, payload);
    FollowsItself(e, payload);
    Unbroken(body, e, e + payload);
    Regroup3(body, e, e + payload);
  }

  lemma TwoEmpty(rest: seq<string>)
    ensures [""] + ([""] + rest) == ["", ""] + rest
  {
  }

  lemma EmptyTwice(e: string, payload: string)
    requires e in [LF, CR, CRLF] && UsesOnly(payload, e)
    ensures SplitLines(e + (e + payload)) == ["", ""] + SplitLines(payload)
  {
    EndingThen(e, payload);
    FollowsItself(e, payload);
    EmptyThenMore(e, payload);
    TwoEmpty(SplitLines(payload));
  }

  lemma OddEnd(body: string, e: string, payload: string)
    requires e in [LF, CR, CRLF] && UsesOnly(payload, e) && EndsOddly(body)
    ensures SplitLines(body + (e + (e + payload))) == SplitLines(body) + (["", ""] + SplitLines(payload))
  {
    EmptyTwice(e, payload);
    LinesAppend(body, e + (e + payload));
  }

  /** The empty lines between the old QA text and the new one. */
  function Blanks(body: string): seq<string> {
    if EndsBlank(body) then [] else if EndsOddly(body) then ["", ""] else [""]
  }

  lemma EndedBody(body: string, e: string, payload: string)
    requires e in [LF, CR, CRLF] && UsesOnly(payload, e) && !EndsBlank(body)
    requires body != "" && (body[|body| - 1] == '\n' || (body[|body| - 1] == '\r' && e != LF))
    ensures SplitLines(body + Separator(body, e) + payload) == SplitLines(body) + (Blanks(body) + SplitLines(payload))
  {
    EndsWithOne(body, '\r');
    EndsWithOne(body, '\n');
    assert IsBreak('\r') && IsBreak('\n');
    assert Separator(body, e) == e && Blanks(body) == [""];
    OneEnding(body, e, payload);
    Regroup3(body, e, payload);
  }

  lemma OpenBody(body: string, e: string, payload: string)
    requires e in [LF, CR, CRLF] && UsesOnly(payload, e) && !EndsBlank(body)
    requires body != "" && body[|body| - 1] != '\n' && body[|body| - 1] != '\r'
    ensures SplitLines(body + Separator(body, e) + payload) == SplitLines(body) + (Blanks(body) + SplitLines(payload))
  {
    EndsWithOne(body, '\r');
    EndsWithOne(body, '\n');
    assert Separator(body, e) == e + e;
    Regroup3(e, e, payload);
    Regroup3(body, e + e, payload);
    if EndsOddly(body) {
      OddEnd(body, e, payload);
    } else {
      UnendedLine(body, e, payload);
    }
  }

  lemma NoSeparation(e: string, payload: string)
    ensures "" + Separator("", e) + payload == e + payload && Blanks("") == [""] && SplitLines("") == []
  {
  }

  lemma NoBody(e: string, payload: string)
    requires e in [LF, CR, CRLF] && UsesOnly(payload, e)
    ensures SplitLines("" + Separator("", e) + payload) == SplitLines("") + (Blanks("") + SplitLines(payload))
  {
    NoSeparation(e, payload);
    EndingThen(e, payload);
  }

  lemma BlankBody(body: string, e: string, payload: string)
    requires e in [LF, CR, CRLF] && UsesOnly(payload, e) && EndsBlank(body) && (EndsWith(body, CR) ==> e != LF)
    ensures SplitLines(body + Separator(body, e) + payload) == SplitLines(body) + (Blanks(body) + SplitLines(payload))
  {
    BlankEnd(body, e, payload);
    assert Separator(body, e) == "" && body + "" == body && [] + SplitLines(payload) == SplitLines(payload);
  }

  /** Between the old QA text and the new one stands one empty line, unless the old text
    * ends with one; behind an unusual line break there are two.  Nothing is promised
    * where a lone `\r` ends the old text and the heading line ends with `\n`. */
  lemma AppendedBelowBlank(body: string, e: string, payload: string)
    requires e in [LF, CR, CRLF] && UsesOnly(payload, e) && (EndsWith(body, CR) ==> e != LF)
    ensures SplitLines(body + Separator(body, e) + payload) == SplitLines(body) + (Blanks(body) + SplitLines(payload))
  {
    EndsWithOne(body, '\r');
    if body == "" {
      NoBody(e, payload);
    } else if EndsBlank(body) {
      BlankBody(body, e, payload);
    } else if body[|body| - 1] == '\n' || body[|body| - 1] == '\r' {
      EndedBody(body, e, payload);
    } else {
      OpenBody(body, e, payload);
    }
  }

  lemma {:induction false} SubstituteEnds(t: string, e: string)
    ensures SubstituteLF(t + LF, e) == SubstituteLF(t, e) + e
    decreases |t|
  {
    if t == "" {
      assert (t + LF)[1..] == "" && e + "" == e;
    } else {
      assert (t + LF)[0] == t[0] && (t + LF)[1..] == t[1..] + LF;
      SubstituteEnds(t[1..], e);
    }
  }

  lemma NormalizedEnds(qaBody: string) returns (front: string)
    requires qaBody != ""
    ensures Normalized(qaBody) == front + LF
  {
    ReadLast(qaBody);
    var text := Normalized(qaBody);
    front := text[..|text| - 1];
  }

  /** New QA text that is not empty ends its last line, with the heading's ending. */
  lemma PayloadEnds(qaBody: string, e: string) returns (front: string)
    ensures ApplyEnding(qaBody, e) == if qaBody == "" then "" else front + e
  {
    if qaBody != "" {
      front := NormalizedEnds(qaBody);
      SubstituteEnds(front, e);
      front := SubstituteLF(front, e);
    } else {
      front := "";
    }
  }

  /** A QA write is refused exactly if not one line, but for `\r` and `\n` at its end, is
    * the QA heading; the error then names a problem. */
  lemma RefusedExactly(text: string, qaBody: string, status: Option<string>, append: bool)
    ensures RenderQa(text, qaBody, status, append).Ok? <==> exists i: nat :: OnlyAt(TrimAll(SplitKeepEnds(text)), QA, i)
    ensures RenderQa(text, qaBody, status, append).Err? ==> RenderQa(text, qaBody, status, append).error != []
  {
    SinglePosition(TrimAll(SplitKeepEnds(text)), QA);
  }

  // ---- the structure of a QA write -------------------------------------------------------------

  /** New text does not run into the QA heading line. */
  predicate Apart(parts: Parts, payload: string, append: bool) {
    append || Terminated(parts) || payload == "" || IsBreak(payload[0])
  }

  lemma BreakAfter(head: string, payload: string) returns (rest: string)
    requires head != "" && !IsBreak(head[|head| - 1]) && payload != "" && IsBreak(payload[0])
    ensures SplitLines(head + payload) == SplitLines(head) + SplitLines(rest)
    ensures SplitLines(payload) == [""] + SplitLines(rest)
  {
    var l, ending;
    l, ending, rest := FirstLineCut(payload);
    assert l + ending + rest == ending + rest;
    Regroup3(head, ending, rest);
    Unbroken(head, ending, rest);
  }

  lemma UnterminatedEnd(text: string, parts: Parts)
    requires PartsOk(text, parts) && !Terminated(parts)
    ensures parts.head != "" && !IsBreak(parts.head[|parts.head| - 1])
  {
    LastOfHead(parts.head);
    assert QA[|QA| - 1] == 'k';
  }

  lemma NoHeadingsBelow(x: string, lines: seq<string>)
    requires NoHeadings([x] + lines)
    ensures NoHeadings(lines)
  {
    assert forall y | y in lines :: y in [x] + lines;
  }

  lemma TailAfterBreak(head: string, payload: string) returns (tail: seq<string>)
    requires head != "" && !IsBreak(head[|head| - 1]) && payload != "" && IsBreak(payload[0])
    requires NoHeadings(SplitLines(payload))
    ensures SplitLines(head + payload) == SplitLines(head) + tail && NoHeadings(tail)
  {
    var rest := BreakAfter(head, payload);
    tail := SplitLines(rest);
    NoHeadingsBelow("", tail);
  }

  lemma BreakEndsHeading(text: string, parts: Parts, payload: string)
    requires PartsOk(text, parts) && !Terminated(parts) && payload != "" && IsBreak(payload[0]) && NoHeadings(SplitLines(payload))
    ensures exists tail :: NoHeadings(tail) && SplitLines(parts.head + payload) == SplitLines(parts.head) + tail
  {
    UnterminatedEnd(text, parts);
    var tail := TailAfterBreak(parts.head, payload);
  }

  lemma SomeTailKeepsStructure(text: string, parts: Parts, updated: string)
    requires PartsOk(text, parts) && WellFormed(text)
    requires exists tail :: NoHeadings(tail) && SplitLines(updated) == SplitLines(parts.head) + tail
    ensures WellFormed(updated)
  {
    var tail :| NoHeadings(tail) && SplitLines(updated) == SplitLines(parts.head) + tail;
    NewTailKeepsStructure(text, parts, tail, updated);
  }

  /** Without a Status to set: well formed exactly if the new text is apart from the
    * heading; otherwise the heading is gone. */
  lemma UpdatedStructure(text: string, parts: Parts, qaBody: string, append: bool)
    requires QaParts(text) == Some(parts) && WellFormed(text) && NoHeadings(SplitLines(qaBody))
    ensures var updated := parts.head + NewBody(parts, Payload(parts, qaBody), append);
            if Apart(parts, Payload(parts, qaBody), append) then WellFormed(updated) else NoQaLine(updated)
  {
    var payload := Payload(parts, qaBody);
    PartsSpec(text);
    NewBodyHasNoHeadings(text, parts, qaBody, append);
    if append || Terminated(parts) {
      RenderKeepsStructure(text, qaBody, append);
    } else if payload == "" {
      assert parts.head + "" == parts.head == text by { assert parts.head + parts.body == text; }
    } else if IsBreak(payload[0]) {
      BreakEndsHeading(text, parts, payload);
      SomeTailKeepsStructure(text, parts, parts.head + payload);
    } else {
      var qa := QaOnlyInHead(text, parts);
      GluedDocument(text, parts, payload, qa);
    }
  }

  lemma NoQaAfterStatus(text: string, s: string)
    requires NoQaLine(text) && ValidStatus(s)
    ensures NoQaLine(ReplaceStatus(text, s))
  {
    if FindStatus(Split(text)) < |Split(text)| {
      var a, m, l, b := WriteLines(text, s);
      NewStatusHasNoBreaks(s);
      StarIsNoHeading(l);
      assert forall x | x in a || x in b :: x in a + m + b;
    } else {
      JoinOfSplit(text);
    }
  }

  /** What a Status write takes from the body are lines of it. */
  lemma TakenFromBody(body: string, s: string)
    requires ValidStatus(s) && NoHeadings(SplitLines(body))
    ensures NoHeadings(Taken(body))
  {
    if FindStatus(Split(body)) < |Split(body)| {
      var a, m, l, b := WriteLines(body, s);
      forall x | x in Taken(body) ensures x in SplitLines(body) {
        assert x in m[1..] && x in m && x in a + m + b;
      }
    }
  }

  /** Which headings a Status write would take from the updated text. */
  lemma TakenOfUpdate(text: string, parts: Parts, qaBody: string, append: bool, s: string)
    requires QaParts(text) == Some(parts) && WellFormed(text) && NoHeadings(SplitLines(qaBody)) && ValidStatus(s)
    requires StatusAbove(parts.head) || NoStatusIn(parts.head)
    ensures NoHeadings(Taken(parts.head + NewBody(parts, Payload(parts, qaBody), append)))
            <==> (StatusAbove(parts.head) ==> NoHeadings(Taken(text)))
  {
    var body := NewBody(parts, Payload(parts, qaBody), append);
    PartsSpec(text);
    if StatusAbove(parts.head) {
      TakenOfHead(parts.head, parts.body, body);
    } else {
      NewBodyHasNoHeadings(text, parts, qaBody, append);
      TakenBelow(parts.head, body);
      TakenFromBody(body, s);
    }
  }

  /** A QA write keeps a document well formed exactly if the new text is apart from
    * the heading line and the Status value it replaces hides no required heading.
    * Above the QA heading that is the old value; one in the QA text hides none. */
  lemma WriteKeepsStructureExactly(text: string, qaBody: string, status: Option<string>, append: bool)
    requires WellFormed(text) && QaParts(text).Some? && NoHeadings(SplitLines(qaBody))
    requires status.Some? ==> ValidStatus(status.value)
    ensures var parts := QaParts(text).value;
            var unset := parts.head + NewBody(parts, Payload(parts, qaBody), append);
            && RenderQa(text, qaBody, status, append).Ok?
            && (WellFormed(RenderQa(text, qaBody, status, append).value)
                <==> Apart(parts, Payload(parts, qaBody), append) && (status.Some? ==> NoHeadings(Taken(unset))))
            && (status.Some? && StatusAbove(parts.head) ==> (NoHeadings(Taken(unset)) <==> NoHeadings(Taken(text))))
            && (status.Some? && NoStatusIn(parts.head) ==> NoHeadings(Taken(unset)))
  {
    var parts := QaParts(text).value;
    var unset := parts.head + NewBody(parts, Payload(parts, qaBody), append);
    PartsSpec(text);
    UpdatedStructure(text, parts, qaBody, append);
    if !Apart(parts, Payload(parts, qaBody), append) {
      NoQaNoStructure(unset);
    }
    if status.Some? {
      StructureWithStatus(unset, status.value);
      if StatusAbove(parts.head) || NoStatusIn(parts.head) {
        TakenOfUpdate(text, parts, qaBody, append, status.value);
      }
    }
  }

  lemma StructureWithStatus(unset: string, s: string)
    requires (WellFormed(unset) || NoQaLine(unset)) && ValidStatus(s)
    ensures WellFormed(ReplaceStatus(unset, s)) <==> WellFormed(unset) && NoHeadings(Taken(unset))
  {
    if WellFormed(unset) {
      StatusKeepsStructure(unset, s);
    } else {
      NoQaAfterStatus(unset, s);
      NoQaNoStructure(ReplaceStatus(unset, s));
    }
  }

  // ---- the last writer wins -----------------------------------------------------------------------

  lemma StatusTwice(text: string, s: string, t: string)
    requires ValidStatus(s)
    ensures ReplaceStatus(ReplaceStatus(text, s), t) == ReplaceStatus(text, t)
  {
    var lines := Split(text);
    var i := FindStatus(lines);
    LinesOfReplace(text, s);
    FirstStatusStays(lines, s);
    if i < |lines| {
      TailKept(lines[i], s);
      assert lines[i := StatusWith(s, lines[i])][i := StatusWith(t, lines[i])] == lines[i := StatusWith(t, lines[i])];
    }
  }

  lemma StatusStaysAbove(head: string, s: string)
    requires ValidStatus(s) && StatusAbove(head)
    ensures StatusAbove(ReplaceStatus(head, s))
  {
    LinesOfReplace(head, s);
    FirstStatusStays(Split(head), s);
  }

  /** The chunks of a text whose first part is one line, or ends one. */
  lemma ChunksAfter(p: string, ending: string, rest: string)
    requires p + ending != "" && Follows(ending, rest)
    ensures ending != "" || rest == "" ==> SplitKeepEnds(p + ending + rest) == SplitKeepEnds(p + ending) + SplitKeepEnds(rest)
    ensures SplitKeepEnds(p + ending) != []
  {
    if ending == "" {
      assert p + ending + rest == p + ending && SplitKeepEnds("") == [];
    } else {
      assert (p + ending)[|p + ending| - 1] == ending[|ending| - 1];
      assert IsBreak('\n');
      KeepEndsAppend(p + ending, rest);
    }
  }

  lemma OneChunk(l: string, ending: string)
    requires NoBreaks(l) && l != "" && ending in [LF, CR, CRLF]
    ensures SplitKeepEnds(l + ending) == [l + ending]
  {
    var t := l + ending;
    assert forall i | 0 <= i < |l| :: t[i] == l[i];
    assert IsBreak('\r') && IsBreak('\n');
    assert t[|l|] == ending[0];
    BreakAtIs(t, |l|);
    assert |ending| == 2 ==> t[|l| + 1] == '\n';
    WholeChunk(t);
  }

  lemma WholeChunk(t: string)
    requires t != "" && LineLength(t) == |t|
    ensures SplitKeepEnds(t) == [t]
  {
    assert t[..|t|] == t && t[|t|..] == "";
    assert SplitKeepEnds("") == [];
  }

  lemma TrimsToItself(l: string, ending: string)
    requires NoBreaks(l) && ending in [LF, CR, CRLF]
    ensures TrimEnding(l + ending) == l
  {
    if ending == CRLF {
      TrimTwo(l);
    } else {
      TrimOne(l, ending[0]);
      assert [ending[0]] == ending;
    }
  }

  lemma OnlyInRest(a: seq<string>, m: seq<string>, b: seq<string>, l: string, x: string)
    requires b != [] && OnlyAt(a + m + b, x, |a + m + b| - 1) && l != x
    ensures OnlyAt(a + [l] + b, x, |a + [l] + b| - 1)
  {
    var xs, ys := a + m + b, a + [l] + b;
    forall k | 0 <= k < |ys| - 1 ensures ys[k] != x {
      if k < |a| {
        assert ys[k] == xs[k];
      } else if k > |a| {
        assert ys[k] == xs[k - |a| - 1 + |a| + |m|];
      }
    }
    assert ys[|ys| - 1] == b[|b| - 1] == xs[|xs| - 1];
  }

  lemma TrimAllParts(a: seq<string>, m: seq<string>, b: seq<string>)
    ensures TrimAll(a + m + b) == TrimAll(a) + TrimAll(m) + TrimAll(b)
  {
  }

  /** With nothing below it, the value holds the last line. */
  lemma LastOfValue(above: string, value: string, below: string, ending: string)
    requires value != "" && '\r' !in value && '\n' !in value && SplitLines(value) != []
    requires below == ending + "" && Follows(ending, "")
    requires below != "" ==> SplitLines(below) == [""] + SplitLines("")
    requires above == "" || above[|above| - 1] == '\n'
    ensures var lines := SplitLines(above + (value + below));
            lines != [] && (lines[|lines| - 1] in SplitLines(value) || lines[|lines| - 1] == "")
  {
    assert SplitLines("") == [];
    ValueLines(value, below, ending, "");
    LinesBelow(above, value + below);
    LastOfLists(SplitLines(above), SplitLines(value), SplitLines(value + below));
  }

  lemma LastOfLists(a: seq<string>, v: seq<string>, w: seq<string>)
    requires v != [] && (w == v + [] || w == v + ([""] + []))
    ensures a + w != [] && ((a + w)[|a + w| - 1] in v || (a + w)[|a + w| - 1] == "")
  {
    assert v[|v| - 1] in v;
  }

  lemma QaNotInValue(value: string)
    requires value != "" && value[0] == '*' && QA !in (if SplitLines(value) == [] then [] else SplitLines(value)[1..])
    ensures SplitLines(value) != [] && QA !in SplitLines(value)
  {
    ValueStarts(value);
    StarIsNoHeading(SplitLines(value)[0]);
    assert SplitLines(value) == [SplitLines(value)[0]] + SplitLines(value)[1..];
  }

  /** The QA heading line is not part of the old Status value. */
  lemma HeadingIsBelow(head: string, above: string, value: string, below: string, ending: string, rest: string)
    requires StatusCut(head, above, value, below)
    requires below == ending + rest && Follows(ending, rest)
    requires below != "" ==> SplitLines(below) == [""] + SplitLines(rest)
    requires SplitLines(head) != [] && SplitLines(head)[|SplitLines(head)| - 1] == QA
    requires SplitLines(value) != [] && QA !in SplitLines(value)
    ensures rest != ""
  {
    assert QA != "";
    if rest == "" {
      LastOfValue(above, value, below, ending);
      assert false;
    }
  }

  lemma ChunkLists(a: seq<string>, m: seq<string>, b: seq<string>, c: string)
    requires b != [] && OnlyAt(TrimAll(a + m + b), QA, |a + m + b| - 1) && TrimEnding(c) != QA
    ensures OnlyAt(TrimAll(a + [c] + b), QA, |a + [c] + b| - 1)
    ensures (a + [c] + b)[|a + [c] + b| - 1] == (a + m + b)[|a + m + b| - 1]
  {
    TrimAllParts(a, m, b);
    TrimAllParts(a, [c], b);
    assert TrimAll([c]) == [TrimEnding(c)];
    OnlyInRest(TrimAll(a), TrimAll(m), TrimAll(b), TrimEnding(c), QA);
  }

  /** The chunks of a text around a value that ends in `ending`. */
  lemma ChunksAround(above: string, value: string, ending: string, rest: string)
    requires above == "" || above[|above| - 1] == '\n'
    requires value != "" && ending in [LF, CR, CRLF] && Follows(ending, rest)
    ensures SplitKeepEnds(above + (value + (ending + rest)))
            == SplitKeepEnds(above) + SplitKeepEnds(value + ending) + SplitKeepEnds(rest)
  {
    assert IsBreak('\n');
    Regroup3(value, ending, rest);
    KeepEndsAppend(above, value + ending + rest);
    ChunksAfter(value, ending, rest);
    Assoc(SplitKeepEnds(above), SplitKeepEnds(value + ending), SplitKeepEnds(rest));
  }

  lemma EndingOf(below: string, ending: string, rest: string)
    requires below == ending + rest && Follows(ending, rest) && ending != ""
    requires below[0] == '\r' || below[0] == '\n'
    ensures ending in [LF, CR, CRLF]
  {
    if ending != CRLF {
      assert ending == [ending[0]] && ending[0] == below[0];
    }
  }

  lemma CutAboveQa(head: string, s: string) returns (above: string, value: string, below: string)
    requires StatusAbove(head) && QA !in Taken(head)
    ensures StatusCut(head, above, value, below) && ReplaceStatus(head, s) == above + (NewStatus(s) + below)
    ensures SplitLines(value) != [] && QA !in SplitLines(value)
  {
    above, value, below := CutStatus(head);
    QaNotInValue(value);
  }

  /** A head, cut at its Status, with the QA heading line below. */
  lemma CutHead(head: string, s: string) returns (above: string, value: string, ending: string, rest: string)
    requires StatusAbove(head) && QA !in Taken(head)
    requires SplitLines(head) != [] && SplitLines(head)[|SplitLines(head)| - 1] == QA
    ensures head == above + (value + (ending + rest)) && ReplaceStatus(head, s) == above + (NewStatus(s) + (ending + rest))
    ensures value != "" && ending in [LF, CR, CRLF] && Follows(ending, rest) && rest != ""
    ensures above == "" || above[|above| - 1] == '\n'
  {
    var below;
    above, value, below := CutAboveQa(head, s);
    ending, rest := BelowCut(below);
    HeadingIsBelow(head, above, value, below, ending, rest);
    EndingOf(below, ending, rest);
  }

  lemma HeadChunksWithStatus(above: string, value: string, l: string, ending: string, rest: string)
    requires above == "" || above[|above| - 1] == '\n'
    requires NoBreaks(l) && l != "" && l != QA && value != "" && ending in [LF, CR, CRLF] && Follows(ending, rest) && rest != ""
    requires var chunks := SplitKeepEnds(above + (value + (ending + rest)));
             chunks != [] && OnlyAt(TrimAll(chunks), QA, |chunks| - 1)
    ensures var chunks, chunks' := SplitKeepEnds(above + (value + (ending + rest))), SplitKeepEnds(above + (l + (ending + rest)));
            && chunks' != [] && chunks'[|chunks'| - 1] == chunks[|chunks| - 1]
            && OnlyAt(TrimAll(chunks'), QA, |chunks'| - 1)
  {
    ChunksAround(above, value, ending, rest);
    ChunksAround(above, l, ending, rest);
    OneChunk(l, ending);
    TrimsToItself(l, ending);
    ChunkLists(SplitKeepEnds(above), SplitKeepEnds(value + ending), SplitKeepEnds(rest), l + ending);
  }

  lemma LastKept(above: string, value: string, ending: string, rest: string)
    requires rest != ""
    ensures var t := above + (value + (ending + rest)); t != "" && t[|t| - 1] == rest[|rest| - 1]
  {
  }

  /** The head ends with its only QA heading line. */
  ghost predicate EndsWithQa(head: string) {
    && SplitKeepEnds(head) != [] && OnlyAt(TrimAll(SplitKeepEnds(head)), QA, |SplitKeepEnds(head)| - 1)
    && SplitLines(head) != [] && SplitLines(head)[|SplitLines(head)| - 1] == QA
  }

  lemma ChunksWithStatus(head: string, s: string)
    requires ValidStatus(s) && StatusAbove(head) && QA !in Taken(head) && EndsWithQa(head)
    ensures var chunks, chunks' := SplitKeepEnds(head), SplitKeepEnds(ReplaceStatus(head, s));
            && chunks' != [] && chunks'[|chunks'| - 1] == chunks[|chunks| - 1]
            && OnlyAt(TrimAll(chunks'), QA, |chunks'| - 1)
  {
    var above, value, ending, rest := CutHead(head, s);
    NewStatusHasNoBreaks(s);
    StarIsNoHeading(NewStatus(s));
    HeadChunksWithStatus(above, value, NewStatus(s), ending, rest);
  }

  lemma LastWithStatus(head: string, s: string)
    requires StatusAbove(head) && QA !in Taken(head) && EndsWithQa(head)
    ensures var h := ReplaceStatus(head, s); h != "" && head != "" && h[|h| - 1] == head[|head| - 1]
  {
    var above, value, ending, rest := CutHead(head, s);
    LastKept(above, value, ending, rest);
    LastKept(above, NewStatus(s), ending, rest);
  }

  lemma PayloadFits(text: string, parts: Parts, first: string)
    requires PartsOk(text, parts) && Terminated(parts) && NoQaLine(first)
    ensures Breaks(parts.head, Payload(parts, first)) && NoQaLine(Payload(parts, first))
  {
    HeadingEnding(parts);
    PayloadUsesOnly(first, LineEnding(parts.heading));
    PayloadAddsNothing(first, LineEnding(parts.heading));
    HeadBreaks(text, parts, Payload(parts, first));
  }

  /** A text of a head that ends with the QA heading line, and a body. */
  lemma PartsOfHead(head: string, body: string)
    requires SplitKeepEnds(head) != [] && OnlyAt(TrimAll(SplitKeepEnds(head)), QA, |SplitKeepEnds(head)| - 1)
    requires Breaks(head, body) && NoQaLine(body)
    ensures QaParts(head + body) == Some(Parts(head, SplitKeepEnds(head)[|SplitKeepEnds(head)| - 1], body))
  {
    KeepEndsAppend(head, body);
    NoQaChunk(body);
    PartsFrom(SplitKeepEnds(head), SplitKeepEnds(body), QA);
    ConcatOfSplit(head);
    ConcatOfSplit(body);
  }

  lemma HeadEnds(text: string, parts: Parts)
    requires PartsOk(text, parts) && StatusAbove(parts.head)
    ensures EndsWithQa(parts.head) && SplitKeepEnds(parts.head)[|SplitKeepEnds(parts.head)| - 1] == parts.heading
    ensures Taken(parts.head) == Taken(text)
  {
    TakenOfHead(parts.head, parts.body, "");
    assert parts.head + "" == parts.head;
  }

  lemma PartsOfNewHead(head: string, s: string, payload: string)
    requires ValidStatus(s) && StatusAbove(head) && QA !in Taken(head) && EndsWithQa(head)
    requires Breaks(head, payload) && NoQaLine(payload)
    ensures QaParts(ReplaceStatus(head, s) + payload)
            == Some(Parts(ReplaceStatus(head, s), SplitKeepEnds(head)[|SplitKeepEnds(head)| - 1], payload))
  {
    ChunksWithStatus(head, s);
    LastWithStatus(head, s);
    PartsOfHead(ReplaceStatus(head, s), payload);
  }

  /** What `QaParts` finds after a replace that set a Status. */
  lemma PartsOfWrite(text: string, parts: Parts, first: string, s: string)
    requires QaParts(text) == Some(parts) && Terminated(parts) && NoQaLine(first)
    requires StatusAbove(parts.head) && ValidStatus(s) && QA !in Taken(text)
    ensures var head := ReplaceStatus(parts.head, s);
            QaParts(head + Payload(parts, first)) == Some(Parts(head, parts.heading, Payload(parts, first)))
  {
    PartsSpec(text);
    PayloadFits(text, parts, first);
    HeadEnds(text, parts);
    PartsOfNewHead(parts.head, s, Payload(parts, first));
  }

  /** What `QaParts` finds after a replace that set a Status in the QA text. */
  lemma PartsOfWriteBelow(text: string, parts: Parts, first: string, s: string)
    requires QaParts(text) == Some(parts) && Terminated(parts) && NoQaLine(first)
    requires NoStatusIn(parts.head) && ValidStatus(s)
    ensures var body := ReplaceStatus(Payload(parts, first), s);
            QaParts(parts.head + body) == Some(Parts(parts.head, parts.heading, body))
  {
    var body := ReplaceStatus(Payload(parts, first), s);
    PartsSpec(text);
    PayloadFits(text, parts, first);
    NoQaAfterStatus(Payload(parts, first), s);
    LastOfHead(parts.head);
    assert IsBreak('\n') && Breaks(parts.head, body);
    PartsOfHead(parts.head, body);
  }

  /** Replace is last-writer-wins, and so idempotent: neither the text nor the Status
    * that an earlier replace wrote leaves a trace in the result of a later one. */
  lemma LastWriterWins(text: string, first: string, s: string, second: string, t: string)
    requires QaParts(text).Some? && Terminated(QaParts(text).value) && NoQaLine(first) && StatusFits(text, Some(s))
    requires StatusAbove(QaParts(text).value.head) ==> QA !in Taken(text)
    ensures RenderQa(text, first, Some(s), false).Ok?
    ensures RenderQa(RenderQa(text, first, Some(s), false).value, second, Some(t), false) == RenderQa(text, second, Some(t), false)
  {
    if StatusAbove(QaParts(text).value.head) {
      LastWriterAbove(text, first, s, second, t);
    } else {
      LastWriterBelow(text, first, s, second, t);
    }
  }

  lemma LastWriterAbove(text: string, first: string, s: string, second: string, t: string)
    requires QaParts(text).Some? && Terminated(QaParts(text).value) && NoQaLine(first)
    requires StatusAbove(QaParts(text).value.head) && ValidStatus(s) && QA !in Taken(text)
    ensures RenderQa(text, first, Some(s), false).Ok?
    ensures RenderQa(RenderQa(text, first, Some(s), false).value, second, Some(t), false) == RenderQa(text, second, Some(t), false)
  {
    var parts := QaParts(text).value;
    PartsOfWrite(text, parts, first, s);
    StatusSetInHead(parts.head, Payload(parts, first), s);
    StatusStaysAbove(parts.head, s);
    StatusSetInHead(ReplaceStatus(parts.head, s), Payload(parts, second), t);
    StatusSetInHead(parts.head, Payload(parts, second), t);
    StatusTwice(parts.head, s, t);
  }

  lemma LastWriterBelow(text: string, first: string, s: string, second: string, t: string)
    requires QaParts(text).Some? && Terminated(QaParts(text).value) && NoQaLine(first)
    requires NoStatusIn(QaParts(text).value.head) && ValidStatus(s)
    ensures RenderQa(text, first, Some(s), false).Ok?
    ensures RenderQa(RenderQa(text, first, Some(s), false).value, second, Some(t), false) == RenderQa(text, second, Some(t), false)
  {
    var parts := QaParts(text).value;
    PartsOfWriteBelow(text, parts, first, s);
    StatusSetInBody(parts.head, Payload(parts, first), s);
  }

  // ---- the plan text ------------------------------------------------------------------------------

  /** Lines that hold the Current Task heading and end with the heading after it. */
  ghost predicate PlanFront(front: seq<string>) {
    FirstNamed(front, TASK) + 1 < |front| && IsHeading(front[|front| - 1])
  }

  lemma ChoppedHeading(l: string)
    ensures ChopCR(l) == TASK ==> Named(l, TASK)
    ensures ChopCR(l) == NOTES ==> IsHeading(l)
  {
    if ChopCR(l) == TASK || ChopCR(l) == NOTES {
      assert l == ChopCR(l) || l == ChopCR(l) + CR;
      assert l[..3] == ChopCR(l)[..3] == "## ";
      assert l[0] == '#' && LStrip(l) == l;
    }
    if ChopCR(l) == TASK {
      RStripBlankTail(TASK, l[|TASK|..]);
      assert l == TASK + l[|TASK|..];
    }
  }

  lemma FrontOf(h: seq<string>, task: nat, notes: nat, n: nat) returns (front: seq<string>)
    requires task < notes < n && n + 1 == |h| && notes < |Physical(h)|
    requires Physical(h)[task] == TASK && Physical(h)[notes] == NOTES
    ensures PlanFront(front) && front <= h[..n]
  {
    PhysicalIndex(h);
    front := h[..notes + 1];
    ChoppedHeading(h[task]);
    ChoppedHeading(h[notes]);
    assert front[task] == h[task] && front[notes] == h[notes];
    assert FirstNamed(front, TASK) <= task;
  }

  lemma HeadIsPlain(text: string, parts: Parts)
    requires Plain(text) && text == parts.head + parts.body && (parts.body != "" ==> Breaks(parts.head, parts.body))
    ensures Plain(parts.head)
  {
    forall i | 0 <= i < |parts.head| && IsBreak(parts.head[i])
      ensures parts.head[i] == '\n' || (parts.head[i] == '\r' && i + 1 < |parts.head| && parts.head[i + 1] == '\n')
    {
      assert text[i] == parts.head[i];
      if i + 1 < |text| {
        assert text[i + 1] == if i + 1 < |parts.head| then parts.head[i + 1] else parts.body[0];
      }
    }
  }

  /** Where the headings stand in the head. */
  lemma HeadPlaces(text: string, parts: Parts) returns (task: nat, notes: nat)
    requires PartsOk(text, parts) && WellFormed(text)
    ensures var lines := SplitLines(parts.head);
            task < notes < |lines| - 1 && lines[task] == TASK && lines[notes] == NOTES
  {
    var qa;
    task, notes, qa := HeadShape(text, parts);
    var lines := SplitLines(parts.head);
    assert (lines + SplitLines(parts.body))[|lines| - 1] == QA;
    assert lines[task] == (lines + SplitLines(parts.body))[task];
    assert lines[notes] == (lines + SplitLines(parts.body))[notes];
  }

  lemma PlanFrontOf(text: string, parts: Parts) returns (front: seq<string>)
    requires PartsOk(text, parts) && WellFormed(text) && Plain(text)
    ensures PlanFront(front) && front <= Split(parts.head)[..|Split(parts.head)| - 1]
  {
    var task, notes := HeadPlaces(text, parts);
    HeadIsPlain(text, parts);
    SplitLinesOfPlain(parts.head);
    PhysicalIndex(Split(parts.head));
    front := FrontOf(Split(parts.head), task, notes, |Split(parts.head)| - 1);
  }

  lemma SwallowsAt(x: seq<string>, c: nat, i: nat, tail: seq<string>)
    requires c == FirstNamed(x, TASK) && i == FindStatus(x) && c < i < |x| && i < NextHeading(x, c)
    requires tail == SectionLines(x, c)[i - c..] && tail != [] && StatusLine(tail[0])
    ensures StatusSwallowsPlan(x) == Swallows(tail)
  {
  }

  lemma SwallowsNothing(x: seq<string>, c: nat)
    requires c == FirstNamed(x, TASK) < |x| && !(c < FindStatus(x) < NextHeading(x, c))
    ensures !StatusSwallowsPlan(x)
  {
  }

  lemma StatusInSection(x: seq<string>, c: nat, i: nat)
    requires c < i < |x| && i < NextHeading(x, c) && StatusLine(x[i])
    ensures var tail := SectionLines(x, c)[i - c..]; tail != [] && StatusLine(tail[0])
  {
  }

  lemma SameSwallow(x: seq<string>, y: seq<string>, c: nat)
    requires c == FirstNamed(x, TASK) == FirstNamed(y, TASK) && c < |x| && c < |y|
    requires NextHeading(x, c) == NextHeading(y, c) && SectionLines(x, c) == SectionLines(y, c)
    requires FindStatus(x) == FindStatus(y) || (FindStatus(x) >= NextHeading(x, c) && FindStatus(y) >= NextHeading(x, c))
    ensures StatusSwallowsPlan(x) == StatusSwallowsPlan(y)
  {
    var i, j := FindStatus(x), NextHeading(x, c);
    if c < i < j {
      var tail := SectionLines(x, c)[i - c..];
      StatusInSection(x, c, i);
      SwallowsAt(x, c, i, tail);
      SwallowsAt(y, c, i, tail);
    } else {
      SwallowsNothing(x, c);
      SwallowsNothing(y, c);
    }
  }

  lemma SwallowsInPrefix(front: seq<string>, a: seq<string>, b: seq<string>)
    requires PlanFront(front)
    ensures StatusSwallowsPlan(front + a) == StatusSwallowsPlan(front + b)
  {
    SectionInPrefix(front, a);
    SectionInPrefix(front, b);
    NextHeadingInPrefix(front, a, FirstNamed(front, TASK));
    NextHeadingInPrefix(front, b, FirstNamed(front, TASK));
    StatusOfPrefix(front, a);
    StatusOfPrefix(front, b);
    SameSwallow(front + a, front + b, FirstNamed(front, TASK));
  }

  lemma StatusOfPrefix(front: seq<string>, a: seq<string>)
    ensures FindStatus(front) < |front| ==> FindStatus(front + a) == FindStatus(front)
    ensures FindStatus(front) == |front| ==> FindStatus(front + a) >= |front|
  {
    if FindStatus(front) < |front| {
      FindStatusInPrefix(front, a);
    } else {
      var i := FindStatus(front + a);
      assert forall k | 0 <= k < |front| :: (front + a)[k] == front[k];
    }
  }

  lemma SameFront(head: string, body: string, front: seq<string>) returns (more: seq<string>)
    requires front <= Split(head)[..|Split(head)| - 1]
    ensures Split(head + body) == front + more
  {
    SplitAppend(head, body);
    more := Split(head + body)[|front|..];
  }

  /** What stands below the QA heading matters neither to the plan nor to what the
    * Status swallows of it. */
  lemma PlanOfHead(text: string, parts: Parts, body: string)
    requires PartsOk(text, parts) && WellFormed(text) && Plain(text)
    ensures PlanLines(Split(parts.head + body)) == PlanLines(Split(text))
    ensures StatusSwallowsPlan(Split(parts.head + body)) == StatusSwallowsPlan(Split(text))
  {
    var front := PlanFrontOf(text, parts);
    var a := SameFront(parts.head, body, front);
    var b := SameFront(parts.head, parts.body, front);
    SamePlanInPrefix(front, a, b);
    SwallowsInPrefix(front, a, b);
  }

  /** A QA write leaves the plan text alone exactly if it sets no Status, or the old
    * Status line had swallowed no plan line. */
  lemma WriteKeepsPlanExactly(text: string, qaBody: string, status: Option<string>, append: bool)
    requires Plain(text) && WellFormed(text) && QaParts(text).Some? && (status.Some? ==> ValidStatus(status.value))
    ensures RenderQa(text, qaBody, status, append).Ok?
    ensures PlanLines(Split(RenderQa(text, qaBody, status, append).value)) == PlanLines(Split(text))
            <==> (status.Some? ==> !StatusSwallowsPlan(Split(text)))
  {
    var parts := QaParts(text).value;
    var body := NewBody(parts, Payload(parts, qaBody), append);
    PartsSpec(text);
    PlanOfHead(text, parts, body);
    if status.Some? {
      LinesOfReplace(parts.head + body, status.value);
      StatusWriteKeepsPlan(Split(parts.head + body), status.value);
    }
  }

  // ---- an unusual line break in the Status value ----------------------------------------------------

  const LS := "\U{2028}"

  /** A document whose Status value holds the Execution Notes heading behind a line
    * break that the structure check knows and the Status write does not. */
  const HIDDEN_LINES := [TASK, STATUS_MARK + LS + NOTES, QA, ""]

  lemma PhysicalLine(x: string, rest: seq<string>, lines: seq<string>)
    requires NoBreaks(x) && rest != [] && SplitLines(Join(rest)) == lines
    ensures SplitLines(Join([x] + rest)) == [x] + lines
  {
    assert ([x] + rest)[1..] == rest;
    assert IsBreak('\n');
    LineThen(x, LF, Join(rest));
  }

  lemma OddLine(x: string, y: string, rest: seq<string>, lines: seq<string>)
    requires NoBreaks(x) && NoBreaks(y) && rest != [] && SplitLines(Join(rest)) == lines
    ensures SplitLines(Join([x + LS + y] + rest)) == [x] + ([y] + lines)
  {
    assert ([x + LS + y] + rest)[1..] == rest;
    assert IsBreak('\n') && IsBreak('\U{2028}');
    LineThen(y, LF, Join(rest));
    LineThen(x, LS, y + LF + Join(rest));
    Assoc(x + LS, y, LF);
    Assoc(x + LS, y + LF, Join(rest));
  }

  lemma OnePhysical(d: string)
    requires NoBreaks(d)
    ensures SplitLines(Join([d, ""])) == [d]
  {
    assert Join([""]) == "" && SplitLines("") == [];
    PhysicalLine(d, [""], []);
    assert [d] + [""] == [d, ""];
  }

  lemma ThreePhysical(b: string, c: string, d: string)
    requires NoBreaks(b) && NoBreaks(c) && NoBreaks(d)
    ensures SplitLines(Join([b + LS + c, d, ""])) == [b, c, d]
  {
    OnePhysical(d);
    OddLine(b, c, [d, ""], [d]);
    assert [b + LS + c] + [d, ""] == [b + LS + c, d, ""];
  }

  lemma FourPhysical(a: string, b: string, c: string, d: string)
    requires NoBreaks(a) && NoBreaks(b) && NoBreaks(c) && NoBreaks(d)
    ensures SplitLines(Join([a, b + LS + c, d, ""])) == [a, b, c, d]
  {
    ThreePhysical(b, c, d);
    PhysicalLine(a, [b + LS + c, d, ""], [b, c, d]);
    assert [a] + [b + LS + c, d, ""] == [a, b + LS + c, d, ""];
  }

  lemma NoReturn(t: string)
    requires NoBreaks(t)
    ensures '\r' !in t && '\n' !in t && '\r' !in LS + t
  {
    assert IsBreak('\r') && IsBreak('\n');
    assert '\r' !in LS && forall x | x in LS + t :: x in LS || x in t;
  }

  lemma HiddenHeading(lines: seq<string>, notes: string)
    requires |lines| == 4 && lines[1] == STATUS_MARK + LS + notes && !StatusLine(lines[0])
    requires NoBreaks(notes) && notes != "" && NoBreaks(STATUS_MARK)
    ensures FindStatus(lines) == 1 && SplitLines(Replaced(lines[1])) == [STATUS_MARK, notes]
  {
    var value := lines[1];
    NoReturn(notes);
    Assoc(STATUS_MARK, LS, notes);
    assert value[..|STATUS_MARK|] == STATUS_MARK && value[|STATUS_MARK|..] == LS + notes;
    assert StatusLine(value) && KeptTail(value) == "" && Replaced(value) == value;
    assert IsBreak('\U{2028}');
    LineThen(STATUS_MARK, LS, notes);
    SplitLinesEnd(notes);
  }

  lemma NoBreaksInHeadings()
    ensures NoBreaks(TASK) && NoBreaks(STATUS_MARK) && NoBreaks(NOTES) && NoBreaks(QA) && NOTES != "" && !StatusLine(TASK)
  {
    assert TASK[0] == '#' && STATUS_MARK[0] == '*';
  }

  lemma HiddenShape(lines: seq<string>)
    requires |lines| == 4 && lines[0] == TASK && lines[1] == STATUS_MARK && lines[2] == NOTES && lines[3] == QA
    ensures StructureOf(lines) == []
  {
    HeadingsDiffer();
    StarIsNoHeading(STATUS_MARK);
    assert Shape(lines, 0, 2, 3);
    StructureMeansShape(lines);
  }

  lemma HiddenIsSplit(a: string, b: string, c: string, d: string)
    requires NoBreaks(a) && NoBreaks(b) && NoBreaks(c) && NoBreaks(d)
    ensures Split(Join([a, b + LS + c, d, ""])) == [a, b + LS + c, d, ""]
  {
    NoReturn(a);
    NoReturn(b);
    NoReturn(c);
    NoReturn(d);
    assert '\n' !in b + LS + c;
    SplitOfJoin([a, b + LS + c, d, ""]);
  }

  /** The first Status write loses that heading. */
  lemma StatusWriteLosesHeading(s: string)
    requires ValidStatus(s)
    ensures var text := Join(HIDDEN_LINES);
            WellFormed(text) && NOTES in Taken(text) && !WellFormed(ReplaceStatus(text, s))
  {
    var text := Join(HIDDEN_LINES);
    NoBreaksInHeadings();
    FourPhysical(TASK, STATUS_MARK, NOTES, QA);
    HiddenIsSplit(TASK, STATUS_MARK, NOTES, QA);
    HiddenHeading(Split(text), NOTES);
    HiddenShape(SplitLines(text));
    StatusKeepsStructure(text, s);
  }
}
