/** What the executor is allowed to do is always accepted: setting Status to
  * READY FOR QA and rewriting the Execution Notes body. */
module Delivery {
  import opened Text
  import opened Handoff
  import opened StatusWrites
  import opened Acceptance

  function LineOf(lines: seq<string>, heading: string): nat { First(lines, line => line == heading) }

  /** The permitted edit: Status set, and `body` between the Execution Notes and QA headings. */
  function Deliver(lines: seq<string>, body: seq<string>): (r: seq<string>)
    ensures lines != [] ==> r != []
  {
    var notes, qa := LineOf(lines, NOTES), LineOf(lines, QA);
    if notes < qa then
      ReplaceStatusLines(lines, READY_FOR_QA)[..notes + 1] + body + ReplaceStatusLines(lines, READY_FOR_QA)[qa..]
    else lines
  }

  /** Lines free of any break character. */
  ghost predicate BareLines(lines: seq<string>) { forall l | l in lines :: PlainEnd(l) }

  /** Notes text: no line is one of the required headings. */
  ghost predicate NotesBody(body: seq<string>) {
    BareLines(body) && TASK !in body && NOTES !in body && QA !in body
  }

  /** A well-formed document, as lines, whose Status field stands above the notes. */
  ghost predicate Document(lines: seq<string>, task: nat, notes: nat, qa: nat) {
    && BareLines(lines) && OnlyAt(lines, TASK, task) && OnlyAt(lines, NOTES, notes) && OnlyAt(lines, QA, qa)
    && task < notes < qa
    && (forall i | task < i < notes :: !StartsWith(lines[i], "## "))
    && FindStatus(lines) < notes
  }

  // ---- sections seen from either side of the notes ---------------------------

  lemma {:induction false} NextHeadingInPrefix(a: seq<string>, b: seq<string>, c: nat)
    requires c + 1 < |a| && IsHeading(a[|a| - 1])
    ensures NextHeading(a + b, c) == NextHeading(a, c) < |a|
    decreases |a| - c
  {
    if !IsHeading(a[c + 1]) {
      NextHeadingInPrefix(a, b, c + 1);
    }
  }

  lemma FirstNamedInPrefix(a: seq<string>, b: seq<string>, heading: string)
    requires FirstNamed(a, heading) < |a|
    ensures FirstNamed(a + b, heading) == FirstNamed(a, heading)
  {
    var i, j := FirstNamed(a, heading), FirstNamed(a + b, heading);
    assert Named((a + b)[i], heading);
    assert j <= i;
    assert Named((a + b)[j], heading) && (a + b)[j] == a[j];
  }

  lemma SectionEnding(a: seq<string>, b: seq<string>, c: nat, j: nat)
    requires c < j < |a| && NextHeading(a + b, c) == j
    ensures SectionLines(a + b, c) == a[c..j] + [""]
  {
    assert (a + b)[c..j] == a[c..j];
  }

  /** The plan is settled by the text up to the heading that ends Current Task. */
  lemma SectionInPrefix(a: seq<string>, b: seq<string>)
    requires FirstNamed(a, TASK) + 1 < |a| && IsHeading(a[|a| - 1])
    ensures var c := FirstNamed(a, TASK);
            FirstNamed(a + b, TASK) == c && SectionLines(a + b, c) == a[c..NextHeading(a, c)] + [""]
  {
    var c := FirstNamed(a, TASK);
    FirstNamedInPrefix(a, b, TASK);
    NextHeadingInPrefix(a, b, c);
    SectionEnding(a, b, c, NextHeading(a, c));
  }

  lemma {:induction false} NextHeadingInSuffix(a: seq<string>, b: seq<string>, c: nat)
    requires c < |b|
    ensures NextHeading(a + b, |a| + c) == |a| + NextHeading(b, c)
    decreases |b| - c
  {
    if c + 1 < |b| {
      assert (a + b)[|a| + c + 1] == b[c + 1];
      if !IsHeading(b[c + 1]) {
        NextHeadingInSuffix(a, b, c + 1);
      }
    }
  }

  lemma LastNamedInSuffix(a: seq<string>, b: seq<string>, heading: string)
    requires LastNamed(b, heading) < |b|
    ensures LastNamed(a + b, heading) == |a| + LastNamed(b, heading)
  {
    var i, j := LastNamed(b, heading), LastNamed(a + b, heading);
    assert Named((a + b)[|a| + i], heading);
    assert |a| + i <= j < |a| + |b|;
    assert (a + b)[j] == b[j - |a|];
  }

  lemma SectionInSuffix(a: seq<string>, b: seq<string>, q: nat)
    requires q < |b|
    ensures SectionLines(a + b, |a| + q) == SectionLines(b, q)
  {
    NextHeadingInSuffix(a, b, q);
  }

  lemma QaLinesAt(lines: seq<string>, q: nat)
    requires q == LastNamed(lines, QA) < |lines|
    ensures QaLines(lines) == SectionLines(lines, q)
  {
  }

  /** QA Feedback is settled by the text from its heading on. */
  lemma QaInSuffix(a: seq<string>, b: seq<string>)
    requires LastNamed(b, QA) < |b|
    ensures QaLines(a + b) == QaLines(b)
  {
    var q := LastNamed(b, QA);
    LastNamedInSuffix(a, b, QA);
    QaLinesAt(b, q);
    QaLinesAt(a + b, |a| + q);
    SectionInSuffix(a, b, q);
  }

  lemma FirstNamedInSuffix(a: seq<string>, b: seq<string>)
    requires forall l | l in a :: !Named(l, TASK)
    ensures FirstNamed(a + b, TASK) == |a| + FirstNamed(b, TASK)
  {
    var i, j := FirstNamed(b, TASK), FirstNamed(a + b, TASK);
    forall k | 0 <= k < |a| ensures !Named((a + b)[k], TASK) {
      assert a[k] in a;
    }
    if j < |a + b| {
      assert (a + b)[j] == b[j - |a|];
    }
    if i < |b| {
      assert (a + b)[|a| + i] == b[i];
    }
  }

  /** The plan is settled by the text from the task heading on. */
  lemma PlanInSuffix(a: seq<string>, b: seq<string>)
    requires forall l | l in a :: !Named(l, TASK)
    ensures PlanLines(a + b) == PlanLines(b)
  {
    FirstNamedInSuffix(a, b);
    var i := FirstNamed(b, TASK);
    if i < |b| {
      SectionInSuffix(a, b, i);
    }
  }

  // ---- the delivered document -------------------------------------------------

  /** The Status line the worker writes. */
  function ReadyLine(): string { STATUS_MARK + " " + READY_FOR_QA }

  lemma ReadyLineFacts()
    ensures StatusLine(ReadyLine()) && Valued(ReadyLine()) && Strip(StatusRest(ReadyLine())) == READY_FOR_QA
    ensures PlainEnd(ReadyLine()) && ReadyLine()[0] == '*'
  {
    StripValue(READY_FOR_QA, "");
    var rest := " " + READY_FOR_QA;
    assert rest + "" == rest;
    assert StatusRest(ReadyLine()) == rest;
    assert rest[1] == READY_FOR_QA[0] == 'R';
  }

  lemma BareStatus(line: string)
    requires StatusLine(line) && PlainEnd(line)
    ensures StatusWith(READY_FOR_QA, line) == ReadyLine()
  {
    var rest := StatusRest(line);
    assert forall k | 0 <= k < |rest| :: rest[k] == line[|STATUS_MARK| + k];
    assert IsBreak('\r') && '\r' !in rest;
    assert KeptTail(line) == "";
  }

  lemma StatusIsNotTask(lines: seq<string>, task: nat)
    requires task < |lines| && lines[task] == TASK
    ensures FindStatus(lines) != task
  {
    assert TASK[0] == '#' && STATUS_MARK[0] == '*';
  }

  lemma WrittenStatus(lines: seq<string>)
    requires BareLines(lines) && FindStatus(lines) < |lines|
    ensures ReplaceStatusLines(lines, READY_FOR_QA) == lines[FindStatus(lines) := ReadyLine()]
  {
    assert lines[FindStatus(lines)] in lines;
    BareStatus(lines[FindStatus(lines)]);
  }

  lemma CutUpdate<T>(lines: seq<T>, i: nat, x: T, n: nat, q: nat)
    requires i < n <= q <= |lines|
    ensures lines[i := x] == lines[..n][i := x] + lines[n..]
    ensures lines[i := x][..n] == lines[..n][i := x] && lines[i := x][q..] == lines[q..]
  {
  }

  /** The written text and the delivered text share `head`, up to the notes heading. */
  lemma DeliverForm(lines: seq<string>, body: seq<string>, task: nat, notes: nat, qa: nat)
    returns (head: seq<string>, i: nat)
    requires Document(lines, task, notes, qa)
    ensures i == FindStatus(lines) < notes && i != task
    ensures head == lines[..notes + 1][i := ReadyLine()]
    ensures ReplaceStatusLines(lines, READY_FOR_QA) == head + lines[notes + 1..]
    ensures Deliver(lines, body) == head + body + lines[qa..]
  {
    i := FindStatus(lines);
    head := lines[..notes + 1][i := ReadyLine()];
    StatusIsNotTask(lines, task);
    WrittenStatus(lines);
    CutUpdate(lines, i, ReadyLine(), notes + 1, qa);
  }

  lemma SamePlanInPrefix(head: seq<string>, a: seq<string>, b: seq<string>)
    requires FirstNamed(head, TASK) + 1 < |head| && IsHeading(head[|head| - 1])
    ensures PlanLines(head + a) == PlanLines(head + b)
  {
    SectionInPrefix(head, a);
    SectionInPrefix(head, b);
  }

  lemma HeadOfDelivery(lines: seq<string>, head: seq<string>, i: nat, task: nat, notes: nat, qa: nat)
    requires OnlyAt(lines, TASK, task) && OnlyAt(lines, NOTES, notes) && task < notes < qa < |lines|
    requires i < notes && i != task && head == lines[..notes + 1][i := ReadyLine()]
    ensures FirstNamed(head, TASK) + 1 < |head| && IsHeading(head[|head| - 1])
  {
    assert head[task] == TASK && head[notes] == NOTES;
    assert FirstNamed(head, TASK) <= task;
  }

  lemma Assoc<T>(a: seq<T>, b: seq<T>, c: seq<T>)
    ensures a + b + c == a + (b + c)
  {
  }

  lemma DeliveredPlan(lines: seq<string>, body: seq<string>, task: nat, notes: nat, qa: nat)
    requires Document(lines, task, notes, qa)
    ensures PlanLines(Deliver(lines, body)) == PlanLines(ReplaceStatusLines(lines, READY_FOR_QA))
  {
    var head, i := DeliverForm(lines, body, task, notes, qa);
    HeadOfDelivery(lines, head, i, task, notes, qa);
    Assoc(head, body, lines[qa..]);
    SamePlanInPrefix(head, lines[notes + 1..], body + lines[qa..]);
  }

  lemma QaOfSuffix(lines: seq<string>, qa: nat, front: seq<string>)
    requires qa < |lines| && lines[qa] == QA
    ensures QaLines(front + lines[qa..]) == QaLines(lines)
  {
    var tail := lines[qa..];
    assert Named(tail[0], QA);
    assert LastNamed(tail, QA) < |tail|;
    assert lines == lines[..qa] + tail;
    QaInSuffix(lines[..qa], tail);
    QaInSuffix(front, tail);
  }

  lemma DeliveredQa(lines: seq<string>, body: seq<string>, task: nat, notes: nat, qa: nat)
    requires Document(lines, task, notes, qa)
    ensures QaLines(Deliver(lines, body)) == QaLines(lines)
  {
    var head, i := DeliverForm(lines, body, task, notes, qa);
    QaOfSuffix(lines, qa, head + body);
  }

  lemma StatusAt(lines: seq<string>, i: nat)
    requires i < |lines| && lines[i] == ReadyLine()
    requires forall k | 0 <= k < i :: !StatusLine(lines[k])
    ensures ReadStatusLines(lines) == READY_FOR_QA
  {
    ReadyLineFacts();
    assert FindStatus(lines) == i;
  }

  lemma DeliveredStatus(lines: seq<string>, body: seq<string>, task: nat, notes: nat, qa: nat)
    requires Document(lines, task, notes, qa)
    ensures ReadStatusLines(Deliver(lines, body)) == READY_FOR_QA
  {
    var head, i := DeliverForm(lines, body, task, notes, qa);
    var d := Deliver(lines, body);
    forall k | 0 <= k < i ensures !StatusLine(d[k]) {
      assert d[k] == lines[k];
    }
    StatusAt(d, i);
  }

  // ---- the delivered document is well formed -----------------------------------

  lemma ShapeIgnoresFinalBlank(lines: seq<string>, task: nat, notes: nat, qa: nat)
    requires lines != [] && lines[|lines| - 1] == ""
    ensures Shape(lines[..|lines| - 1], task, notes, qa) <==> Shape(lines, task, notes, qa)
  {
    var n := |lines| - 1;
    var s := lines[..n];
    forall x: string, p: nat | x != "" ensures OnlyAt(s, x, p) <==> OnlyAt(lines, x, p) {
      if OnlyAt(s, x, p) {
        assert forall i | 0 <= i < |lines| && i != p :: lines[i] != x by {
          assert forall i | 0 <= i < n && i != p :: s[i] == lines[i];
        }
      }
      if OnlyAt(lines, x, p) {
        assert p < n && s[p] == x;
      }
    }
    assert TASK != "" && NOTES != "" && QA != "";
  }

  ghost predicate HasShape(lines: seq<string>) {
    exists task: nat, notes: nat, qa: nat :: Shape(lines, task, notes, qa)
  }

  lemma HasShapeIgnoresFinalBlank(lines: seq<string>)
    requires lines != [] && lines[|lines| - 1] == ""
    ensures HasShape(lines[..|lines| - 1]) <==> HasShape(lines)
  {
    if HasShape(lines) {
      var task: nat, notes: nat, qa: nat :| Shape(lines, task, notes, qa);
      ShapeIgnoresFinalBlank(lines, task, notes, qa);
    }
    if HasShape(lines[..|lines| - 1]) {
      var task: nat, notes: nat, qa: nat :| Shape(lines[..|lines| - 1], task, notes, qa);
      ShapeIgnoresFinalBlank(lines, task, notes, qa);
    }
  }

  lemma WellFormedShape(text: string)
    ensures WellFormed(text) <==> HasShape(SplitLines(text))
  {
    StructureMeansShape(SplitLines(text));
  }

  lemma ShapeOfPhysical(text: string)
    requires Plain(text) && '\r' !in text
    ensures HasShape(SplitLines(text)) <==> HasShape(Split(text))
  {
    var lines := Split(text);
    PhysicalOfText(text);
    if lines[|lines| - 1] == "" {
      HasShapeIgnoresFinalBlank(lines);
      assert SplitLines(text) == lines[..|lines| - 1];
    } else {
      assert SplitLines(text) == lines;
    }
  }

  /** For a text without `\r` the structure check can be read on its lines. */
  lemma WellFormedLines(text: string)
    requires Plain(text) && '\r' !in text
    ensures WellFormed(text) <==> HasShape(Split(text))
  {
    WellFormedShape(text);
    ShapeOfPhysical(text);
  }

  ghost predicate NewlinesOnly(text: string) {
    forall i | 0 <= i < |text| && IsBreak(text[i]) :: text[i] == '\n'
  }

  lemma {:induction false} BareJoin(lines: seq<string>)
    requires BareLines(lines) && |lines| > 0
    ensures IsLines(lines) && NewlinesOnly(Join(lines)) && Plain(Join(lines)) && '\r' !in Join(lines)
    decreases |lines|
  {
    assert lines[0] in lines;
    assert IsBreak('\n') && IsBreak('\r');
    forall l | l in lines ensures '\n' !in l && '\r' !in l {
      assert PlainEnd(l);
    }
    if |lines| > 1 {
      BareJoin(lines[1..]);
    }
  }

  lemma BareText(text: string)
    requires Plain(text) && '\r' !in text
    ensures BareLines(Split(text))
  {
    var lines := Split(text);
    PlainIsPlainLines(text);
    forall i | 0 <= i < |lines| ensures PlainEnd(lines[i]) {
      LinesOfText(text, '\r', i);
      if i < |lines| - 1 {
        assert PlainLine(lines[i]);
        forall k | 0 <= k < |lines[i]| ensures !IsBreak(lines[i][k]) {
          assert lines[i][k] in lines[i];
        }
      }
    }
  }

  lemma BarePieces(lines: seq<string>, body: seq<string>, i: nat, l: string, n: nat, q: nat)
    requires BareLines(lines) && BareLines(body) && PlainEnd(l) && i < n <= q < |lines|
    ensures BareLines(lines[..n][i := l] + body + lines[q..])
  {
    var head, tail := lines[..n][i := l], lines[q..];
    forall x | x in head + body + tail ensures PlainEnd(x) {
      assert x in head || x in body || x in tail;
      assert x in head ==> x == l || x in lines;
    }
  }

  lemma DeliveredBare(lines: seq<string>, body: seq<string>, task: nat, notes: nat, qa: nat)
    requires Document(lines, task, notes, qa) && NotesBody(body)
    ensures BareLines(Deliver(lines, body)) && |Deliver(lines, body)| > 0
  {
    var head, i := DeliverForm(lines, body, task, notes, qa);
    ReadyLineFacts();
    BarePieces(lines, body, i, ReadyLine(), notes + 1, qa);
  }

  lemma DeliveredHeadings(lines: seq<string>, body: seq<string>, i: nat, l: string, task: nat, notes: nat, qa: nat)
    requires OnlyAt(lines, TASK, task) && OnlyAt(lines, NOTES, notes) && OnlyAt(lines, QA, qa)
    requires task < notes < qa && NotesBody(body)
    requires i < notes && i != task && l != TASK && l != NOTES && l != QA
    ensures var d := lines[..notes + 1][i := l] + body + lines[qa..];
            OnlyAt(d, TASK, task) && OnlyAt(d, NOTES, notes) && OnlyAt(d, QA, notes + 1 + |body|)
  {
    var head, tail := lines[..notes + 1][i := l], lines[qa..];
  }

  lemma DeliveredShape(lines: seq<string>, body: seq<string>, task: nat, notes: nat, qa: nat)
    requires Document(lines, task, notes, qa) && NotesBody(body)
    ensures Shape(Deliver(lines, body), task, notes, notes + 1 + |body|)
  {
    var head, i := DeliverForm(lines, body, task, notes, qa);
    var l := ReadyLine();
    ReadyLineFacts();
    assert TASK[0] == NOTES[0] == QA[0] == '#';
    DeliveredHeadings(lines, body, i, l, task, notes, qa);
    Assoc(head, body, lines[qa..]);
  }

  // ---- acceptance ---------------------------------------------------------------

  /** The planner-owned text of a permitted delivery: QA Feedback is untouched,
    * and the plan is unless the submitted Status swallowed part of it. */
  lemma DeliveredParts(lines: seq<string>, body: seq<string>, task: nat, notes: nat, qa: nat)
    requires Document(lines, task, notes, qa)
    ensures QaLines(Deliver(lines, body)) == QaLines(lines)
    ensures PlanLines(Deliver(lines, body)) == PlanLines(lines) <==> !StatusSwallowsPlan(lines)
  {
    StatusWriteKeepsPlan(lines, READY_FOR_QA);
    DeliveredPlan(lines, body, task, notes, qa);
    DeliveredQa(lines, body, task, notes, qa);
  }

  lemma DeliveredText(text: string, raw: string, body: seq<string>, task: nat, notes: nat, qa: nat)
    requires Document(Split(text), task, notes, qa) && NotesBody(body)
    requires ReadText(raw) == Join(Deliver(Split(text), body))
    ensures var after := ReadText(raw);
            && Plain(after) && WellFormed(after) && Unambiguous(after)
            && Split(after) == Deliver(Split(text), body) && ReadStatus(after) == READY_FOR_QA
  {
    var d, after := Deliver(Split(text), body), ReadText(raw);
    DeliveredBare(Split(text), body, task, notes, qa);
    BareJoin(d);
    SplitOfJoin(d);
    DeliveredShape(Split(text), body, task, notes, qa);
    WellFormedLines(after);
    WellFormedHasQa(after);
    DeliveredStatus(Split(text), body, task, notes, qa);
  }

  lemma DocumentUnambiguous(text: string, task: nat, notes: nat, qa: nat)
    requires Document(Split(text), task, notes, qa)
    ensures Plain(text) && '\r' !in text && WellFormed(text) && Unambiguous(text)
  {
    BareJoin(Split(text));
    JoinOfSplit(text);
    assert Shape(Split(text), task, notes, qa);
    WellFormedLines(text);
    WellFormedHasQa(text);
  }

  lemma SameSuffix<T>(a: seq<T>, b: seq<T>, t: seq<T>)
    ensures a + t == b + t <==> a == b
  {
    assert a == (a + t)[..|a + t| - |t|] && b == (b + t)[..|b + t| - |t|];
  }

  lemma JoinInjective(a: seq<string>, b: seq<string>)
    requires IsLines(a) && IsLines(b)
    ensures Join(a) == Join(b) <==> a == b
  {
    SplitOfJoin(a);
    SplitOfJoin(b);
  }

  lemma PlanTexts(a: string, b: string)
    requires Unambiguous(a) && Unambiguous(b)
    ensures CurrentTask(a) == CurrentTask(b) <==> PlanLines(Split(a)) == PlanLines(Split(b))
  {
    SplitIsLines(a);
    SplitIsLines(b);
    FingerprintLinesAreLines(Split(a));
    FingerprintLinesAreLines(Split(b));
    JoinInjective(PlanLines(Split(a)), PlanLines(Split(b)));
  }

  lemma FingerprintEqual(a: seq<string>, b: seq<string>)
    requires IsLines(a) && IsLines(b) && QaLines(a) == QaLines(b)
    ensures Join(FingerprintLines(a)) == Join(FingerprintLines(b)) <==> PlanLines(a) == PlanLines(b)
  {
    FingerprintLinesAreLines(a);
    FingerprintLinesAreLines(b);
    JoinInjective(FingerprintLines(a), FingerprintLines(b));
    SameSuffix(PlanLines(a) + [RULE], PlanLines(b) + [RULE], QaLines(a));
    SameSuffix(PlanLines(a), PlanLines(b), [RULE]);
  }

  /** The permitted edit of a document with `\n` endings is accepted with no note, with
    * the planner fingerprint and the plan unchanged -- exactly when the submitted
    * Status line did not swallow a plan line. */
  lemma PermittedEditIsAccepted(text: string, raw: string, body: seq<string>, task: nat, notes: nat, qa: nat)
    requires Document(Split(text), task, notes, qa) && NotesBody(body)
    requires ReadText(raw) == Join(Deliver(Split(text), body))
    ensures var verdict := Evaluate(Parse(text), raw);
            && (verdict.accepted && !verdict.note <==> !StatusSwallowsPlan(Split(text)))
            && (!StatusSwallowsPlan(Split(text)) ==>
                  && verdict.after.plannerFingerprint == Fingerprint(text)
                  && CurrentTask(ReadText(raw)) == CurrentTask(text))
  {
    SplitIsLines(text);
    SplitIsLines(ReadText(raw));
    DeliveredText(text, raw, body, task, notes, qa);
    DocumentUnambiguous(text, task, notes, qa);
    DeliveredParts(Split(text), body, task, notes, qa);
    FingerprintEqual(Split(ReadText(raw)), Split(text));
    JudgeAccepts(Parse(text), Parse(ReadText(raw)));
  }
}
