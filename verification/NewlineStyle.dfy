/** Files with `\r\n` endings: when they are judged like their `\n` form, and when the
  * permitted edit of one is accepted with no note. */
module NewlineStyle {
  import opened Text
  import opened Handoff
  import opened StatusWrites
  import opened Acceptance
  import opened Delivery

  /** The lines of a file, each without the `\r` of a `\r\n`. */
  function Chopped(lines: seq<string>): (r: seq<string>)
    ensures |r| == |lines|
    ensures forall i | 0 <= i < |lines| :: r[i] == ChopCR(lines[i])
  {
    seq(|lines|, i requires 0 <= i < |lines| => ChopCR(lines[i]))
  }

  lemma {:induction false} ReadLine(a: string, b: string)
    requires PlainLine(a) && '\n' !in a
    ensures ReadText(a + LF + b) == ChopCR(a) + LF + ReadText(b)
    decreases |a|
  {
    var t := a + LF + b;
    if a == "" {
      assert t[1..] == b;
    } else if a[0] == '\r' {
      assert IsBreak('\r') && |a| == 1;
      assert t[1] == '\n' && t[2..] == b;
    } else {
      assert a[0] in a && '\n' !in a[1..];
      assert t[0] == a[0] && t[1..] == a[1..] + LF + b;
      ReadLine(a[1..], b);
    }
  }

  lemma {:induction false} ReadEnd(a: string)
    requires PlainEnd(a)
    ensures ReadText(a) == a && ChopCR(a) == a
    decreases |a|
  {
    if a != "" {
      assert IsBreak('\r');
      assert !IsBreak(a[0]) && !IsBreak(a[|a| - 1]);
      assert PlainEnd(a[1..]);
      ReadEnd(a[1..]);
    }
  }

  /** Text-mode reading chops every line and does nothing else. */
  lemma {:induction false} ReadLines(lines: seq<string>)
    requires IsLines(lines) && PlainLines(lines)
    ensures ReadText(Join(lines)) == Join(Chopped(lines))
    decreases |lines|
  {
    if |lines| == 1 {
      ReadEnd(lines[0]);
    } else {
      assert lines[0] in lines;
      ReadLine(lines[0], Join(lines[1..]));
      ReadLines(lines[1..]);
      assert Chopped(lines)[1..] == Chopped(lines[1..]);
    }
  }

  lemma ChoppedAreLines(lines: seq<string>)
    requires IsLines(lines) && PlainLines(lines)
    ensures IsLines(Chopped(lines)) && PlainLines(Chopped(lines))
  {
    forall l | l in Chopped(lines) ensures '\n' !in l {
      var i :| 0 <= i < |lines| && Chopped(lines)[i] == l;
      assert lines[i] in lines;
    }
  }

  lemma LinesOfReadText(text: string)
    requires Plain(text)
    ensures Split(ReadText(text)) == Chopped(Split(text))
    ensures Plain(ReadText(text)) && SplitLines(ReadText(text)) == SplitLines(text)
  {
    var lines := Split(text);
    var chopped := Chopped(lines);
    PlainIsPlainLines(text);
    JoinOfSplit(text);
    ReadLines(lines);
    ChoppedAreLines(lines);
    SplitOfJoin(chopped);
    PlainIsPlainLines(ReadText(text));
    SplitLinesOfPlain(ReadText(text));
    SplitLinesOfPlain(text);
    ChoppedPhysical(lines);
  }

  lemma {:induction false} ChoppedPhysical(lines: seq<string>)
    requires PlainLines(lines)
    ensures Physical(Chopped(lines)) == Physical(lines)
    decreases |lines|
  {
    if |lines| == 1 {
      ReadEnd(lines[0]);
      assert Chopped(lines) == lines;
    } else {
      assert PlainLine(lines[0]);
      assert IsBreak('\r');
      assert ChopCR(ChopCR(lines[0])) == ChopCR(lines[0]);
      assert Chopped(lines)[1..] == Chopped(lines[1..]);
      ChoppedPhysical(lines[1..]);
    }
  }

  // ---- headings and sections --------------------------------------------------

  /** `## ` followed by nothing: a heading to `^## .+$` only while its `\r` is there. */
  const BARE := "## \r"

  lemma ChopHeading(l: string)
    requires l != BARE
    ensures IsHeading(ChopCR(l)) == IsHeading(l)
    ensures forall h :: Named(ChopCR(l), h) == Named(l, h)
  {
    if l != "" && l[|l| - 1] == '\r' {
      var c := ChopCR(l);
      assert l == c + CR;
      assert c != "## ";
      if |c| >= 3 {
        assert c[..3] == l[..3];
        assert |c| == 3 ==> c == c[..3];
      }
      if IsHeading(l) {
        assert l[0] == '#' && c[0] == '#';
        assert LStrip(l) == l && LStrip(c) == c;
      }
    }
  }

  /** A bare heading names no section, in either form. */
  lemma ChopNamed(l: string, heading: string)
    requires heading == TASK || heading == QA
    ensures Named(ChopCR(l), heading) == Named(l, heading)
  {
    if l == BARE {
      assert |Strip(l)| <= 4 < |heading|;
    } else {
      ChopHeading(l);
    }
  }

  lemma ChoppedNamed(lines: seq<string>, heading: string)
    requires heading == TASK || heading == QA
    ensures FirstNamed(Chopped(lines), heading) == FirstNamed(lines, heading)
    ensures LastNamed(Chopped(lines), heading) == LastNamed(lines, heading)
  {
    var c := Chopped(lines);
    forall k | 0 <= k < |lines| ensures Named(c[k], heading) == Named(lines[k], heading) {
      ChopNamed(lines[k], heading);
    }
    SameNamed(c, lines, heading);
  }

  /** A bare heading stands between line `i` and the next heading. */
  predicate BareAfter(lines: seq<string>, i: nat)
    requires i < |lines|
  {
    exists k :: i < k < NextHeading(Chopped(lines), i) && lines[k] == BARE
  }

  lemma ChoppedSection(lines: seq<string>, i: nat)
    requires i < |lines| && !BareAfter(lines, i)
    ensures SectionLines(Chopped(lines), i) == Chopped(SectionLines(lines, i))
  {
    var j, j' := NextHeading(lines, i), NextHeading(Chopped(lines), i);
    forall k | i < k < j' ensures !IsHeading(lines[k]) {
      ChopHeading(lines[k]);
    }
    if j' < |lines| {
      ChopHeading(lines[j']);
    }
    assert j == j';
    assert Chopped(lines)[i..j] == Chopped(lines[i..j]);
  }

  // ---- the Status substitution ---------------------------------------------------

  lemma ChopBlank(l: string)
    ensures Blank(ChopCR(l)) == Blank(l)
    ensures StatusLine(ChopCR(l)) == StatusLine(l)
    ensures StatusLine(l) ==> Valued(ChopCR(l)) == Valued(l)
  {
    if l != "" && l[|l| - 1] == '\r' {
      var c := ChopCR(l);
      assert l == c + CR && IsSpace('\r');
      if StatusLine(l) {
        assert STATUS_MARK[|STATUS_MARK| - 1] == '*';
        assert |l| > |STATUS_MARK|;
        assert c[..|STATUS_MARK|] == l[..|STATUS_MARK|];
        assert StatusRest(l) == StatusRest(c) + CR;
        BlankAppend(StatusRest(c), CR);
      }
      if StatusLine(c) {
        assert l[..|STATUS_MARK|] == c[..|STATUS_MARK|];
      }
      BlankAppend(c, CR);
    }
  }

  lemma BlankAppend(a: string, b: string)
    ensures Blank(a + b) <==> Blank(a) && Blank(b)
  {
    var t := a + b;
    assert forall i | 0 <= i < |a| :: t[i] == a[i];
    assert forall i | 0 <= i < |b| :: t[|a| + i] == b[i];
  }

  lemma {:induction false} ChoppedDropBlank(lines: seq<string>)
    ensures DropBlank(Chopped(lines)) == Chopped(DropBlank(lines))
    decreases |lines|
  {
    if lines != [] {
      ChopBlank(lines[0]);
      assert Chopped(lines)[1..] == Chopped(lines[1..]);
      ChoppedDropBlank(lines[1..]);
    }
  }

  lemma ChoppedTail(lines: seq<string>)
    requires lines != []
    ensures Chopped(lines)[1..] == Chopped(lines[1..])
  {
  }

  lemma ChoppedAfterStatus(lines: seq<string>)
    requires lines != [] && StatusLine(lines[0]) && StatusLine(Chopped(lines)[0])
    ensures AfterStatus(Chopped(lines)) == Chopped(AfterStatus(lines))
  {
    var value := DropBlank(lines[1..]);
    ChopBlank(lines[0]);
    ChoppedTail(lines);
    ChoppedDropBlank(lines[1..]);
    if value != [] {
      ChoppedTail(value);
      ChoppedDropBlank(value[1..]);
    }
  }

  lemma {:induction false} ChoppedSubStatus(lines: seq<string>)
    ensures SubStatus(Chopped(lines)) == Chopped(SubStatus(lines))
    decreases |lines|
  {
    if lines != [] {
      ChopBlank(lines[0]);
      if StatusLine(lines[0]) {
        var rest := AfterStatus(lines);
        ChoppedAfterStatus(lines);
        ChoppedSubStatus(rest);
        assert ChopCR(STATUS_MARK) == STATUS_MARK;
      } else {
        ChoppedTail(lines);
        ChoppedSubStatus(lines[1..]);
      }
    }
  }

  lemma {:induction false} ChoppedKept(lines: seq<string>)
    ensures KeptLines(Chopped(lines)) == KeptLines(lines)
    decreases |lines|
  {
    if lines != [] {
      assert Chopped(lines)[1..] == Chopped(lines[1..]);
      ChoppedKept(lines[1..]);
    }
  }

  /** The plan of a `\r\n` text is the plan of its `\n` form, line by line. */
  lemma ChoppedPlan(lines: seq<string>)
    requires FirstNamed(lines, TASK) < |lines| ==> !BareAfter(lines, FirstNamed(lines, TASK))
    ensures PlanLines(Chopped(lines)) == Chopped(PlanLines(lines))
  {
    ChoppedNamed(lines, TASK);
    var c := FirstNamed(lines, TASK);
    if c < |lines| {
      ChoppedSection(lines, c);
      ChoppedSubStatus(SectionLines(lines, c));
    } else {
      assert Chopped([""]) == [""];
    }
  }

  /** A bare heading stands in QA Feedback. */
  predicate BareInQa(lines: seq<string>) {
    LastNamed(lines, QA) < |lines| && BareAfter(lines, LastNamed(lines, QA))
  }

  /** The QA section of the `\n` form has more lines exactly if a bare heading cut it. */
  lemma ChoppedQa(lines: seq<string>)
    ensures KeptLines(QaLines(Chopped(lines))) == KeptLines(QaLines(lines)) <==> !BareInQa(lines)
  {
    ChoppedNamed(lines, QA);
    var q := LastNamed(lines, QA);
    if q < |lines| {
      if BareAfter(lines, q) {
        BareCutsQa(lines, q);
      } else {
        ChoppedSection(lines, q);
        ChoppedKept(SectionLines(lines, q));
      }
    } else {
      assert Chopped([""]) == [""];
    }
  }

  lemma FirstIsBare(lines: seq<string>, q: nat, j: nat, k: nat)
    requires q < |lines| && j == NextHeading(lines, q) && q < k < NextHeading(Chopped(lines), q) && lines[k] == BARE
    ensures j < NextHeading(Chopped(lines), q) && lines[j] == BARE
  {
    assert IsHeading(BARE) && j <= k;
    if lines[j] != BARE {
      ChopHeading(lines[j]);
    }
  }

  lemma CutThere<T>(a: seq<T>, q: nat, j: nat, n: nat, last: seq<T>)
    requires q <= j < n <= |a|
    ensures a[q..n] + last == a[q..j] + ([a[j]] + (a[j + 1..n] + last))
  {
  }

  lemma SectionGrown(lines: seq<string>, q: nat, j: nat) returns (more: seq<string>)
    requires q < |lines| && j == NextHeading(lines, q) < NextHeading(Chopped(lines), q) && lines[j] == BARE
    ensures SectionLines(lines, q) == lines[q..j] + [""]
    ensures SectionLines(Chopped(lines), q) == Chopped(lines[q..j]) + (["## "] + more)
  {
    var c := Chopped(lines);
    var j' := NextHeading(c, q);
    var last: seq<string> := if j' < |lines| then [""] else [];
    more := c[j + 1..j'] + last;
    CutThere(c, q, j, j', last);
    assert c[q..j] == Chopped(lines[q..j]) && c[j] == "## ";
  }

  lemma KeptGrows(front: seq<string>, more: seq<string>)
    ensures |KeptLines(front + (["## "] + more))| > |KeptLines(front + [""])|
  {
    KeptAppend(front, ["## "] + more);
    KeptAppend(["## "], more);
    KeptAppend(front, [""]);
    BareIsKept();
  }

  lemma BareCutsQa(lines: seq<string>, q: nat)
    requires q < |lines| && BareAfter(lines, q)
    ensures |KeptLines(SectionLines(Chopped(lines), q))| > |KeptLines(SectionLines(lines, q))|
  {
    var j := NextHeading(lines, q);
    var k :| q < k < NextHeading(Chopped(lines), q) && lines[k] == BARE;
    FirstIsBare(lines, q, j, k);
    var more := SectionGrown(lines, q, j);
    ChoppedKept(lines[q..j]);
    KeptAppend(lines[q..j], [""]);
    KeptAppend(Chopped(lines[q..j]), [""]);
    KeptGrows(Chopped(lines[q..j]), more);
  }

  lemma BareIsKept()
    ensures |KeptLines(["## "])| == 1 && KeptLines([""]) == []
  {
    var l := "## ";
    assert l[..2] == "##" && RStrip("##") == "##";
    assert RStrip(l) == "##" && "##"[0] == '#';
    assert RULE[0] == '-';
    var one: seq<string> := [l];
    assert one[1..] == [];
  }

  // ---- judging --------------------------------------------------------------------------

  /** The verdicts agree in all but the note. */
  predicate SameVerdict(a: Verdict, b: Verdict) { a.after == b.after && a.accepted == b.accepted && a.reason == b.reason }

  /** The reason `Judge` gives, by the normalised fingerprints. */
  function ReasonFor(before: seq<string>, after: seq<string>, status: string): Reason {
    if status == APPROVED then SetApproved
    else if before != after then PlanChanged
    else if status != READY_FOR_QA then WrongStatus(status)
    else NoReason
  }

  lemma JudgeReason(before: HandoffDocument, after: HandoffDocument)
    ensures Judge(before, after).reason
            == ReasonFor(NormalizeOwned(before.plannerFingerprint), NormalizeOwned(after.plannerFingerprint), after.status)
  {
  }

  lemma SameJudgement(a: HandoffDocument, b: HandoffDocument, after: HandoffDocument)
    requires NormalizeOwned(a.plannerFingerprint) == NormalizeOwned(b.plannerFingerprint)
    ensures SameVerdict(Judge(a, after), Judge(b, after))
  {
    JudgeReason(a, after);
    JudgeReason(b, after);
    JudgeAccepts(a, after);
    JudgeAccepts(b, after);
  }

  /** The verdict depends on the submitted document through its normalised fingerprint only. */
  lemma VerdictByFingerprint(a: HandoffDocument, b: HandoffDocument, raw: string)
    requires NormalizeOwned(a.plannerFingerprint) == NormalizeOwned(b.plannerFingerprint)
    ensures SameVerdict(Evaluate(a, raw), Evaluate(b, raw))
  {
    SameJudgement(a, b, Parse(ReadText(raw)));
  }

  /** The submitted file's Current Task heading is the one the structure check counts. */
  predicate TaskIsExact(lines: seq<string>) {
    FirstNamed(lines, TASK) < |lines| && ChopCR(lines[FirstNamed(lines, TASK)]) == TASK
  }

  lemma SamePlace(lines: seq<string>, i: nat)
    requires PlainLines(lines) && i < |Physical(lines)|
    ensures i < |lines| && Physical(lines)[i] == ChopCR(lines[i]) == Chopped(lines)[i]
  {
    PhysicalIndex(lines);
    assert IsBreak('\r');
  }

  lemma TaskPlace(lines: seq<string>, c: nat, task: nat)
    requires PlainLines(lines) && OnlyAt(Physical(lines), TASK, task) && c < |lines| && ChopCR(lines[c]) == TASK
    ensures c == task
  {
    PhysicalIndex(lines);
    SamePlace(lines, c);
  }

  lemma HeadingEnds(lines: seq<string>, c: nat, k: nat)
    requires PlainLines(lines) && c < k < |Physical(lines)| && IsHeading(Physical(lines)[k])
    ensures k < |lines| && NextHeading(Chopped(lines), c) <= k
  {
    SamePlace(lines, k);
  }

  lemma NotesIsHeading()
    ensures IsHeading(NOTES)
  {
    assert NOTES[..3] == "## ";
  }

  lemma TaskIsWhole(lines: seq<string>, task: nat, notes: nat, qa: nat)
    requires PlainLines(lines) && Shape(Physical(lines), task, notes, qa) && TaskIsExact(lines)
    ensures !BareAfter(lines, FirstNamed(lines, TASK))
  {
    var c := FirstNamed(lines, TASK);
    TaskPlace(lines, c, task);
    NotesIsHeading();
    HeadingEnds(lines, c, notes);
    forall k | c < k < NextHeading(Chopped(lines), c) ensures lines[k] != BARE {
      SamePlace(lines, k);
      assert StartsWith("## ", "## ");
    }
  }

  lemma PlanOfLfForm(before: string)
    requires Plain(before) && WellFormed(before) && TaskIsExact(Split(before))
    ensures PlanLines(Chopped(Split(before))) == Chopped(PlanLines(Split(before))) && Unambiguous(before)
  {
    PlainIsPlainLines(before);
    SplitLinesOfPlain(before);
    StructureMeansShape(SplitLines(before));
    var task: nat, notes: nat, qa: nat :| Shape(SplitLines(before), task, notes, qa);
    ShapeIsUnambiguous(before, task, notes, qa);
    TaskIsWhole(Split(before), task, notes, qa);
    ChoppedPlan(Split(before));
  }

  lemma LfForm(before: string)
    requires Plain(before) && WellFormed(before) && TaskIsExact(Split(before))
    ensures Unambiguous(before) && Unambiguous(ReadText(before)) && WellFormed(ReadText(before)) && Plain(ReadText(before))
    ensures KeptLines(PlanLines(Split(ReadText(before)))) == KeptLines(PlanLines(Split(before)))
    ensures KeptLines(QaLines(Split(ReadText(before)))) == KeptLines(QaLines(Split(before))) <==> !BareInQa(Split(before))
  {
    LinesOfReadText(before);
    PlanOfLfForm(before);
    ChoppedKept(PlanLines(Split(before)));
    ChoppedQa(Split(before));
  }

  lemma FingerprintOfLfForm(before: string)
    requires Plain(before) && WellFormed(before) && TaskIsExact(Split(before))
    ensures WellFormed(ReadText(before)) && Plain(ReadText(before))
    ensures NormalizeOwned(Fingerprint(ReadText(before))) == NormalizeOwned(Fingerprint(before))
            <==> !BareInQa(Split(before))
  {
    LfForm(before);
    KeptOfText(before);
    KeptOfText(ReadText(before));
    SamePrefix(KeptLines(PlanLines(Split(before))), KeptLines(QaLines(Split(ReadText(before)))), KeptLines(QaLines(Split(before))));
  }

  // ---- the fingerprint itself --------------------------------------------------------------

  lemma {:induction false} InJoin(lines: seq<string>, c: char)
    requires |lines| > 0 && c != '\n'
    ensures c in Join(lines) <==> exists l :: l in lines && c in l
    decreases |lines|
  {
    if |lines| == 1 {
      assert lines[0] in lines;
    } else {
      InJoin(lines[1..], c);
      assert lines == [lines[0]] + lines[1..];
      assert forall l | l in lines :: l == lines[0] || l in lines[1..];
    }
  }

  lemma PlainReturn(l: string)
    requires PlainLine(l)
    ensures ChopCR(l) == l <==> '\r' !in l
  {
    assert IsBreak('\r');
  }

  /** Chopping changes lines exactly if a `\r` is in their text. */
  lemma ChoppedIsSame(lines: seq<string>)
    requires |lines| > 0 && forall l | l in lines :: PlainLine(l)
    ensures Chopped(lines) == lines <==> '\r' !in Join(lines)
  {
    InJoin(lines, '\r');
    forall i | 0 <= i < |lines| ensures Chopped(lines)[i] == lines[i] <==> '\r' !in lines[i] {
      assert lines[i] in lines;
      PlainReturn(lines[i]);
    }
    if '\r' in Join(lines) {
      var l :| l in lines && '\r' in l;
      var i :| 0 <= i < |lines| && lines[i] == l;
      assert Chopped(lines)[i] != lines[i];
    }
  }

  lemma FingerprintComesFrom(lines: seq<string>)
    ensures forall l | l in FingerprintLines(lines) :: l == "" || l == STATUS_MARK || l == RULE || l in lines
  {
    PlanComesFrom(lines);
    QaComesFrom(lines);
  }

  lemma NoReturnInLines(text: string)
    requires '\r' !in text
    ensures forall l | l in Split(text) :: '\r' !in l
  {
    forall i | 0 <= i < |Split(text)| ensures '\r' !in Split(text)[i] {
      LinesOfText(text, '\r', i);
    }
  }

  lemma NoReturnInMarks()
    ensures '\r' !in STATUS_MARK && '\r' !in RULE
  {
  }

  lemma NoReturnInFingerprint(text: string)
    requires '\r' !in text
    ensures '\r' !in Fingerprint(text)
  {
    var owned := FingerprintLines(Split(text));
    NoReturnInMarks();
    NoReturnInLines(text);
    FingerprintComesFrom(Split(text));
    InJoin(owned, '\r');
    assert forall l | l in owned :: '\r' !in l;
  }

  lemma AllPlain(lines: seq<string>)
    requires PlainLines(lines)
    ensures forall l | l in lines :: PlainLine(l)
  {
    forall i | 0 <= i < |lines| ensures PlainLine(lines[i]) {
      assert i < |lines| - 1 ==> PlainLine(lines[i]);
    }
  }

  lemma PlainMarks()
    ensures PlainLine(RULE) && PlainLine("") && PlainLine(STATUS_MARK)
  {
  }

  lemma FingerprintIsPlain(lines: seq<string>)
    requires PlainLines(lines)
    ensures forall l | l in FingerprintLines(lines) :: PlainLine(l)
  {
    PlainMarks();
    AllPlain(lines);
    FingerprintComesFrom(lines);
    forall l | l in FingerprintLines(lines) ensures PlainLine(l) {
      assert l == "" || l == STATUS_MARK || l == RULE || l in lines;
    }
  }

  lemma ChoppedQaLines(lines: seq<string>)
    requires !BareInQa(lines)
    ensures QaLines(Chopped(lines)) == Chopped(QaLines(lines))
  {
    var q := LastNamed(lines, QA);
    ChoppedNamed(lines, QA);
    if q < |lines| {
      ChoppedSection(lines, q);
    } else {
      assert Chopped([""]) == [""];
    }
  }

  lemma ChoppedGlue(plan: seq<string>, qa: seq<string>)
    ensures Chopped(plan + [RULE] + qa) == Chopped(plan) + [RULE] + Chopped(qa)
  {
    assert ChopCR(RULE) == RULE;
  }

  lemma ChoppedFingerprint(lines: seq<string>)
    requires PlanLines(Chopped(lines)) == Chopped(PlanLines(lines)) && !BareInQa(lines)
    ensures FingerprintLines(Chopped(lines)) == Chopped(FingerprintLines(lines))
  {
    ChoppedQaLines(lines);
    ChoppedGlue(PlanLines(lines), QaLines(lines));
  }

  /** The two forms have one fingerprint exactly if no `\r` stands in an owned part and
    * no bare heading in QA Feedback. */
  lemma SameFingerprintExactly(before: string)
    requires Plain(before) && WellFormed(before) && TaskIsExact(Split(before))
    ensures Fingerprint(ReadText(before)) == Fingerprint(before) <==> !BareInQa(Split(before)) && '\r' !in Fingerprint(before)
  {
    var lines := Split(before);
    FingerprintOfLfForm(before);
    NoReturnInFingerprint(ReadText(before));
    if !BareInQa(lines) {
      LfForm(before);
      LinesOfReadText(before);
      PlanOfLfForm(before);
      ChoppedFingerprint(lines);
      PlainIsPlainLines(before);
      FingerprintIsPlain(lines);
      ChoppedIsSame(FingerprintLines(lines));
    }
  }

  // ---- a delivery that tells the two apart ---------------------------------------------------

  /** The `\n` form with READY FOR QA written above it. */
  function ReadyAbove(text: string): string { ReadyLine() + LF + text }

  lemma ReadyAboveLines(text: string)
    requires Plain(text) && '\r' !in text
    ensures Split(ReadyAbove(text)) == [ReadyLine()] + Split(text)
    ensures SplitLines(ReadyAbove(text)) == [ReadyLine()] + SplitLines(text)
    ensures Plain(ReadyAbove(text)) && ReadText(ReadyAbove(text)) == ReadyAbove(text)
  {
    ReadyLineFacts();
    assert IsBreak('\n') && IsBreak('\r');
    SplitFirst(ReadyLine(), text);
    SplitLinesCons(ReadyLine(), text);
    PlainCons(ReadyLine(), text);
    ReadNoReturns(ReadyAbove(text));
  }

  lemma {:induction false} ReadNoReturns(t: string)
    requires '\r' !in t
    ensures ReadText(t) == t
    decreases |t|
  {
    if t != "" {
      assert t[0] in t;
      ReadNoReturns(t[1..]);
    }
  }

  lemma ShapeBelow(l: string, lines: seq<string>, task: nat, notes: nat, qa: nat)
    requires Shape(lines, task, notes, qa) && l != TASK && l != NOTES && l != QA
    ensures Shape([l] + lines, task + 1, notes + 1, qa + 1)
  {
    var ys := [l] + lines;
    assert forall i | 0 < i < |ys| :: ys[i] == lines[i - 1];
  }

  lemma ReadyAboveShape(text: string)
    requires Plain(text) && '\r' !in text && WellFormed(text)
    ensures WellFormed(ReadyAbove(text))
  {
    ReadyAboveLines(text);
    assert TASK[0] == NOTES[0] == QA[0] == '#' && ReadyLine()[0] == '*';
    StructureMeansShape(SplitLines(text));
    var task: nat, notes: nat, qa: nat :| Shape(SplitLines(text), task, notes, qa);
    ShapeBelow(ReadyLine(), SplitLines(text), task, notes, qa);
    StructureMeansShape(SplitLines(ReadyAbove(text)));
  }

  lemma ReadyAboveParts(text: string)
    requires Plain(text) && '\r' !in text && WellFormed(text)
    ensures SamePlannerText(text, ReadyAbove(text)) && ReadStatus(ReadyAbove(text)) == READY_FOR_QA
  {
    var lines := Split(text);
    ReadyLineFacts();
    ReadyAboveLines(text);
    WellFormedHasQa(text);
    StatusAt([ReadyLine()] + lines, 0);
    QaInSuffix([ReadyLine()], lines);
    PlanInSuffix([ReadyLine()], lines);
  }

  /** Nothing the planner owns is changed. */
  lemma ReadyAboveAccepted(text: string)
    requires Plain(text) && '\r' !in text && WellFormed(text)
    ensures Evaluate(Parse(text), ReadyAbove(text)).accepted && WellFormed(ReadyAbove(text))
  {
    ReadyAboveLines(text);
    ReadyAboveShape(text);
    ReadyAboveParts(text);
    WellFormedHasQa(text);
    AcceptedByFingerprint(text, ReadyAbove(text));
  }

  lemma ToldApart(before: string, lf: string)
    requires Plain(lf) && '\r' !in lf && WellFormed(lf)
    requires NormalizeOwned(Fingerprint(lf)) != NormalizeOwned(Fingerprint(before))
    ensures Evaluate(Parse(lf), ReadyAbove(lf)).accepted && !Evaluate(Parse(before), ReadyAbove(lf)).accepted
  {
    ReadyAboveLines(lf);
    ReadyAboveAccepted(lf);
    JudgeAccepts(Parse(lf), Parse(ReadyAbove(lf)));
    JudgeAccepts(Parse(before), Parse(ReadyAbove(lf)));
  }

  /** A submitted `\r\n` document is judged like its `\n` form, whatever is
    * delivered, if and only if no bare heading stands in its QA Feedback. */
  lemma JudgedLikeItsLfFormExactly(before: string)
    requires Plain(before) && WellFormed(before) && TaskIsExact(Split(before))
    ensures (forall raw: string :: SameVerdict(Evaluate(Parse(before), raw), Evaluate(Parse(ReadText(before)), raw)))
            <==> !BareInQa(Split(before))
    ensures BareInQa(Split(before)) ==>
              var raw := ReadyAbove(ReadText(before));
              Evaluate(Parse(ReadText(before)), raw).accepted && !Evaluate(Parse(before), raw).accepted
  {
    var lf := ReadText(before);
    FingerprintOfLfForm(before);
    if BareInQa(Split(before)) {
      ToldApart(before, lf);
      assert !SameVerdict(Evaluate(Parse(before), ReadyAbove(lf)), Evaluate(Parse(lf), ReadyAbove(lf)));
    } else {
      forall raw: string ensures SameVerdict(Evaluate(Parse(before), raw), Evaluate(Parse(lf), raw)) {
        VerdictByFingerprint(Parse(before), Parse(lf), raw);
      }
    }
  }

  lemma ReadyAboveFingerprint(text: string)
    requires Plain(text) && '\r' !in text && WellFormed(text)
    ensures Fingerprint(ReadyAbove(text)) == Fingerprint(text)
  {
    ReadyLineFacts();
    ReadyAboveLines(text);
    ReadyAboveShape(text);
    WellFormedHasQa(text);
    WellFormedHasQa(ReadyAbove(text));
    QaInSuffix([ReadyLine()], Split(text));
    PlanInSuffix([ReadyLine()], Split(text));
  }

  lemma NotesTellApart(before: string, lf: string)
    requires Plain(lf) && '\r' !in lf && WellFormed(lf)
    requires NormalizeOwned(Fingerprint(lf)) == NormalizeOwned(Fingerprint(before)) && Fingerprint(lf) != Fingerprint(before)
    ensures Evaluate(Parse(lf), ReadyAbove(lf)) != Evaluate(Parse(before), ReadyAbove(lf))
  {
    ReadyAboveLines(lf);
    ReadyAboveAccepted(lf);
    ReadyAboveFingerprint(lf);
    JudgeAccepts(Parse(lf), Parse(ReadyAbove(lf)));
    JudgeAccepts(Parse(before), Parse(ReadyAbove(lf)));
  }

  lemma SameFingerprintSameJudgement(a: HandoffDocument, b: HandoffDocument, after: HandoffDocument)
    requires a.plannerFingerprint == b.plannerFingerprint
    ensures Judge(a, after) == Judge(b, after)
  {
  }

  lemma SameFingerprintSameVerdict(a: HandoffDocument, b: HandoffDocument, raw: string)
    requires a.plannerFingerprint == b.plannerFingerprint
    ensures Evaluate(a, raw) == Evaluate(b, raw)
  {
    SameFingerprintSameJudgement(a, b, Parse(ReadText(raw)));
  }

  lemma FormsToldApart(before: string)
    requires Plain(before) && WellFormed(before) && TaskIsExact(Split(before))
    requires BareInQa(Split(before)) || '\r' in Fingerprint(before)
    ensures var lf := ReadText(before); Evaluate(Parse(before), ReadyAbove(lf)) != Evaluate(Parse(lf), ReadyAbove(lf))
  {
    SameFingerprintExactly(before);
    FingerprintOfLfForm(before);
    if BareInQa(Split(before)) {
      ToldApart(before, ReadText(before));
    } else {
      NotesTellApart(before, ReadText(before));
    }
  }

  /** The two verdicts agree in everything, the note too, whatever is delivered, if and
    * only if also no `\r` stands in an owned part. */
  lemma JudgedIdenticallyExactly(before: string)
    requires Plain(before) && WellFormed(before) && TaskIsExact(Split(before))
    ensures (forall raw: string :: Evaluate(Parse(before), raw) == Evaluate(Parse(ReadText(before)), raw))
            <==> !BareInQa(Split(before)) && '\r' !in Fingerprint(before)
  {
    if BareInQa(Split(before)) || '\r' in Fingerprint(before) {
      FormsToldApart(before);
    } else {
      SameFingerprintExactly(before);
      forall raw: string ensures Evaluate(Parse(before), raw) == Evaluate(Parse(ReadText(before)), raw) {
        SameFingerprintSameVerdict(Parse(before), Parse(ReadText(before)), raw);
      }
    }
  }

  // ---- the permitted edit in either style ------------------------------------------------------

  /** A Status line stands above the Execution Notes heading. */
  predicate StatusAboveNotes(lines: seq<string>) { FindStatus(lines) < LineOf(lines, NOTES) }

  lemma DocumentOf(text: string) returns (task: nat, notes: nat, qa: nat)
    requires Plain(text) && '\r' !in text && WellFormed(text) && StatusAboveNotes(Split(text))
    ensures Document(Split(text), task, notes, qa)
  {
    BareText(text);
    WellFormedLines(text);
    task, notes, qa :| Shape(Split(text), task, notes, qa);
  }

  /** What the permitted edit leaves of the fingerprint and the plan. */
  lemma EditedFingerprint(lf: string, raw: string, body: seq<string>)
    requires Plain(lf) && '\r' !in lf && WellFormed(lf) && StatusAboveNotes(Split(lf)) && NotesBody(body)
    requires ReadText(raw) == Join(Deliver(Split(lf), body))
    ensures var after := ReadText(raw);
            && Plain(after) && WellFormed(after) && ReadStatus(after) == READY_FOR_QA && QaLines(Split(after)) == QaLines(Split(lf))
            && (Fingerprint(after) == Fingerprint(lf) <==> !StatusSwallowsPlan(Split(lf)))
            && (!StatusSwallowsPlan(Split(lf)) ==> CurrentTask(after) == CurrentTask(lf))
  {
    var task, notes, qa := DocumentOf(lf);
    SplitIsLines(lf);
    SplitIsLines(ReadText(raw));
    DeliveredText(lf, raw, body, task, notes, qa);
    DocumentUnambiguous(lf, task, notes, qa);
    DeliveredParts(Split(lf), body, task, notes, qa);
    FingerprintEqual(Split(ReadText(raw)), Split(lf));
  }

  /** `raw` is `before` with Status set and `body` for Execution Notes, in any newline style. */
  ghost predicate Edited(before: string, raw: string, body: seq<string>) {
    && Plain(before) && WellFormed(before) && TaskIsExact(Split(before)) && NotesBody(body)
    && StatusAboveNotes(Split(ReadText(before))) && ReadText(raw) == Join(Deliver(Split(ReadText(before)), body))
  }

  /** The Status line swallowed a plan line. */
  predicate Swallowed(before: string) { StatusSwallowsPlan(Split(ReadText(before))) }

  /** The submitted and the delivered fingerprint agree exactly under the three conditions. */
  lemma UnchangedExactly(before: string, raw: string, body: seq<string>)
    requires Edited(before, raw, body)
    ensures Fingerprint(before) == Fingerprint(ReadText(raw))
            <==> !BareInQa(Split(before)) && '\r' !in Fingerprint(before) && !Swallowed(before)
  {
    var after := ReadText(raw);
    LfForm(before);
    EditedFingerprint(ReadText(before), raw, body);
    NoReturnInFingerprint(after);
    SameFingerprintExactly(before);
    if BareInQa(Split(before)) && Fingerprint(before) == Fingerprint(after) {
      FingerprintsAgree(before, after);
      assert false;
    }
  }

  lemma EditedVerdict(before: string, raw: string, body: seq<string>)
    requires Edited(before, raw, body)
    ensures var verdict := Evaluate(Parse(before), raw);
            && (verdict.accepted <==> NormalizeOwned(Fingerprint(before)) == NormalizeOwned(Fingerprint(ReadText(raw))))
            && (verdict.note <==> verdict.accepted && Fingerprint(before) != Fingerprint(ReadText(raw)))
  {
    LfForm(before);
    EditedFingerprint(ReadText(before), raw, body);
    JudgeAccepts(Parse(before), Parse(ReadText(raw)));
  }

  /** Completeness, for either newline style.  Setting Status and rewriting Execution
    * Notes is accepted with no note exactly if no `\r` stands in an owned part, no
    * bare heading in QA Feedback, and the Status line swallowed no plan line.  If it
    * swallowed none, the edit is accepted exactly without such a heading, the note is
    * set exactly for a `\r`, and the plan is the one that was submitted. */
  lemma PermittedEditExactly(before: string, raw: string, body: seq<string>)
    requires Edited(before, raw, body)
    ensures var verdict := Evaluate(Parse(before), raw);
            && (verdict.accepted && !verdict.note
                <==> !BareInQa(Split(before)) && '\r' !in Fingerprint(before) && !Swallowed(before))
            && (!Swallowed(before) ==>
                  && (verdict.accepted <==> !BareInQa(Split(before)))
                  && (verdict.note <==> verdict.accepted && '\r' in Fingerprint(before))
                  && CurrentTask(ReadText(raw)) == CurrentTask(ReadText(before)))
  {
    LfForm(before);
    FingerprintOfLfForm(before);
    EditedFingerprint(ReadText(before), raw, body);
    UnchangedExactly(before, raw, body);
    EditedVerdict(before, raw, body);
  }

  /** The failing case: the QA Feedback of this `\r\n` file ends at the bare heading. */
  const BARE_LINES := [TASK + CR, NOTES + CR, QA + CR, BARE, "x"]

  lemma PhysicalCons(l: string, rest: seq<string>)
    requires rest != [] && PlainEnd(l)
    ensures Physical([l + CR] + rest) == [l] + Physical(rest)
    ensures IsLines(rest) && PlainLines(rest) ==> IsLines([l + CR] + rest) && PlainLines([l + CR] + rest)
  {
    var lines := [l + CR] + rest;
    assert lines[1..] == rest && ChopCR(l + CR) == l;
    assert IsBreak('\n') && IsBreak('\r');
    assert forall i | 1 <= i < |lines| :: lines[i] == rest[i - 1];
  }

  lemma FiveLines(task: string, notes: string, qa: string, bare: string, x: string)
    requires PlainEnd(task) && PlainEnd(notes) && PlainEnd(qa) && PlainEnd(bare) && PlainEnd(x) && x != ""
    ensures var lines := [task + CR, notes + CR, qa + CR, bare + CR, x];
            IsLines(lines) && PlainLines(lines) && Physical(lines) == [task, notes, qa, bare, x]
  {
    assert IsBreak('\n');
    assert Physical([x]) == [x];
    PhysicalCons(bare, [x]);
    PhysicalCons(qa, [bare + CR, x]);
    PhysicalCons(notes, [qa + CR, bare + CR, x]);
    PhysicalCons(task, [notes + CR, qa + CR, bare + CR, x]);
    assert [qa + CR] + [bare + CR, x] == [qa + CR, bare + CR, x];
    assert [notes + CR] + [qa + CR, bare + CR, x] == [notes + CR, qa + CR, bare + CR, x];
    assert [task + CR] + [notes + CR, qa + CR, bare + CR, x] == [task + CR, notes + CR, qa + CR, bare + CR, x];
  }

  lemma NamedInFive(c: seq<string>)
    requires |c| == 5 && Named(c[0], TASK) && Named(c[2], QA) && !IsHeading(c[3]) && !IsHeading(c[4])
    ensures FirstNamed(c, TASK) == 0 && LastNamed(c, QA) == 2 && NextHeading(c, 2) == 5
  {
  }

  lemma ChoppedFive(lines: seq<string>)
    requires lines == BARE_LINES
    ensures var c := Chopped(lines); |c| == 5 && c[0] == TASK && c[2] == QA && !IsHeading(c[3]) && !IsHeading(c[4])
  {
  }

  lemma BareInFive(lines: seq<string>)
    requires lines == BARE_LINES && Named(TASK, TASK) && Named(QA, QA)
    ensures TaskIsExact(lines) && BareInQa(lines)
  {
    ChoppedFive(lines);
    ChoppedNamed(lines, TASK);
    ChoppedNamed(lines, QA);
    NamedInFive(Chopped(lines));
    assert lines[3] == BARE && 2 < 3 < 5;
  }

  lemma FiveShape(lines: seq<string>)
    requires |lines| == 5 && lines[0] == TASK && lines[1] == NOTES && lines[2] == QA && lines[3] == "## " && lines[4] == "x"
    ensures StructureOf(lines) == []
  {
    HeadingsDiffer();
    assert |TASK| > 3 && |NOTES| > 3 && |QA| > 3;
    assert Shape(lines, 0, 1, 2);
    StructureMeansShape(lines);
  }

  lemma TextOfLines(lines: seq<string>)
    requires IsLines(lines) && PlainLines(lines)
    ensures Plain(Join(lines)) && Split(Join(lines)) == lines && SplitLines(Join(lines)) == Physical(lines)
  {
    SplitOfJoin(lines);
    PlainIsPlainLines(Join(lines));
    SplitLinesOfPlain(Join(lines));
  }

  lemma BareLinesFacts(lines: seq<string>)
    requires lines == BARE_LINES
    ensures IsLines(lines) && PlainLines(lines) && Physical(lines) == [TASK, NOTES, QA, "## ", "x"]
  {
    FiveLines(TASK, NOTES, QA, "## ", "x");
    assert "## " + CR == BARE;
  }

  lemma BareFileIsWellFormed(lines: seq<string>)
    requires IsLines(lines) && PlainLines(lines) && lines == BARE_LINES
    requires Physical(lines) == [TASK, NOTES, QA, "## ", "x"]
    ensures Plain(Join(lines)) && WellFormed(Join(lines)) && Split(Join(lines)) == lines
  {
    TextOfLines(lines);
    FiveShape(Physical(lines));
  }

  /** The same delivery is accepted for the `\n` form and refused for the `\r\n` file. */
  lemma BareHeadingIsJudgedDifferently(before: string)
    requires before == Join(BARE_LINES)
    ensures var raw := ReadyAbove(ReadText(before));
            && WellFormed(before)
            && Evaluate(Parse(ReadText(before)), raw).accepted && !Evaluate(Parse(before), raw).accepted
  {
    BareLinesFacts(BARE_LINES);
    BareFileIsWellFormed(BARE_LINES);
    HeadingNamesItself();
    BareInFive(BARE_LINES);
    JudgedLikeItsLfFormExactly(before);
  }

  /** The failing case: a document with `\r\n` endings and nothing unusual in it. */
  const CRLF_LINES := [TASK + CR, READY_LINE + CR, NOTES + CR, QA + CR, "none"]
  const READY_LINE := STATUS_MARK + " READY FOR EXECUTION"

  lemma ReadyLineIsStatus()
    ensures PlainEnd(READY_LINE) && StatusLine(READY_LINE) && READY_LINE[0] == '*' && StatusLine(READY_LINE + CR)
    ensures Valued(READY_LINE)
  {
    assert READY_LINE[..|STATUS_MARK|] == STATUS_MARK && (READY_LINE + CR)[..|STATUS_MARK|] == STATUS_MARK;
    assert StatusRest(READY_LINE)[1] == 'R';
  }

  lemma CrlfFacts(lines: seq<string>)
    requires lines == CRLF_LINES
    ensures IsLines(lines) && PlainLines(lines) && Physical(lines) == [TASK, READY_LINE, NOTES, QA, "none"]
    ensures Chopped(lines) == [TASK, READY_LINE, NOTES, QA, "none"]
  {
    ReadyLineIsStatus();
    FiveLines(TASK, READY_LINE, NOTES, QA, "none");
  }

  lemma CrlfShape(lines: seq<string>)
    requires |lines| == 5 && lines[0] == TASK && lines[1] == READY_LINE && lines[2] == NOTES && lines[3] == QA && lines[4] == "none"
    ensures StructureOf(lines) == []
  {
    HeadingsDiffer();
    ReadyLineIsStatus();
    assert TASK[0] == NOTES[0] == QA[0] == '#' && "## "[0] == '#';
    assert Shape(lines, 0, 2, 3);
    StructureMeansShape(lines);
  }

  /** A Current Task heading that ends with `\r\n` puts a `\r` into the fingerprint. */
  lemma HeadingReturn(text: string, c: nat)
    requires Unambiguous(text) && c == FirstNamed(Split(text), TASK) < |Split(text)| && '\r' in Split(text)[c]
    ensures '\r' in Fingerprint(text)
  {
    var lines := Split(text);
    var heading, section := lines[c], SectionLines(lines, c);
    assert section[0] == heading && heading[0] == '#' && STATUS_MARK[0] == '*';
    assert PlanLines(lines)[0] == heading;
    assert FingerprintLines(lines)[0] == heading;
    InJoin(FingerprintLines(lines), '\r');
  }

  lemma CrlfPlaces(lines: seq<string>)
    requires lines == CRLF_LINES && Chopped(lines) == [TASK, READY_LINE, NOTES, QA, "none"]
    ensures FirstNamed(lines, TASK) == 0 && TaskIsExact(lines) && !BareInQa(lines)
  {
    HeadingNamesItself();
    ChoppedNamed(lines, TASK);
    assert Named(Chopped(lines)[0], TASK);
    assert TASK[3] == 'C' && READY_LINE[0] == '*' && NOTES[3] == 'E' && QA[3] == 'Q' && BARE[3] == '\r';
    assert forall i | 0 <= i < 5 :: lines[i] != BARE;
  }

  lemma CrlfStatus(c: seq<string>)
    requires c == [TASK, READY_LINE, NOTES, QA, "none"]
    ensures FindStatus(c) == 1 && LineOf(c, NOTES) == 2
  {
    HeadingsDiffer();
    ReadyLineIsStatus();
    assert TASK[0] == NOTES[0] == '#' && STATUS_MARK[0] == '*';
    assert c[0] != NOTES && c[1] != NOTES && c[2] == NOTES;
    assert !StatusLine(c[0]) && StatusLine(c[1]);
  }

  lemma CrlfEditable(c: seq<string>)
    requires c == [TASK, READY_LINE, NOTES, QA, "none"] && FirstNamed(c, TASK) == 0
    ensures StatusAboveNotes(c) && !StatusSwallowsPlan(c)
  {
    CrlfStatus(c);
    ReadyLineIsStatus();
    if 1 < NextHeading(c, 0) {
      assert SectionLines(c, 0)[1..][0] == READY_LINE;
    }
  }

  lemma CrlfFile(before: string)
    requires before == Join(CRLF_LINES)
    ensures Plain(before) && WellFormed(before) && TaskIsExact(Split(before)) && !BareInQa(Split(before))
    ensures StatusAboveNotes(Split(ReadText(before))) && !Swallowed(before) && '\r' in Fingerprint(before)
  {
    CrlfFacts(CRLF_LINES);
    TextOfLines(CRLF_LINES);
    CrlfShape(Physical(CRLF_LINES));
    CrlfPlaces(CRLF_LINES);
    ChoppedNamed(CRLF_LINES, TASK);
    LinesOfReadText(before);
    CrlfEditable(Chopped(CRLF_LINES));
    LfForm(before);
    assert Split(before)[0] == TASK + CR;
    HeadingReturn(before, 0);
  }

  /** Any permitted edit of it is accepted with the note on spacing, although nothing
    * the planner owns has changed. */
  lemma CrlfDeliveryIsNoted(before: string, raw: string, body: seq<string>)
    requires before == Join(CRLF_LINES) && NotesBody(body) && ReadText(raw) == Join(Deliver(Split(ReadText(before)), body))
    ensures WellFormed(before) && CurrentTask(ReadText(raw)) == CurrentTask(ReadText(before))
    ensures Evaluate(Parse(before), raw).accepted && Evaluate(Parse(before), raw).note
  {
    CrlfFile(before);
    PermittedEditExactly(before, raw, body);
  }
}
