/** The server's check of what a worker left in HANDOFF.md. */
module Acceptance {
  import opened Text
  import opened Handoff

  datatype HandoffDocument = HandoffDocument(text: string, status: string, plannerFingerprint: string)

  /** `parse_handoff`, without the Branch and Execution Notes fields. */
  function Parse(text: string): HandoffDocument {
    HandoffDocument(text, ReadStatus(text), Fingerprint(text))
  }

  /** What text-mode reading makes of a file: `\r\n` and `\r` become `\n`. */
  function ReadText(raw: string): (text: string)
    ensures '\r' !in text
    decreases |raw|
  {
    if raw == "" then ""
    else if raw[0] == '\r' then LF + ReadText(raw[if |raw| > 1 && raw[1] == '\n' then 2 else 1..])
    else [raw[0]] + ReadText(raw[1..])
  }

  /** The lines `_normalize_owned` keeps.  The original joins them with `\n`;
    * they are non-empty and hold no `\n`, so the list says the same. */
  function KeptLines(lines: seq<string>): seq<string> {
    if lines == [] then []
    else
      var stripped := RStrip(lines[0]);
      (if stripped == "" || stripped == RULE then [] else [stripped]) + KeptLines(lines[1..])
  }

  function NormalizeOwned(text: string): seq<string> { KeptLines(SplitLines(text)) }

  /** `_boundary_note` is set. */
  predicate BoundaryNote(before: string, after: string) {
    before != after && NormalizeOwned(before) == NormalizeOwned(after)
  }

  datatype Reason = NoReason | Damaged(problems: seq<Problem>) | SetApproved | PlanChanged | WrongStatus(found: string)

  datatype Verdict = Verdict(after: HandoffDocument, accepted: bool, reason: Reason, note: bool)

  /** `evaluate_transition` once the structure is sound. */
  function Judge(before: HandoffDocument, after: HandoffDocument): Verdict {
    var note := BoundaryNote(before.plannerFingerprint, after.plannerFingerprint);
    var planIntact := note || after.plannerFingerprint == before.plannerFingerprint;
    if after.status == APPROVED then Verdict(after, false, SetApproved, false)
    else if !planIntact then Verdict(after, false, PlanChanged, false)
    else if after.status != READY_FOR_QA then Verdict(after, false, WrongStatus(after.status), false)
    else Verdict(after, true, NoReason, note)
  }

  /** `evaluate_transition` */
  function Evaluate(before: HandoffDocument, raw: string): Verdict {
    var text := ReadText(raw);
    var problems := Structure(text);
    if problems != [] then
      Verdict(HandoffDocument(text, ReadStatus(text), ""), false, Damaged(problems), false)
    else Judge(before, Parse(text))
  }

  // ---- normalisation on lines ----------------------------------------------

  lemma {:induction false} KeptAppend(a: seq<string>, b: seq<string>)
    ensures KeptLines(a + b) == KeptLines(a) + KeptLines(b)
    decreases |a|
  {
    if a == [] {
      assert a + b == b;
    } else {
      assert (a + b)[1..] == a[1..] + b;
      KeptAppend(a[1..], b);
    }
  }

  lemma {:induction false} KeptPhysical(lines: seq<string>)
    requires |lines| > 0
    ensures KeptLines(Physical(lines)) == KeptLines(lines)
    decreases |lines|
  {
    if |lines| == 1 {
      assert lines[1..] == [];
    } else {
      KeptPhysical(lines[1..]);
      assert Physical(lines)[1..] == Physical(lines[1..]);
    }
  }

  lemma NormalizeLines(lines: seq<string>)
    requires IsLines(lines) && PlainLines(lines)
    ensures NormalizeOwned(Join(lines)) == KeptLines(lines)
  {
    SplitOfJoin(lines);
    PlainIsPlainLines(Join(lines));
    SplitLinesOfPlain(Join(lines));
    KeptPhysical(lines);
  }

  lemma PlanPlain(lines: seq<string>)
    requires PlainLines(lines)
    ensures forall l | l in PlanLines(lines) :: PlainLine(l)
  {
    PlanComesFrom(lines);
    assert PlainLine(STATUS_MARK) && PlainLine("");
    forall l | l in lines ensures PlainLine(l) {
      var i :| 0 <= i < |lines| && lines[i] == l;
      assert i < |lines| - 1 ==> PlainLine(lines[i]);
    }
  }

  lemma PlainGlue(plan: seq<string>, qa: seq<string>)
    requires (forall l | l in plan :: PlainLine(l)) && PlainLines(qa)
    ensures PlainLines(plan + [RULE] + qa)
  {
    var f := plan + [RULE] + qa;
    forall i | 0 <= i < |f| - 1 ensures PlainLine(f[i]) {
      if i < |plan| {
        assert plan[i] in plan;
      } else if i > |plan| {
        assert f[i] == qa[i - |plan| - 1];
      }
    }
  }

  lemma KeptFingerprint(lines: seq<string>)
    requires IsLines(lines) && PlainLines(lines)
    ensures NormalizeOwned(Join(FingerprintLines(lines))) == KeptLines(PlanLines(lines)) + KeptLines(QaLines(lines))
  {
    var plan, qa := PlanLines(lines), QaLines(lines);
    FingerprintLinesAreLines(lines);
    PlanPlain(lines);
    PlainGlue(plan, qa);
    NormalizeLines(plan + [RULE] + qa);
    KeptGlue(plan, qa);
  }

  lemma KeptGlue(plan: seq<string>, qa: seq<string>)
    ensures KeptLines(plan + [RULE] + qa) == KeptLines(plan) + KeptLines(qa)
  {
    KeptAppend(plan + [RULE], qa);
    KeptAppend(plan, [RULE]);
    assert RStrip(RULE) == RULE;
    assert KeptLines([RULE]) == [];
  }

  // ---- the QA heading separates the two owned parts -------------------------

  lemma QaHeadingIsNamed(l: string)
    ensures RStrip(l) == QA ==> Named(l, QA)
  {
    if RStrip(l) == QA {
      RStripSpec(l);
      assert l[0] == QA[0] == '#' && l[..3] == QA[..3] == "## ";
      assert LStrip(l) == l;
    }
  }

  lemma {:induction false} KeptComeFrom(lines: seq<string>)
    ensures forall x | x in KeptLines(lines) :: exists l :: l in lines && RStrip(l) == x
    decreases |lines|
  {
    if lines != [] {
      KeptComeFrom(lines[1..]);
      forall x | x in KeptLines(lines) ensures exists l :: l in lines && RStrip(l) == x {
        if x in KeptLines(lines[1..]) {
          var l :| l in lines[1..] && RStrip(l) == x;
          assert l in lines;
        } else {
          assert lines[0] in lines && RStrip(lines[0]) == x;
        }
      }
    }
  }

  lemma NoQaInPlan(lines: seq<string>)
    ensures QA !in KeptLines(PlanLines(lines))
  {
    var c, plan := FirstNamed(lines, TASK), PlanLines(lines);
    KeptComeFrom(plan);
    forall l | l in plan ensures !Named(l, QA) {
      if c < |lines| {
        SubStatusComesFrom(SectionLines(lines, c));
        assert STATUS_MARK[0] == '*';
        assert !Named(STATUS_MARK, QA);
      }
    }
    forall l | l in plan ensures RStrip(l) != QA {
      QaHeadingIsNamed(l);
    }
  }

  lemma QaPartStartsWithHeading(lines: seq<string>)
    ensures if LastNamed(lines, QA) < |lines|
            then KeptLines(QaLines(lines)) != [] && KeptLines(QaLines(lines))[0] == QA
            else KeptLines(QaLines(lines)) == []
  {
    var q := LastNamed(lines, QA);
    if q < |lines| {
      var l := QaLines(lines)[0];
      assert l == lines[q] && l[0] == '#';
      assert LStrip(l) == l;
      assert RStrip(l) == QA;
    }
  }

  lemma MarkerIndex(a: seq<string>, b: seq<string>, x: string)
    requires x !in a && b != [] && b[0] == x
    ensures First(a + b, y => y == x) == |a|
  {
    assert (a + b)[|a|] == x;
    assert forall k | 0 <= k < |a| :: (a + b)[k] == a[k] && a[k] in a;
  }

  lemma SplitAtMarker(a: seq<string>, b: seq<string>, c: seq<string>, d: seq<string>, x: string)
    requires x !in a && x !in c && b != [] && b[0] == x && (d == [] || d[0] == x)
    ensures a + b == c + d <==> a == c && b == d
  {
    MarkerIndex(a, b, x);
    if a + b == c + d {
      assert x in c + d by { assert (a + b)[|a|] == x; }
      assert d != [] by { assert d == [] ==> c + d == c; }
      MarkerIndex(c, d, x);
      assert a == (a + b)[..|a|] && b == (a + b)[|a|..];
      assert c == (c + d)[..|c|] && d == (c + d)[|c|..];
    }
  }

  // ---- what acceptance means -------------------------------------------------

  lemma {:induction false} PhysicalIndex(lines: seq<string>)
    requires |lines| > 0
    ensures |Physical(lines)| == if lines[|lines| - 1] == "" then |lines| - 1 else |lines|
    ensures forall i | 0 <= i < |Physical(lines)| :: Physical(lines)[i] == if i < |lines| - 1 then ChopCR(lines[i]) else lines[i]
    decreases |lines|
  {
    if |lines| > 1 {
      PhysicalIndex(lines[1..]);
    }
  }

  /** In a text without `\r`, `splitlines` yields the lines themselves. */
  lemma PhysicalOfText(text: string)
    requires Plain(text) && '\r' !in text
    ensures var lines := Split(text);
            SplitLines(text) == if lines[|lines| - 1] == "" then lines[..|lines| - 1] else lines
  {
    var lines := Split(text);
    SplitLinesOfPlain(text);
    PhysicalIndex(lines);
    forall i | 0 <= i < |lines| ensures '\r' !in lines[i] {
      LinesOfText(text, '\r', i);
    }
    assert forall i | 0 <= i < |lines| :: ChopCR(lines[i]) == lines[i];
  }

  lemma {:induction false} LinesOfText(text: string, c: char, i: nat)
    requires c !in text && i < |Split(text)|
    ensures c !in Split(text)[i]
    decreases |text|
  {
    var k := IndexOf(text, '\n');
    if k < |text| && i > 0 {
      LinesOfText(text[k + 1..], c, i - 1);
    }
  }

  lemma HeadingNamesItself()
    ensures Named(QA, QA) && Named(TASK, TASK)
  {
    assert TASK[|TASK| - 1] == 'k' && QA[|QA| - 1] == 'k' && TASK[0] == QA[0] == '#';
    Trimmed(TASK);
    Trimmed(QA);
    assert TASK[..3] == "## " && QA[..3] == "## ";
  }

  lemma ShapeIsUnambiguous(text: string, task: nat, notes: nat, qa: nat)
    requires Shape(SplitLines(text), task, notes, qa)
    ensures Unambiguous(text)
  {
    SinglePosition(SplitLines(text), TASK);
    SinglePosition(SplitLines(text), QA);
  }

  lemma WellFormedHasQa(text: string)
    requires Plain(text) && '\r' !in text && WellFormed(text)
    ensures LastNamed(Split(text), QA) < |Split(text)|
    ensures Unambiguous(text)
  {
    var physical := SplitLines(text);
    StructureMeansShape(physical);
    var task: nat, notes: nat, qa: nat :| Shape(physical, task, notes, qa);
    ShapeIsUnambiguous(text, task, notes, qa);
    PhysicalOfText(text);
    HeadingNamesItself();
    assert Split(text)[qa] == physical[qa];
  }

  /** The planner-owned parts of two texts agree after normalisation. */
  ghost predicate SamePlannerText(before: string, after: string) {
    && KeptLines(PlanLines(Split(after))) == KeptLines(PlanLines(Split(before)))
    && KeptLines(QaLines(Split(after))) == KeptLines(QaLines(Split(before)))
  }

  /** The two owned parts cannot trade lines: the joint fingerprints agree after
    * normalisation only if each part does. */
  lemma FingerprintsAgree(before: string, after: string)
    requires Plain(before) && Plain(after) && '\r' !in after && WellFormed(after)
    ensures NormalizeOwned(Fingerprint(before)) == NormalizeOwned(Fingerprint(after))
            <==> Unambiguous(before) && SamePlannerText(before, after)
  {
    var a, b := Split(after), Split(before);
    WellFormedHasQa(after);
    KeptOfText(after);
    KeptOfText(before);
    QaPartStartsWithHeading(a);
    QaPartStartsWithHeading(b);
    NoQaInPlan(a);
    NoQaInPlan(b);
    SplitAtMarker(KeptLines(PlanLines(a)), KeptLines(QaLines(a)), KeptLines(PlanLines(b)), KeptLines(QaLines(b)), QA);
  }

  lemma KeptOfText(text: string)
    requires Plain(text)
    ensures NormalizeOwned(Fingerprint(text))
            == if Unambiguous(text) then KeptLines(PlanLines(Split(text))) + KeptLines(QaLines(Split(text))) else []
  {
    SplitIsLines(text);
    PlainIsPlainLines(text);
    KeptFingerprint(Split(text));
    assert NormalizeOwned("") == [];
  }

  lemma JudgeAccepts(before: HandoffDocument, after: HandoffDocument)
    ensures var verdict := Judge(before, after);
            && verdict.after == after
            && (verdict.accepted
                <==> (&& after.status == READY_FOR_QA
                      && NormalizeOwned(before.plannerFingerprint) == NormalizeOwned(after.plannerFingerprint)))
            && (verdict.note <==> verdict.accepted && before.plannerFingerprint != after.plannerFingerprint)
  {
  }

  lemma AcceptedByFingerprint(before: string, raw: string)
    requires Plain(before) && Plain(ReadText(raw))
    ensures var text := ReadText(raw);
            Evaluate(Parse(before), raw).accepted
            <==> && WellFormed(text)
                 && ReadStatus(text) == READY_FOR_QA
                 && Unambiguous(before)
                 && SamePlannerText(before, text)
  {
    JudgeAccepts(Parse(before), Parse(ReadText(raw)));
    if WellFormed(ReadText(raw)) {
      FingerprintsAgree(before, ReadText(raw));
    }
  }

  // ---- which differences are ignored ---------------------------------------------

  /** A line the comparison does not look at: a blank one, or `---` with nothing but
    * blanks behind it. */
  predicate Ignored(line: string) { Blank(line) || (StartsWith(line, RULE) && Blank(line[|RULE|..])) }

  /** The indices of the other lines, in ascending order. */
  function Significant(lines: seq<string>): (r: seq<nat>)
    ensures forall k | 0 <= k < |r| :: r[k] < |lines| && !Ignored(lines[r[k]])
    ensures forall i | 0 <= i < |lines| && !Ignored(lines[i]) :: i in r
    ensures forall j, k | 0 <= j < k < |r| :: r[j] < r[k]
  {
    if lines == [] then []
    else
      var n := |lines| - 1;
      var front := Significant(lines[..n]);
      assert forall k | 0 <= k < |front| :: front[k] < n && lines[..n][front[k]] == lines[front[k]];
      if Ignored(lines[n]) then front else front + [n]
  }

  /** Equal up to trailing blanks. */
  predicate UpToBlanks(a: string, b: string) {
    exists n | 0 <= n <= |a| && n <= |b| :: a[..n] == b[..n] && Blank(a[n..]) && Blank(b[n..])
  }

  /** The significant lines of the two are the same, one by one, up to trailing blanks. */
  ghost predicate SameSignificant(a: seq<string>, b: seq<string>) {
    && |Significant(a)| == |Significant(b)|
    && forall k | 0 <= k < |Significant(a)| :: UpToBlanks(a[Significant(a)[k]], b[Significant(b)[k]])
  }

  lemma {:induction false} RStripOf(s: string, n: nat)
    requires n <= |s| && Blank(s[n..])
    ensures RStrip(s) == RStrip(s[..n])
    decreases |s|
  {
    if n < |s| {
      assert s[n..][|s| - 1 - n] == s[|s| - 1];
      var t := s[..|s| - 1];
      assert t[n..] == s[n..|s| - 1] && t[..n] == s[..n];
      assert forall i | 0 <= i < |t[n..]| :: t[n..][i] == s[n..][i];
      RStripOf(t, n);
    } else {
      assert s[..n] == s;
    }
  }

  lemma RStripUpToBlanks(a: string, b: string)
    ensures RStrip(a) == RStrip(b) <==> UpToBlanks(a, b)
  {
    if RStrip(a) == RStrip(b) {
      RStripSpec(a);
      RStripSpec(b);
      var n := |RStrip(a)|;
      assert a[..n] == b[..n];
    }
    if UpToBlanks(a, b) {
      var n :| 0 <= n <= |a| && n <= |b| && a[..n] == b[..n] && Blank(a[n..]) && Blank(b[n..]);
      RStripOf(a, n);
      RStripOf(b, n);
    }
  }

  lemma BlankStrips(s: string)
    ensures RStrip(s) == "" <==> Blank(s)
  {
    RStripSpec(s);
    if Blank(s) {
      RStripOf(s, 0);
    }
  }

  lemma RuleStrips(s: string)
    ensures RStrip(s) == RULE <==> StartsWith(s, RULE) && Blank(s[|RULE|..])
  {
    RStripSpec(s);
    if StartsWith(s, RULE) && Blank(s[|RULE|..]) {
      RStripOf(s, |RULE|);
      assert RStrip(RULE) == RULE;
    }
  }

  lemma {:induction false} KeptAreSignificant(lines: seq<string>)
    ensures |KeptLines(lines)| == |Significant(lines)|
    ensures forall k | 0 <= k < |Significant(lines)| :: KeptLines(lines)[k] == RStrip(lines[Significant(lines)[k]])
    decreases |lines|
  {
    if lines != [] {
      var n := |lines| - 1;
      KeptAreSignificant(lines[..n]);
      KeptAppend(lines[..n], [lines[n]]);
      assert lines == lines[..n] + [lines[n]] && [lines[n]][1..] == [];
      BlankStrips(lines[n]);
      RuleStrips(lines[n]);
    }
  }

  /** What the comparison ignores, without naming how it compares. */
  lemma ComparedBySignificantLines(a: seq<string>, b: seq<string>)
    ensures KeptLines(a) == KeptLines(b) <==> SameSignificant(a, b)
  {
    KeptAreSignificant(a);
    KeptAreSignificant(b);
    forall k | 0 <= k < |Significant(a)| && k < |Significant(b)|
      ensures KeptLines(a)[k] == KeptLines(b)[k] <==> UpToBlanks(a[Significant(a)[k]], b[Significant(b)[k]])
    {
      RStripUpToBlanks(a[Significant(a)[k]], b[Significant(b)[k]]);
    }
  }

  /** Lines with each Status line cut down to its mark. */
  function Unmarked(lines: seq<string>): (r: seq<string>)
    ensures |r| == |lines|
    ensures forall i | 0 <= i < |lines| :: r[i] == if StatusLine(lines[i]) then STATUS_MARK else lines[i]
  {
    seq(|lines|, i requires 0 <= i < |lines| => if StatusLine(lines[i]) then STATUS_MARK else lines[i])
  }

  lemma UnmarkedAppend(a: seq<string>, b: seq<string>)
    ensures Unmarked(a + b) == Unmarked(a) + Unmarked(b)
  {
  }

  lemma {:induction false} BlanksVanish(blanks: seq<string>)
    requires forall l | l in blanks :: Blank(l)
    ensures KeptLines(Unmarked(blanks)) == []
    decreases |blanks|
  {
    if blanks != [] {
      assert blanks[0] in blanks && Unmarked(blanks)[1..] == Unmarked(blanks[1..]);
      BlankStrips(blanks[0]);
      StatusIsNotBlank(blanks[0]);
      BlanksVanish(blanks[1..]);
    }
  }

  lemma DropBlankKept(lines: seq<string>)
    ensures KeptLines(Unmarked(DropBlank(lines))) == KeptLines(Unmarked(lines))
  {
    var rest := DropBlank(lines);
    var blanks := lines[..|lines| - |rest|];
    assert lines == blanks + rest;
    UnmarkedAppend(blanks, rest);
    BlanksVanish(blanks);
    KeptAppend(Unmarked(blanks), Unmarked(rest));
  }

  lemma StatusIsNotBlank(l: string)
    ensures StatusLine(l) ==> !Blank(l)
  {
    if StatusLine(l) { assert l[0] == STATUS_MARK[0] == '*'; }
  }

  /** Where every Status line has a value, the plan compares like the section with each
    * Status line cut down to its mark. */
  lemma {:induction false} SubStatusKept(lines: seq<string>)
    requires forall l | l in lines && StatusLine(l) :: Valued(l)
    ensures KeptLines(SubStatus(lines)) == KeptLines(Unmarked(lines))
    decreases |lines|
  {
    if lines != [] {
      var l, rest := lines[0], lines[1..];
      assert l in lines && Unmarked(lines)[1..] == Unmarked(rest);
      if StatusLine(l) {
        var more := DropBlank(rest);
        assert forall x | x in more :: x in rest;
        SubStatusKept(more);
        DropBlankKept(rest);
      } else {
        SubStatusKept(rest);
      }
    }
  }

  /** The planner-owned lines of two texts, but for the Status value, blank lines, rules
    * and trailing blanks, are the same ones in the same order. */
  ghost predicate SameOwned(before: string, after: string) {
    && SameSignificant(PlanLines(Split(after)), PlanLines(Split(before)))
    && SameSignificant(QaLines(Split(after)), QaLines(Split(before)))
  }

  lemma OwnedBySignificantLines(before: string, after: string)
    ensures SamePlannerText(before, after) <==> SameOwned(before, after)
  {
    ComparedBySignificantLines(PlanLines(Split(after)), PlanLines(Split(before)));
    ComparedBySignificantLines(QaLines(Split(after)), QaLines(Split(before)));
  }

  /** A delivery is accepted exactly when the file is well formed, reads READY FOR QA,
    * and every line of Current Task (but for Status) and QA Feedback that is neither
    * blank nor a rule is the submitted one, in order, up to trailing blanks. */
  lemma AcceptedExactly(before: string, raw: string)
    requires Plain(before) && Plain(ReadText(raw))
    ensures var text := ReadText(raw);
            Evaluate(Parse(before), raw).accepted
            <==> WellFormed(text) && ReadStatus(text) == READY_FOR_QA && Unambiguous(before) && SameOwned(before, text)
  {
    AcceptedByFingerprint(before, raw);
    OwnedBySignificantLines(before, ReadText(raw));
  }

  /** The section under the first Current Task heading. */
  function TaskSection(lines: seq<string>): seq<string> {
    var c := FirstNamed(lines, TASK);
    if c == |lines| then [""] else lines[c..NextHeading(lines, c)]
  }

  lemma SectionKept(lines: seq<string>, c: nat)
    requires c < |lines|
    ensures KeptLines(Unmarked(SectionLines(lines, c))) == KeptLines(Unmarked(lines[c..NextHeading(lines, c)]))
  {
    var section := lines[c..NextHeading(lines, c)];
    if NextHeading(lines, c) < |lines| {
      FinalBlank(section);
    } else {
      assert section + [] == section;
    }
  }

  lemma FinalBlank(section: seq<string>)
    ensures KeptLines(Unmarked(section + [""])) == KeptLines(Unmarked(section))
  {
    BlanksVanish([""]);
    UnmarkedAppend(section, [""]);
    KeptAppend(Unmarked(section), Unmarked([""]));
  }

  lemma SectionValued(lines: seq<string>, c: nat)
    requires c < |lines| && forall l | l in lines[c..NextHeading(lines, c)] && StatusLine(l) :: Valued(l)
    ensures forall l | l in SectionLines(lines, c) && StatusLine(l) :: Valued(l)
  {
    StatusIsNotBlank("");
  }

  lemma PlanIsSection(lines: seq<string>)
    requires forall l | l in TaskSection(lines) && StatusLine(l) :: Valued(l)
    ensures KeptLines(PlanLines(lines)) == KeptLines(Unmarked(TaskSection(lines)))
  {
    var c := FirstNamed(lines, TASK);
    if c < |lines| {
      SectionValued(lines, c);
      SubStatusKept(SectionLines(lines, c));
      SectionKept(lines, c);
    } else {
      StatusIsNotBlank("");
      assert Unmarked([""]) == [""];
    }
  }

  /** The section under the last QA Feedback heading. */
  function QaSection(lines: seq<string>): seq<string> {
    var q := LastNamed(lines, QA);
    if q == |lines| then [""] else lines[q..NextHeading(lines, q)]
  }

  lemma QaIsSection(lines: seq<string>)
    ensures KeptLines(QaLines(lines)) == KeptLines(QaSection(lines))
  {
    var q := LastNamed(lines, QA);
    if q < |lines| && NextHeading(lines, q) < |lines| {
      KeptAppend(QaSection(lines), [""]);
      BlankStrips("");
      assert [""][1..] == [];
    } else if q < |lines| {
      assert QaSection(lines) + [] == QaSection(lines);
    }
  }

  /** Soundness in terms of the files: if a delivery is accepted, the lines between the
    * Current Task heading and the next heading that are neither Status, blank nor a rule
    * are the submitted ones, in order, up to trailing blanks -- provided every Status
    * line there has a value -- and so are the lines of QA Feedback. */
  lemma AcceptedKeepsSections(before: string, raw: string)
    requires Plain(before) && Plain(ReadText(raw)) && Evaluate(Parse(before), raw).accepted
    ensures SameSignificant(QaSection(Split(ReadText(raw))), QaSection(Split(before)))
    ensures var a, b := TaskSection(Split(ReadText(raw))), TaskSection(Split(before));
            (forall l | (l in a || l in b) && StatusLine(l) :: Valued(l)) ==> SameSignificant(Unmarked(a), Unmarked(b))
  {
    var a, b := Split(ReadText(raw)), Split(before);
    AcceptedByFingerprint(before, raw);
    QaIsSection(a);
    QaIsSection(b);
    ComparedBySignificantLines(QaSection(a), QaSection(b));
    if forall l | (l in TaskSection(a) || l in TaskSection(b)) && StatusLine(l) :: Valued(l) {
      PlanIsSection(a);
      PlanIsSection(b);
      ComparedBySignificantLines(Unmarked(TaskSection(a)), Unmarked(TaskSection(b)));
    }
  }
}
