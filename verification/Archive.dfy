/** HANDOFF-ARCHIVE.md: what `archive_current` appends, and what the duplicate
  * check reads back.
  *
  * Files are read and written as text, so no `\r` occurs.
  */
module Archive {
  import opened Wrappers
  import opened Text
  import opened Handoff
  import opened StatusWrites
  import opened Acceptance
  import opened Delivery
  import opened Qa
  import opened QaWrites

  const ARCHIVED := "# Archived "
  const SUPERSEDED := "# Superseded "

  predicate IsHeader(line: string) { StartsWith(line, ARCHIVED) || StartsWith(line, SUPERSEDED) }

  function HeaderCount(lines: seq<string>): nat {
    if lines == [] then 0 else (if IsHeader(lines[0]) then 1 else 0) + HeaderCount(lines[1..])
  }

  function LastHeader(lines: seq<string>): (i: nat)
    ensures i <= |lines|
    ensures i < |lines| ==> IsHeader(lines[i]) && forall k | i < k < |lines| :: !IsHeader(lines[k])
    ensures i == |lines| ==> forall k | 0 <= k < |lines| :: !IsHeader(lines[k])
  {
    Last(lines, line => IsHeader(line))
  }

  /** An archive entry: its number, header line, and Status-insensitive Current Task. */
  datatype Entry = Entry(index: nat, header: string, key: string)

  /** The key of an entry: its Current Task, when that is there and unambiguous. */
  function Key(lines: seq<string>): Option<string>
    requires lines != []
  {
    var task := CurrentTask(Join(lines));
    if task.Err? || task.value == "" then None else Some(task.value)
  }

  function EntryWith(lines: seq<string>, i: nat, key: Option<string>): Option<Entry>
    requires i < |lines|
  {
    if key.None? then None else Some(Entry(HeaderCount(lines), lines[i], key.value))
  }

  function LastEntry(lines: seq<string>): Option<Entry> {
    var i := LastHeader(lines);
    if i == |lines| then None else EntryWith(lines, i, Key(lines[i..]))
  }

  /** `_last_archived_task` */
  function LastArchived(archive: string): Option<Entry> { LastEntry(Split(ReadText(archive))) }

  /** `_duplicate_archive`: the entry the task was last archived as. */
  function Duplicate(archive: string, markdown: string): Option<Entry> {
    var last, current := LastArchived(archive), CurrentTask(ReadText(markdown));
    if last.Some? && current.Ok? && current.value != "" && last.value.key == current.value then last else None
  }

  /** The chunks from the first one that starts with the task heading. */
  function TaskChunks(chunks: seq<string>): seq<string> {
    if chunks == [] then [] else if StartsWith(chunks[0], TASK) then chunks else TaskChunks(chunks[1..])
  }

  /** The text `archive_current` writes: a rule, the header, the workflow's lines,
    * and the document from Current Task on. */
  function Appended(archive: string, header: string, extra: string, markdown: string): string {
    archive + "\n---\n\n" + header + LF + extra + LF + Concat(TaskChunks(SplitKeepEnds(markdown)))
  }

  // ---- the archived text, as lines ------------------------------------------------

  /** The lines from the first one that starts with the task heading. */
  function TaskLines(lines: seq<string>): (r: seq<string>)
    ensures |r| <= |lines| && r == lines[|lines| - |r|..]
    ensures r != [] ==> StartsWith(r[0], TASK)
    ensures forall i | 0 <= i < |lines| - |r| :: !StartsWith(lines[i], TASK)
  {
    if lines == [] then [] else if StartsWith(lines[0], TASK) then lines else TaskLines(lines[1..])
  }

  lemma ChunkStarts(l: string)
    ensures StartsWith(l + LF, TASK) <==> StartsWith(l, TASK)
  {
    assert TASK[|TASK| - 1] == 'k';
    if |TASK| <= |l| {
      assert (l + LF)[..|TASK|] == l[..|TASK|];
    } else {
      assert (l + LF)[|l|] == '\n';
    }
  }

  lemma ChunkOfLine(l: string, b: string)
    requires '\n' !in l && PlainLine(l) && '\r' !in l
    ensures SplitKeepEnds(l + LF + b) == [l + LF] + SplitKeepEnds(b)
  {
    var t := l + LF + b;
    assert forall i | 0 <= i < |l| :: t[i] == l[i] && l[i] in l;
    assert t[|l|] == '\n' && IsBreak('\n');
    BreakAtIs(t, |l|);
    assert LineLength(t) == |l| + 1;
    assert t[..|l| + 1] == l + LF && t[|l| + 1..] == b;
  }

  lemma {:induction false} ArchivedText(t: string)
    requires Plain(t) && '\r' !in t
    ensures var lines := TaskLines(Split(t));
            Concat(TaskChunks(SplitKeepEnds(t))) == if lines == [] then "" else Join(lines)
    decreases |t|
  {
    var l, b := SplitCases(t);
    if '\n' in t {
      PlainCons(l, b);
      ChunkOfLine(l, b);
      ChunkStarts(l);
      ArchivedText(b);
      if StartsWith(l, TASK) {
        ConcatOfSplit(t);
        JoinOfSplit(t);
      }
    } else {
      PlainSingle(t);
      LastChunk(t);
    }
  }

  lemma LastChunk(t: string)
    requires PlainEnd(t)
    ensures SplitKeepEnds(t) == if t == "" then [] else [t]
    ensures Concat(TaskChunks(SplitKeepEnds(t))) == if StartsWith(t, TASK) then t else ""
  {
    assert BreakAt(t) == |t|;
    assert TASK != "";
    if t != "" {
      assert t[..|t|] == t && t[|t|..] == "";
      assert SplitKeepEnds("") == [];
      assert [t][1..] == [] && t + "" == t;
    }
  }

  // ---- the archive file, as lines ------------------------------------------------------

  lemma SplitThree(a: string, b: string, c: string)
    ensures Split(a + LF + b + LF + c) == Split(a) + Split(b) + Split(c)
  {
    SplitAtBreak(a, b);
    SplitAtBreak(a + LF + b, c);
  }

  lemma SplitFour(a: string, b: string, c: string, d: string)
    ensures Split(a + LF + b + LF + c + LF + d) == Split(a) + Split(b) + Split(c) + Split(d)
  {
    SplitThree(a, b, c);
    SplitAtBreak(a + LF + b + LF + c, d);
  }

  /** The lines the markdown adds to an entry. */
  function TaskPart(markdown: string): seq<string> {
    var lines := TaskLines(Split(markdown));
    if lines == [] then [""] else lines
  }

  lemma TaskPartSplit(markdown: string)
    requires Plain(markdown) && '\r' !in markdown
    ensures Split(Concat(TaskChunks(SplitKeepEnds(markdown)))) == TaskPart(markdown)
  {
    ArchivedText(markdown);
    SplitIsLines(markdown);
    if TaskLines(Split(markdown)) != [] {
      SplitOfJoin(TaskLines(Split(markdown)));
    }
  }

  lemma AppendedSplit(archive: string, header: string, extra: string, markdown: string)
    requires '\n' !in header && Plain(markdown) && '\r' !in markdown
    ensures Split(Appended(archive, header, extra, markdown))
            == Split(archive) + ["---", ""] + ([header] + (Split(extra) + TaskPart(markdown)))
  {
    var t := Concat(TaskChunks(SplitKeepEnds(markdown)));
    TaskPartSplit(markdown);
    Rule(archive, header, extra, t);
    SplitFour(archive, "---", "", header + LF + extra + LF + t);
    SplitThree(header, extra, t);
  }

  lemma Rule(archive: string, header: string, extra: string, t: string)
    ensures archive + "\n---\n\n" + header + LF + extra + LF + t
            == archive + LF + "---" + LF + "" + LF + (header + LF + extra + LF + t)
  {
    assert "\n---\n\n" == LF + "---" + LF + "" + LF;
  }

  lemma {:induction false} HeaderCountAppend(a: seq<string>, b: seq<string>)
    ensures HeaderCount(a + b) == HeaderCount(a) + HeaderCount(b)
    decreases |a|
  {
    if a == [] {
      assert a + b == b;
    } else {
      assert (a + b)[1..] == a[1..] + b;
      HeaderCountAppend(a[1..], b);
    }
  }

  lemma {:induction false} NoHeaderNoCount(lines: seq<string>)
    ensures HeaderCount(lines) == 0 <==> forall i | 0 <= i < |lines| :: !IsHeader(lines[i])
    decreases |lines|
  {
    if lines != [] {
      NoHeaderNoCount(lines[1..]);
      assert forall i | 0 < i < |lines| :: lines[i] == lines[1..][i - 1];
    }
  }

  lemma {:induction false} ReadNoCR(t: string)
    requires '\r' !in t
    ensures ReadText(t) == t
    decreases |t|
  {
    if t != "" {
      assert t[0] in t;
      ReadNoCR(t[1..]);
    }
  }

  ghost predicate NoHeaders(lines: seq<string>) { forall l | l in lines :: !IsHeader(l) }

  // ---- the task as the reader sees it ----------------------------------------------------

  /** A document fit to be archived, read as text. */
  ghost predicate Document(markdown: string) { Plain(markdown) && '\r' !in markdown && WellFormed(markdown) }

  /** What surrounds the task in an entry: an archive header, and workflow lines that
    * are neither headers nor headings. */
  ghost predicate Framing(header: string, extra: string) {
    && IsHeader(header) && PlainEnd(header)
    && forall l | l in Split(extra) :: PlainEnd(l) && !IsHeader(l) && !IsHeading(l)
  }

  lemma HeaderIsNoHeading(l: string)
    requires IsHeader(l)
    ensures !IsHeading(l) && l != TASK && l != QA && !StartsWith(l, TASK)
  {
    assert ARCHIVED[1] == SUPERSEDED[1] == ' ' && TASK[1] == QA[1] == '#';
    assert l[1] == ' ';
  }

  lemma {:induction false} AtMostOne(xs: seq<string>, x: string)
    requires forall i, j | 0 <= i < |xs| && 0 <= j < |xs| && xs[i] == x && xs[j] == x :: i == j
    ensures |Positions(xs, x)| <= 1
  {
    if x in xs {
      var p :| 0 <= p < |xs| && xs[p] == x;
      SinglePosition(xs, x);
      assert OnlyAt(xs, x, p);
    }
  }

  /** Occurrences in a suffix are occurrences in the whole. */
  lemma OnceInSuffix(front: seq<string>, tail: seq<string>, x: string, p: nat, other: seq<string>)
    requires OnlyAt(front + tail, x, p) && x !in other
    ensures forall i, j | 0 <= i < |other + tail| && 0 <= j < |other + tail|
                          && (other + tail)[i] == x && (other + tail)[j] == x :: i == j
  {
    forall i | 0 <= i < |other| ensures (other + tail)[i] != x {
      assert other[i] in other;
    }
    forall i | |other| <= i < |other + tail| && (other + tail)[i] == x ensures i == p - |front| + |other| {
      assert (front + tail)[|front| + (i - |other|)] == x;
    }
  }

  lemma NamedStarts(l: string)
    requires Named(l, TASK)
    ensures StartsWith(l, TASK)
  {
    assert l[0] == '#' && l[..3] == "## ";
    assert LStrip(l) == l;
    RStripSpec(l);
  }

  lemma TaskFound(lines: seq<string>)
    requires FirstNamed(lines, TASK) < |lines|
    ensures TaskLines(lines) != []
  {
    NamedStarts(lines[FirstNamed(lines, TASK)]);
  }

  lemma NoTaskBefore(lines: seq<string>)
    ensures forall l | l in lines[..|lines| - |TaskLines(lines)|] :: !Named(l, TASK)
  {
    var front := lines[..|lines| - |TaskLines(lines)|];
    forall i | 0 <= i < |front| ensures !Named(front[i], TASK) {
      assert front[i] == lines[i];
      if Named(lines[i], TASK) {
        NamedStarts(lines[i]);
      }
    }
  }

  lemma BeforeSuffix<T>(xs: seq<T>, tail: seq<T>)
    requires |tail| <= |xs| && tail == xs[|xs| - |tail|..]
    ensures xs == xs[..|xs| - |tail|] + tail
  {
  }

  lemma TaskCut(lines: seq<string>) returns (front: seq<string>)
    requires FirstNamed(lines, TASK) < |lines|
    ensures TaskLines(lines) != [] && lines == front + TaskLines(lines)
    ensures forall l | l in front :: !Named(l, TASK)
  {
    TaskFound(lines);
    NoTaskBefore(lines);
    BeforeSuffix(lines, TaskLines(lines));
    front := lines[..|lines| - |TaskLines(lines)|];
  }

  lemma TaskPartOf(markdown: string) returns (front: seq<string>)
    requires FirstNamed(Split(markdown), TASK) < |Split(markdown)|
    ensures Split(markdown) == front + TaskPart(markdown)
    ensures forall l | l in front :: !Named(l, TASK)
  {
    front := TaskCut(Split(markdown));
  }

  /** The document before its task part, and the task part. */
  lemma TaskPartIsSuffix(markdown: string) returns (front: seq<string>)
    requires Document(markdown)
    ensures Split(markdown) == front + TaskPart(markdown)
    ensures forall l | l in front :: !Named(l, TASK)
  {
    TaskIsNamed(markdown);
    front := TaskPartOf(markdown);
  }

  lemma DocumentShape(markdown: string) returns (task: nat, notes: nat, qa: nat)
    requires Document(markdown)
    ensures Shape(Split(markdown), task, notes, qa)
  {
    WellFormedLines(markdown);
    task, notes, qa :| Shape(Split(markdown), task, notes, qa);
  }

  lemma TaskIsNamed(markdown: string)
    requires Document(markdown)
    ensures FirstNamed(Split(markdown), TASK) < |Split(markdown)|
  {
    var task, notes, qa := DocumentShape(markdown);
    HeadingNamesItself();
    assert Named(Split(markdown)[task], TASK);
  }

  // ---- the round trip -----------------------------------------------------------------------

  /** The entry as the reader cuts it out, when no line of the task looks like a header. */
  function EntryLines(header: string, extra: string, markdown: string): seq<string> {
    [header] + (Split(extra) + TaskPart(markdown))
  }

  lemma FramingHasNoTask(header: string, extra: string)
    requires Framing(header, extra)
    ensures forall l | l in [header] + Split(extra) :: !Named(l, TASK) && l != TASK && l != QA && PlainEnd(l)
  {
    HeaderIsNoHeading(header);
  }

  lemma EntryPlan(header: string, extra: string, markdown: string)
    requires Framing(header, extra) && Document(markdown)
    ensures PlanLines(EntryLines(header, extra, markdown)) == PlanLines(Split(markdown))
  {
    var front := TaskPartIsSuffix(markdown);
    FramingHasNoTask(header, extra);
    Assoc([header], Split(extra), TaskPart(markdown));
    PlanInSuffix([header] + Split(extra), TaskPart(markdown));
    PlanInSuffix(front, TaskPart(markdown));
  }

  lemma EntryBare(header: string, extra: string, markdown: string)
    requires Framing(header, extra) && Document(markdown)
    ensures BareLines(EntryLines(header, extra, markdown))
  {
    BareText(markdown);
    FramingHasNoTask(header, extra);
    var front := TaskPartIsSuffix(markdown);
    forall l | l in TaskPart(markdown) ensures PlainEnd(l) {
      assert l in Split(markdown);
    }
  }

  /** In a text of bare lines, `splitlines` sees `x` as often as the lines do. */
  lemma OnceInText(lines: seq<string>, x: string)
    requires BareLines(lines) && lines != []
    requires forall i, j | 0 <= i < |lines| && 0 <= j < |lines| && lines[i] == x && lines[j] == x :: i == j
    ensures |Positions(SplitLines(Join(lines)), x)| <= 1
  {
    BareJoin(lines);
    SplitOfJoin(lines);
    PhysicalOfText(Join(lines));
    var physical := SplitLines(Join(lines));
    assert forall i | 0 <= i < |physical| :: i < |lines| && physical[i] == lines[i];
    AtMostOne(physical, x);
  }

  lemma OnceInEntry(header: string, extra: string, markdown: string, x: string, p: nat)
    requires Framing(header, extra) && Document(markdown) && OnlyAt(Split(markdown), x, p)
    requires x !in [header] + Split(extra)
    ensures |Positions(SplitLines(Join(EntryLines(header, extra, markdown))), x)| <= 1
  {
    var front := TaskPartIsSuffix(markdown);
    EntryBare(header, extra, markdown);
    Assoc([header], Split(extra), TaskPart(markdown));
    OnceInSuffix(front, TaskPart(markdown), x, p, [header] + Split(extra));
    OnceInText(EntryLines(header, extra, markdown), x);
  }

  lemma EntryUnambiguous(header: string, extra: string, markdown: string)
    requires Framing(header, extra) && Document(markdown)
    ensures Unambiguous(Join(EntryLines(header, extra, markdown)))
  {
    var task, notes, qa := DocumentShape(markdown);
    FramingHasNoTask(header, extra);
    OnceInEntry(header, extra, markdown, TASK, task);
    OnceInEntry(header, extra, markdown, QA, qa);
  }

  /** The entry's key is the plan of the document. */
  lemma EntryKey(header: string, extra: string, markdown: string)
    requires Framing(header, extra) && Document(markdown)
    ensures CurrentTask(Join(EntryLines(header, extra, markdown))) == CurrentTask(markdown)
    ensures CurrentTask(markdown).Ok? && CurrentTask(markdown).value != ""
  {
    var lines := EntryLines(header, extra, markdown);
    EntryUnambiguous(header, extra, markdown);
    EntryPlan(header, extra, markdown);
    EntryBare(header, extra, markdown);
    BareJoin(lines);
    SplitOfJoin(lines);
    WellFormedHasQa(markdown);
    PlanIsNotEmpty(markdown);
  }

  lemma PlanIsNotEmpty(markdown: string)
    requires Document(markdown)
    ensures Join(PlanLines(Split(markdown))) != ""
  {
    var lines := Split(markdown);
    TaskIsNamed(markdown);
    var c := FirstNamed(lines, TASK);
    var section := SectionLines(lines, c);
    assert section[0] == lines[c] && IsHeading(lines[c]);
    assert !StatusLine(lines[c]) by {
      assert lines[c][0] == '#' && STATUS_MARK[0] == '*';
    }
    assert PlanLines(lines)[0] == lines[c];
  }

  /** Where the reader looks: the last header line of the file. */
  lemma LastHeaderAt(a: seq<string>, header: string, b: seq<string>)
    requires IsHeader(header) && NoHeaders(b)
    ensures LastHeader(a + ([header] + b)) == |a| && (a + ([header] + b))[|a|..] == [header] + b
  {
    var lines := a + ([header] + b);
    assert lines[|a|] == header;
    forall i | |a| < i < |lines| ensures !IsHeader(lines[i]) {
      assert lines[i] == b[i - |a| - 1];
    }
  }

  /** The lines the reader gets from a file just appended to. */
  lemma LinesRead(archive: string, header: string, extra: string, markdown: string)
    requires Framing(header, extra) && Document(markdown) && '\r' !in archive && '\r' !in extra
    ensures LastArchived(Appended(archive, header, extra, markdown))
            == LastEntry(Split(archive) + ["---", ""] + EntryLines(header, extra, markdown))
  {
    AppendedSplit(archive, header, extra, markdown);
    AppendedHasNoCR(archive, header, extra, markdown);
    ReadNoCR(Appended(archive, header, extra, markdown));
  }

  /** What is read back right after a task was archived. */
  lemma ReadBackEntry(archive: string, header: string, extra: string, markdown: string)
    requires Framing(header, extra) && Document(markdown) && '\r' !in archive && '\r' !in extra
    requires NoHeaders(TaskPart(markdown))
    ensures CurrentTask(markdown).Ok? && CurrentTask(markdown).value != ""
    ensures LastArchived(Appended(archive, header, extra, markdown))
            == Some(Entry(HeaderCount(Split(archive)) + 1, header, CurrentTask(markdown).value))
  {
    EntryKey(header, extra, markdown);
    LinesRead(archive, header, extra, markdown);
    FramingHeaders(header, extra);
    HeaderFound(Split(archive), ["---", ""], header, Split(extra), TaskPart(markdown));
  }

  lemma FramingHeaders(header: string, extra: string)
    requires Framing(header, extra)
    ensures IsHeader(header) && NoHeaders(Split(extra)) && NoHeaders(["---", ""])
  {
    assert ARCHIVED[0] == SUPERSEDED[0] == '#';
  }

  /** The header the reader finds, and how it numbers the entry. */
  lemma HeaderFound(a: seq<string>, rule: seq<string>, header: string, x: seq<string>, t: seq<string>)
    requires IsHeader(header) && NoHeaders(rule) && NoHeaders(x) && NoHeaders(t)
    ensures var lines, i := a + rule + ([header] + (x + t)), |a + rule|;
            && LastHeader(lines) == i < |lines| && lines[i..] == [header] + (x + t) && lines[i] == header
            && HeaderCount(lines) == HeaderCount(a) + 1
  {
    LastHeaderAt(a + rule, header, x + t);
    CountHeaders(a, rule, header, x, t);
  }

  lemma {:induction false} ConcatHasNot(chunks: seq<string>, c: char)
    requires c !in Concat(chunks)
    ensures c !in Concat(TaskChunks(chunks))
    decreases |chunks|
  {
    if chunks != [] && !StartsWith(chunks[0], TASK) {
      forall i | 0 <= i < |Concat(chunks[1..])| ensures Concat(chunks[1..])[i] != c {
        assert Concat(chunks)[|chunks[0]| + i] == Concat(chunks[1..])[i];
      }
      ConcatHasNot(chunks[1..], c);
    }
  }

  lemma AppendedHasNoCR(archive: string, header: string, extra: string, markdown: string)
    requires '\r' !in archive && '\r' !in extra && '\r' !in markdown && PlainEnd(header)
    ensures '\r' !in Appended(archive, header, extra, markdown)
  {
    ConcatOfSplit(markdown);
    ConcatHasNot(SplitKeepEnds(markdown), '\r');
  }

  lemma CountHeaders(a: seq<string>, rule: seq<string>, header: string, x: seq<string>, t: seq<string>)
    requires IsHeader(header) && NoHeaders(rule) && NoHeaders(x)
    ensures HeaderCount(a + rule + ([header] + (x + t))) == HeaderCount(a) + 1 + HeaderCount(t)
    ensures NoHeaders(t) <==> HeaderCount(t) == 0
  {
    HeaderCountAppend(a + rule, [header] + (x + t));
    HeaderCountAppend(a, rule);
    HeaderCountAppend([header], x + t);
    HeaderCountAppend(x, t);
    NoHeaderNoCount(rule);
    NoHeaderNoCount(x);
    NoHeaderNoCount(t);
  }

  /** The reader recovers exactly the archived task, its header and its number --
    * one more than before -- if and only if no line of the archived text from
    * Current Task on looks like an archive header. */
  lemma ArchiveRoundTripExactly(archive: string, header: string, extra: string, markdown: string)
    requires Framing(header, extra) && Document(markdown) && '\r' !in archive && '\r' !in extra
    ensures CurrentTask(markdown).Ok?
    ensures LastArchived(Appended(archive, header, extra, markdown))
            == Some(Entry(HeaderCount(Split(archive)) + 1, header, CurrentTask(markdown).value))
            <==> NoHeaders(TaskPart(markdown))
  {
    EntryKey(header, extra, markdown);
    if NoHeaders(TaskPart(markdown)) {
      ReadBackEntry(archive, header, extra, markdown);
    } else {
      LinesRead(archive, header, extra, markdown);
      FramingHeaders(header, extra);
      CountHeaders(Split(archive), ["---", ""], header, Split(extra), TaskPart(markdown));
    }
  }

  /** An immediate re-archive is refused exactly when the plan is the archived one:
    * whatever happened to Status, notes, QA or newline style, and never for
    * another plan. */
  lemma ReArchiveRefusedExactly(archive: string, header: string, extra: string, markdown: string, next: string)
    requires Framing(header, extra) && Document(markdown) && '\r' !in archive && '\r' !in extra
    requires NoHeaders(TaskPart(markdown))
    ensures Duplicate(Appended(archive, header, extra, markdown), next).Some?
            <==> CurrentTask(ReadText(next)) == CurrentTask(markdown)
  {
    ReadBackEntry(archive, header, extra, markdown);
  }

  // ---- after the usual edits -----------------------------------------------------------

  lemma WellFormedIsUnambiguous(text: string)
    requires WellFormed(text)
    ensures Unambiguous(text)
  {
    StructureMeansShape(SplitLines(text));
    var task: nat, notes: nat, qa: nat :| Shape(SplitLines(text), task, notes, qa);
    ShapeIsUnambiguous(text, task, notes, qa);
  }

  /** After a Status write, in either newline style, a re-archive is refused exactly
    * if the archived Status line had swallowed no plan line. */
  lemma RefusedAfterStatus(archive: string, header: string, extra: string, markdown: string, s: string, next: string)
    requires Framing(header, extra) && Document(markdown) && '\r' !in archive && '\r' !in extra
    requires NoHeaders(TaskPart(markdown)) && ValidStatus(s) && ReadText(next) == ReplaceStatus(markdown, s)
    ensures Duplicate(Appended(archive, header, extra, markdown), next).Some? <==> !StatusSwallowsPlan(Split(markdown))
  {
    PlainTakesNothing(markdown);
    StatusKeepsStructure(markdown, s);
    WellFormedIsUnambiguous(markdown);
    WellFormedIsUnambiguous(ReadText(next));
    LinesOfReplace(markdown, s);
    StatusWriteKeepsPlan(Split(markdown), s);
    PlanTexts(ReadText(next), markdown);
    ReArchiveRefusedExactly(archive, header, extra, markdown, next);
  }

  /** Likewise after a QA write that passes the structure guard. */
  lemma RefusedAfterQa(archive: string, header: string, extra: string, markdown: string,
                       qaBody: string, status: Option<string>, append: bool, next: string)
    requires Framing(header, extra) && Document(markdown) && '\r' !in archive && '\r' !in extra
    requires NoHeaders(TaskPart(markdown)) && QaParts(markdown).Some? && (status.Some? ==> ValidStatus(status.value))
    requires RenderQa(markdown, qaBody, status, append) == Ok(ReadText(next)) && WellFormed(ReadText(next))
    ensures Duplicate(Appended(archive, header, extra, markdown), next).Some?
            <==> (status.Some? ==> !StatusSwallowsPlan(Split(markdown)))
  {
    WellFormedIsUnambiguous(markdown);
    WellFormedIsUnambiguous(ReadText(next));
    WriteKeepsPlanExactly(markdown, qaBody, status, append);
    PlanTexts(ReadText(next), markdown);
    ReArchiveRefusedExactly(archive, header, extra, markdown, next);
  }

  /** Likewise after a delivery that rewrote Execution Notes. */
  lemma RefusedAfterDelivery(archive: string, header: string, extra: string, markdown: string,
                             body: seq<string>, task: nat, notes: nat, qa: nat, next: string)
    requires Framing(header, extra) && Document(markdown) && '\r' !in archive && '\r' !in extra
    requires NoHeaders(TaskPart(markdown)) && Delivery.Document(Split(markdown), task, notes, qa) && NotesBody(body)
    requires ReadText(next) == Join(Deliver(Split(markdown), body))
    ensures Duplicate(Appended(archive, header, extra, markdown), next).Some? <==> !StatusSwallowsPlan(Split(markdown))
  {
    DeliveredText(markdown, next, body, task, notes, qa);
    DocumentUnambiguous(markdown, task, notes, qa);
    DeliveredParts(Split(markdown), body, task, notes, qa);
    PlanTexts(ReadText(next), markdown);
    ReArchiveRefusedExactly(archive, header, extra, markdown, next);
  }

  /** The failing case: a header-like line below the task heading hides the task,
    * and nothing is refused any more. */
  lemma HeaderLineHidesTask(lines: seq<string>, archive: string, k: nat, next: string)
    requires lines == Split(archive) && '\r' !in archive && k < |lines| && IsHeader(lines[k])
    requires forall i | k < i < |lines| :: !Named(lines[i], TASK)
    ensures LastArchived(archive) == None && Duplicate(archive, next) == None
  {
    ReadNoCR(archive);
    SplitIsLines(archive);
    var i := LastHeader(lines);
    HeaderIsNoHeading(lines[i]);
    forall l | l in lines[i..] ensures !Named(l, TASK) {
      var j :| i <= j < |lines| && lines[j] == l;
    }
    NoTaskNoKey(lines[i..]);
  }

  lemma NoTaskNoKey(entry: seq<string>)
    requires IsLines(entry) && forall l | l in entry :: !Named(l, TASK)
    ensures Key(entry) == None
  {
    SplitOfJoin(entry);
    assert forall k | 0 <= k < |entry| :: entry[k] in entry;
    assert FirstNamed(entry, TASK) == |entry|;
    assert PlanLines(entry) == [""];
  }
}
