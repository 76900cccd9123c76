/** Archiving a task when the command is cut short and run again: the task is
  * appended to the archive once.
  */
module Closing {
  import opened Wrappers
  import opened Text
  import opened Handoff
  import opened Store
  import opened Workflow
  import opened Rounds
  import A = Archive

  /** A disk `archive_current` can work on, whose texts are as the archive reader expects them. */
  ghost predicate Closable(d: Disk, superseded: bool) {
    Archivable(d, superseded) && A.Document(d.handoff) && '\r' !in ArchiveText(d)
  }

  ghost predicate Entry(header: string, extra: string) { A.Framing(header, extra) && '\r' !in extra }

  /** The writes of `archive_current` before it touches the archive file. */
  function Before(d: Disk): nat { if d.workflow.Some? then 2 else 0 }

  /** The archive command cut after `k` writes. */
  function CutArchive(d: Disk, superseded: bool, header: string, extra: string, k: nat): Disk {
    Apply(d, Prefix(ArchiveWrites(d, superseded, header, extra), k))
  }

  /** The command as a whole. */
  function Archived(d: Disk, superseded: bool, header: string, extra: string): Disk {
    Apply(d, ArchiveWrites(d, superseded, header, extra))
  }

  lemma InNone(a: string, b: string, c: string, x: char)
    requires x !in a && x !in b && x !in c
    ensures x !in a + b + c
  {
  }

  lemma NoteStart(a: string)
    requires a == "Completed tasks, appended verbatim "
    ensures '\n' !in a && '\r' !in a && a != "" && a[0] == 'C'
  {
  }

  lemma NoteMiddle(b: string)
    requires b == "by `handoff archive`. "
    ensures '\n' !in b && '\r' !in b
  {
  }

  lemma NoteEnd(c: string)
    requires c == "Local-only (git-excluded)."
    ensures '\n' !in c && '\r' !in c
  {
  }

  lemma TitleNote()
    ensures '\n' !in TITLE_NOTE && '\r' !in TITLE_NOTE && TITLE_NOTE != "" && TITLE_NOTE[0] == 'C'
  {
    var a, b, c := "Completed tasks, appended verbatim ", "by `handoff archive`. ", "Local-only (git-excluded).";
    NoteStart(a);
    NoteMiddle(b);
    NoteEnd(c);
    InNone(a, b, c, '\n');
    InNone(a, b, c, '\r');
  }

  lemma FourLines(x: string, note: string, lines: seq<string>)
    requires lines == [x, "", note, ""] && '\n' !in x && '\n' !in note && '\r' !in x && '\r' !in note
    ensures IsLines(lines) && '\r' !in Join(lines)
  {
    assert lines[1..] == ["", note, ""] && ["", note, ""][1..] == [note, ""] && [note, ""][1..] == [""];
    assert Join([""]) == "" && Join([note, ""]) == note + LF + "";
    assert Join(["", note, ""]) == "" + LF + (note + LF + "");
  }

  lemma TitleHasNoHeader(x: string, note: string, lines: seq<string>)
    requires lines == [x, "", note, ""] && |x| > 2 && x[2] == 'H' && note != "" && note[0] == 'C'
    ensures A.LastHeader(lines) == 4
  {
    assert A.ARCHIVED[2] == 'A' && A.SUPERSEDED[2] == 'S' && A.ARCHIVED[0] == '#' && A.SUPERSEDED[0] == '#';
  }

  lemma TitleIsNoEntry(markdown: string)
    ensures '\r' !in ARCHIVE_TITLE && A.Duplicate(ARCHIVE_TITLE, markdown) == None
  {
    TitleNote();
    FourLines("# HANDOFF Archive", TITLE_NOTE, TITLE_LINES);
    TitleHasNoHeader("# HANDOFF Archive", TITLE_NOTE, TITLE_LINES);
    A.ReadNoCR(ARCHIVE_TITLE);
    SplitOfJoin(TITLE_LINES);
  }

  lemma WholeArchive(d: Disk, superseded: bool, header: string, extra: string)
    requires Archivable(d, superseded)
    ensures var after := Archived(d, superseded, header, extra);
            && after.archive == Some(A.Appended(ArchiveText(d), header, extra, d.handoff)) && after.workflow.None?
  {
    var append := AppendArchive(header, extra, d.handoff);
    var ws := ClosingWrites(d.workflow, superseded, append);
    ClosingDisks(d, superseded, append, |ws|);
  }

  /** An archive is written exactly if nothing is outstanding, the document is well
    * formed and not the one archived last, its plan is the approved one, and either
    * Status is APPROVED or, to supersede, the receipt's rounds are used up and none is
    * reserved; the receipt is then closed as what it was asked to be.  A refused one
    * writes nothing. */
  lemma ArchivesExactly(d: Disk, superseded: bool, header: string, extra: string)
    ensures var after := Archived(d, superseded, header, extra);
            var fit := && d.outstanding.None? && WellFormed(d.handoff)
                       && (d.archive.Some? ==> A.Duplicate(d.archive.value, d.handoff).None?)
                       && (d.workflow.Some? && CurrentTask(d.handoff).Ok? ==> CurrentTask(d.handoff).value == d.workflow.value.plan)
                       && (if superseded then
                             && d.workflow.Some? && d.workflow.value.reserved.None?
                             && d.workflow.value.roundsUsed >= (if d.workflow.value.maxRounds == 0 then 3 else d.workflow.value.maxRounds)
                           else ReadStatus(d.handoff) == APPROVED);
            && (fit ==>
                  && after.archive == Some(A.Appended(ArchiveText(d), header, extra, d.handoff)) && after.workflow.None?
                  && after.closed == d.closed + (if d.workflow.None? then []
                                                 else [d.workflow.value.(disposition := if superseded then Superseded else Disposition.Archived)])
                  && after.handoff == d.handoff && after.records == d.records && after.outstanding.None?)
            && (!fit ==> after == d)
  {
    if Archivable(d, superseded) {
      var append := AppendArchive(header, extra, d.handoff);
      ClosingDisks(d, superseded, append, |ClosingWrites(d.workflow, superseded, append)|);
    }
  }

  /** `d'` differs from `d` in nothing the command looks at. */
  predicate LooksAlike(d: Disk, d': Disk) {
    && d'.outstanding == d.outstanding && d'.handoff == d.handoff && IsDuplicate(d') == IsDuplicate(d)
    && (d'.workflow.Some? <==> d.workflow.Some?)
    && (d.workflow.Some? ==> d'.workflow.value == d.workflow.value.(disposition := d'.workflow.value.disposition))
  }

  lemma AlikeArchivable(d: Disk, d': Disk, superseded: bool)
    requires LooksAlike(d, d') && Archivable(d, superseded)
    ensures Archivable(d', superseded)
  {
  }

  lemma StillNoDuplicate(d: Disk, append: Write, k: nat, n: nat)
    requires append.AppendArchive? && k <= n + 1 && !IsDuplicate(d)
    ensures !IsDuplicate(d.(archive := ArchiveAfter(d, append, k, n)))
    ensures ArchiveText(d.(archive := ArchiveAfter(d, append, k, n))) == ArchiveText(d)
  {
    TitleIsNoEntry(d.handoff);
  }

  /** Before the append nothing has changed that the command looks at. */
  lemma StillArchivable(d: Disk, superseded: bool, header: string, extra: string, k: nat)
    requires Archivable(d, superseded) && k <= Before(d) + 1
    ensures var cut := CutArchive(d, superseded, header, extra, k);
            Archivable(cut, superseded) && ArchiveText(cut) == ArchiveText(d) && cut.handoff == d.handoff
  {
    var append := AppendArchive(header, extra, d.handoff);
    var cut := CutArchive(d, superseded, header, extra, k);
    ClosingDisks(d, superseded, append, k);
    StillNoDuplicate(d, append, k, Before(d));
    assert LooksAlike(d, cut);
    AlikeArchivable(d, cut, superseded);
  }

  lemma DuplicateNow(d: Disk, archive: string, header: string, extra: string)
    requires A.Document(d.handoff) && '\r' !in archive && Entry(header, extra) && A.NoHeaders(A.TaskPart(d.handoff))
    requires d.archive == Some(A.Appended(archive, header, extra, d.handoff))
    ensures IsDuplicate(d)
  {
    A.ReadNoCR(d.handoff);
    A.ReArchiveRefusedExactly(archive, header, extra, d.handoff, d.handoff);
  }

  /** After the append the second run is refused as a duplicate. */
  lemma RefusedAfterAppend(d: Disk, superseded: bool, header: string, extra: string, k: nat)
    requires Closable(d, superseded) && Entry(header, extra) && A.NoHeaders(A.TaskPart(d.handoff)) && k >= Before(d) + 2
    ensures var cut := CutArchive(d, superseded, header, extra, k);
            && cut.archive == Some(A.Appended(ArchiveText(d), header, extra, d.handoff))
            && !Archivable(cut, superseded) && (cut.workflow.None? <==> d.workflow.None? || k > Before(d) + 2)
            && Active(cut).None?
  {
    ClosingDisks(d, superseded, AppendArchive(header, extra, d.handoff), k);
    DuplicateNow(CutArchive(d, superseded, header, extra, k), ArchiveText(d), header, extra);
  }

  /** Cut anywhere and run again, the task is appended exactly once, by the run that
    * got that far.  The receipt is gone, except if the cut fell right behind the
    * append: then it stays, closed, and never stands in the way of a new approval. */
  lemma AppendedOnce(d: Disk, superseded: bool, header: string, extra: string, k: nat, header': string, extra': string)
    requires Closable(d, superseded) && Entry(header, extra) && A.NoHeaders(A.TaskPart(d.handoff))
    ensures var after := Archived(CutArchive(d, superseded, header, extra, k), superseded, header', extra');
            && after.archive == Some(if k >= Before(d) + 2 then A.Appended(ArchiveText(d), header, extra, d.handoff)
                                     else A.Appended(ArchiveText(d), header', extra', d.handoff))
            && Active(after).None? && (after.workflow.None? <==> d.workflow.None? || k != Before(d) + 2)
  {
    if k >= Before(d) + 2 {
      RefusedAfterAppend(d, superseded, header, extra, k);
    } else {
      StillArchivable(d, superseded, header, extra, k);
      WholeArchive(CutArchive(d, superseded, header, extra, k), superseded, header', extra');
    }
  }

  /** The archive with the task appended under this header: its last entry is the
    * task, and its number is the next one. */
  ghost predicate HasTask(archive: Option<string>, before: string, header: string, markdown: string) {
    && archive.Some? && CurrentTask(markdown).Ok?
    && A.LastArchived(archive.value) == Some(A.Entry(A.HeaderCount(Split(before)) + 1, header, CurrentTask(markdown).value))
  }

  lemma AppendedHasTask(before: string, header: string, extra: string, markdown: string)
    requires A.Document(markdown) && '\r' !in before && Entry(header, extra) && A.NoHeaders(A.TaskPart(markdown))
    ensures HasTask(Some(A.Appended(before, header, extra, markdown)), before, header, markdown)
  {
    A.ReadBackEntry(before, header, extra, markdown);
  }

  /** Cut anywhere and run again: the reader finds the task as the one next entry. */
  lemma ArchivedOnce(d: Disk, superseded: bool, header: string, extra: string, k: nat, header': string, extra': string)
    requires Closable(d, superseded) && Entry(header, extra) && Entry(header', extra')
    requires A.NoHeaders(A.TaskPart(d.handoff))
    ensures var after := Archived(CutArchive(d, superseded, header, extra, k), superseded, header', extra');
            && HasTask(after.archive, ArchiveText(d), if k >= Before(d) + 2 then header else header', d.handoff)
            && Active(after).None? && (after.workflow.None? <==> d.workflow.None? || k != Before(d) + 2)
  {
    AppendedOnce(d, superseded, header, extra, k, header', extra');
    AppendedHasTask(ArchiveText(d), header, extra, d.handoff);
    AppendedHasTask(ArchiveText(d), header', extra', d.handoff);
  }

  /** The failing case: with a header-like line below the last task heading, a run cut
    * right behind the append appends the task once more. */
  lemma HeaderLineArchivesTwice(d: Disk, superseded: bool, header: string, extra: string, j: nat, header': string, extra': string)
    requires Closable(d, superseded) && Entry(header, extra) && d.workflow.Some?
    requires j < |A.TaskPart(d.handoff)| && A.IsHeader(A.TaskPart(d.handoff)[j])
    requires forall i | j < i < |A.TaskPart(d.handoff)| :: !Named(A.TaskPart(d.handoff)[i], TASK)
    ensures var once := A.Appended(ArchiveText(d), header, extra, d.handoff);
            Archived(CutArchive(d, superseded, header, extra, 4), superseded, header', extra').archive
            == Some(A.Appended(once, header', extra', d.handoff))
  {
    var cut := CutArchive(d, superseded, header, extra, 4);
    ClosingDisks(d, superseded, AppendArchive(header, extra, d.handoff), 4);
    HiddenTask(ArchiveText(d), header, extra, d.handoff, j);
    WholeArchive(cut, superseded, header', extra');
  }

  lemma BelowFront(front: seq<string>, task: seq<string>, j: nat)
    requires j < |task| && forall i | j < i < |task| :: !Named(task[i], TASK)
    ensures (front + task)[|front| + j] == task[j]
    ensures forall i | |front| + j < i < |front + task| :: !Named((front + task)[i], TASK)
  {
    forall i | |front| + j < i < |front + task| ensures !Named((front + task)[i], TASK) {
      assert (front + task)[i] == task[i - |front|];
    }
  }

  lemma HiddenBelow(appended: string, front: seq<string>, task: seq<string>, j: nat, markdown: string)
    requires Split(appended) == front + task && '\r' !in appended
    requires j < |task| && A.IsHeader(task[j]) && forall i | j < i < |task| :: !Named(task[i], TASK)
    ensures A.Duplicate(appended, markdown) == None
  {
    BelowFront(front, task, j);
    A.HeaderLineHidesTask(front + task, appended, |front| + j, markdown);
  }

  lemma HiddenTask(archive: string, header: string, extra: string, markdown: string, j: nat)
    requires A.Document(markdown) && Entry(header, extra) && '\r' !in archive
    requires j < |A.TaskPart(markdown)| && A.IsHeader(A.TaskPart(markdown)[j])
    requires forall i | j < i < |A.TaskPart(markdown)| :: !Named(A.TaskPart(markdown)[i], TASK)
    ensures A.Duplicate(A.Appended(archive, header, extra, markdown), markdown) == None
  {
    A.AppendedSplit(archive, header, extra, markdown);
    A.AppendedHasNoCR(archive, header, extra, markdown);
    EntryFront(Split(archive), [header], Split(extra), A.TaskPart(markdown));
    HiddenBelow(A.Appended(archive, header, extra, markdown), Split(archive) + ["---", ""] + ([header] + Split(extra)),
                A.TaskPart(markdown), j, markdown);
  }

  lemma EntryFront(a: seq<string>, h: seq<string>, x: seq<string>, t: seq<string>)
    ensures a + ["---", ""] + (h + (x + t)) == a + ["---", ""] + (h + x) + t
  {
  }

  // ---- what may be superseded --------------------------------------------------------

  /** A superseded receipt has used up its rounds, and none is reserved. */
  predicate ExhaustedOk(w: Receipt) {
    w.disposition == Superseded ==> w.reserved.None? && w.roundsUsed >= (if w.maxRounds == 0 then 3 else w.maxRounds)
  }

  predicate ReceiptsOk(d: Disk) {
    && (d.workflow.Some? ==> ExhaustedOk(d.workflow.value))
    && forall i | 0 <= i < |d.closed| :: ExhaustedOk(d.closed[i])
  }

  predicate WriteOk(w: Write) {
    (w.SaveWorkflow? ==> ExhaustedOk(w.receipt)) && (w.CloseWorkflow? ==> ExhaustedOk(w.closed))
  }

  lemma {:induction false} WritesKeepReceipts(d: Disk, ws: seq<Write>)
    requires ReceiptsOk(d) && forall i | 0 <= i < |ws| :: WriteOk(ws[i])
    ensures ReceiptsOk(Apply(d, ws))
    decreases |ws|
  {
    if ws != [] {
      WritesKeepReceipts(Do(d, ws[0]), ws[1..]);
    }
  }

  lemma PrefixKeepsReceipts(d: Disk, ws: seq<Write>, k: nat)
    requires ReceiptsOk(d) && forall i | 0 <= i < |ws| :: WriteOk(ws[i])
    ensures ReceiptsOk(Apply(d, Prefix(ws, k)))
  {
    assert forall i | 0 <= i < |Prefix(ws, k)| :: Prefix(ws, k)[i] == ws[i];
    WritesKeepReceipts(d, Prefix(ws, k));
  }

  lemma ApprovalReceipts(d: Disk, newId: Id, maxRounds: nat, code: Code, k: nat)
    requires ReceiptsOk(d)
    ensures ReceiptsOk(Apply(d, Prefix(ApproveWrites(d, newId, maxRounds, code), k)))
  {
    PrefixKeepsReceipts(d, ApproveWrites(d, newId, maxRounds, code), k);
  }

  lemma PreparedReceipts(d: Disk, e: Id, run: RunRecord, k: nat)
    requires ReceiptsOk(d) && d.workflow.Some? && d.workflow.value.disposition == Open
    ensures ReceiptsOk(Apply(d, Prefix(PreparedWrites(d.workflow.value, e, run), k)))
  {
    PrefixKeepsReceipts(d, PreparedWrites(d.workflow.value, e, run), k);
  }

  lemma DispatchReceipts(d: Disk, e: Id, runId: Id, code: Code, sent: Fingerprint, k: nat)
    requires ReceiptsOk(d)
    ensures ReceiptsOk(Apply(d, Prefix(DispatchWrites(d, e, runId, code, sent), k)))
  {
    if Ready(d, code) {
      PreparedReceipts(d, e, RunRecord(ReadStatus(d.handoff), runId, sent), k);
    }
  }

  lemma ReconcileReceipts(s: State, v: View, text: string, discarded: Option<string>, k: nat)
    requires Inv(s) && ReceiptsOk(s.disk)
    ensures ReceiptsOk(CutReconcile(s, v, text, discarded, k).disk)
  {
    if s.disk.outstanding.Some? && s.disk.workflow.Some? {
      PrefixKeepsReceipts(s.disk, ReconciledWrites(s.disk.workflow.value, s.disk.outstanding.value, v, text, discarded), k);
    }
  }

  lemma ArchiveReceipts(d: Disk, superseded: bool, header: string, extra: string, k: nat)
    requires ReceiptsOk(d)
    ensures ReceiptsOk(Apply(d, Prefix(ArchiveWrites(d, superseded, header, extra), k)))
  {
    if Archivable(d, superseded) {
      ClosingDisks(d, superseded, AppendArchive(header, extra, d.handoff), k);
    }
  }

  lemma StepReceipts(s: State, c: Command, k: nat)
    requires Inv(s) && ReceiptsOk(s.disk)
    ensures ReceiptsOk(Cut(s, c, k).disk)
  {
    match c
    case Approve(newId, maxRounds, code) => ApprovalReceipts(s.disk, newId, maxRounds, code, k);
    case Dispatch(e, runId, code, sent) => DispatchReceipts(s.disk, e, runId, code, sent, k);
    case Reconcile(v) => ReconcileReceipts(s, v, TextFor(s.disk, v), DiscardedFor(s.disk, v), k);
    case Archive(superseded, header, extra) => ArchiveReceipts(s.disk, superseded, header, extra, k);
    case Edit(text) => EditedDisk(s.disk, text, k);
  }

  /** Over every script, each command cut anywhere: what a new workflow can inherit from
    * -- a superseded receipt -- has used up its rounds and holds no reservation. */
  lemma {:induction false} SupersededIsExhausted(s: State, script: seq<Attempt>)
    requires Inv(s) && ReceiptsOk(s.disk) && CanRun(s, script)
    ensures ReceiptsOk(After(s, script).disk)
    decreases |script|
  {
    if script != [] {
      CutInv(s, script[0].command, script[0].cut);
      StepReceipts(s, script[0].command, script[0].cut);
      SupersededIsExhausted(Cut(s, script[0].command, script[0].cut), script[1..]);
    }
  }
}
