/** The client's durable files -- approval receipt, outstanding run, HANDOFF.md --
  * and every command as the list of file writes it performs.
  *
  * A command can be cut short after any write.  Each file write is atomic.  A
  * write the original skips because it would change nothing stands in the list
  * as one that changes nothing.
  */
module Workflow {
  import opened Wrappers
  import opened Text
  import opened Handoff
  import opened Store
  import ArchiveFile = Archive

  /** A code fingerprint: branch, HEAD and uncommitted code. */
  type Fingerprint = string

  const DRAFT := "DRAFT"
  const READY_FOR_EXECUTION := "READY FOR EXECUTION"
  const CHANGES_REQUESTED := "CHANGES REQUESTED"

  predicate Eligible(status: string) { status == READY_FOR_EXECUTION || status == CHANGES_REQUESTED }

  datatype Outcome = RunCompleted | RunFailed | RunCanceled | RunRejected | RunRecovery | RunUnresolved

  datatype LastOutcome = LastOutcome(execution: Id, outcome: Outcome, discarded: Option<string>)

  datatype Disposition = Open | Archived | Superseded

  /** workflow.json.  The plan stands for its hash. */
  datatype Receipt = Receipt(
    id: Id,
    parent: Option<Id>,
    plan: string,
    maxRounds: nat,
    roundsUsed: nat,
    consumed: seq<Id>,
    reserved: Option<Id>,
    hold: bool,
    postRun: Option<Fingerprint>,
    lastOutcome: Option<LastOutcome>,
    disposition: Disposition)

  datatype Outstanding = Outstanding(execution: Id, workflow: Id, run: Id)

  /** What a run record holds of its request: the submitted Status, the run id, and
    * the code fingerprint the server is to find. */
  datatype RunRecord = RunRecord(status: string, run: Id, code: Fingerprint)

  /** `records` holds the run records; `closed` is in the order the files were
    * written; `handoff` and `archive` are HANDOFF.md and HANDOFF-ARCHIVE.md as text. */
  datatype Disk = Disk(
    workflow: Option<Receipt>,
    outstanding: Option<Outstanding>,
    handoff: string,
    records: map<Id, RunRecord>,
    closed: seq<Receipt>,
    archive: Option<string>)

  /** The working tree as a command finds it. */
  datatype Code = Code(fingerprint: Fingerprint, clean: bool)

  /** What a command learns of the run: the task, its worker-lifecycle data, its
    * result, and whether the execute lock directory is still there. */
  datatype ResultView = ResultView(execution: Id, workflow: Id, run: Id, planIntact: bool, launched: bool)

  datatype View = View(
    state: Option<TaskState>,
    recovery: bool,
    lifeStarted: bool,
    lifeStopped: bool,
    lifeUnlocked: bool,
    result: Option<ResultView>,
    lockPresent: bool,
    fingerprint: Option<Fingerprint>)

  datatype Write =
    | SaveWorkflow(receipt: Receipt)
    | DropWorkflow
    | SaveOutstanding(run: Outstanding)
    | ClearOutstanding
    | SaveRecord(execution: Id, record: RunRecord)
    | WriteHandoff(text: string)
    | CloseWorkflow(closed: Receipt)
    | CreateArchive
    | AppendArchive(header: string, extra: string, document: string)

  datatype Command =
    | Approve(newId: Id, maxRounds: nat, code: Code)
    | Dispatch(execution: Id, run: Id, code: Code, sent: Fingerprint)
    | Reconcile(view: View)
    | Archive(superseded: bool, header: string, extra: string)
    | Edit(text: string)

  /** What a new HANDOFF-ARCHIVE.md says. */
  const ARCHIVE_TITLE := Join(TITLE_LINES)
  const TITLE_LINES := ["# HANDOFF Archive", "", TITLE_NOTE, ""]
  const TITLE_NOTE := "Completed tasks, appended verbatim " + "by `handoff archive`. " + "Local-only (git-excluded)."

  function ArchiveText(d: Disk): string { if d.archive.Some? then d.archive.value else ARCHIVE_TITLE }

  function Do(d: Disk, w: Write): Disk {
    match w
    case SaveWorkflow(r) => d.(workflow := Some(r))
    case DropWorkflow => d.(workflow := None)
    case SaveOutstanding(o) => d.(outstanding := Some(o))
    case ClearOutstanding => d.(outstanding := None)
    case SaveRecord(e, run) => d.(records := d.records[e := run])
    case WriteHandoff(text) => d.(handoff := text)
    case CloseWorkflow(r) => d.(closed := d.closed + [r])
    case CreateArchive => d.(archive := Some(ArchiveText(d)))
    case AppendArchive(header, extra, document) =>
      d.(archive := Some(ArchiveFile.Appended(ArchiveText(d), header, extra, document)))
  }

  function Apply(d: Disk, ws: seq<Write>): Disk
    decreases |ws|
  {
    if ws == [] then d else Apply(Do(d, ws[0]), ws[1..])
  }

  // ---- rounds ------------------------------------------------------------------

  /** `max_rounds or 3` */
  function MaxRounds(w: Receipt): nat { if w.maxRounds == 0 then 3 else w.maxRounds }

  function Reserved(w: Receipt): nat { if w.reserved.Some? then 1 else 0 }

  /** `rounds_available` */
  function RoundsAvailable(w: Receipt): int { MaxRounds(w) - w.roundsUsed - Reserved(w) }

  /** `consume_round` */
  function Consumed(w: Receipt, e: Id): Receipt {
    var charged := if e in w.consumed then w
                   else w.(consumed := w.consumed + [e], roundsUsed := |w.consumed| + 1);
    if charged.reserved == Some(e) then charged.(reserved := None) else charged
  }

  // ---- approval ----------------------------------------------------------------

  function Active(d: Disk): Option<Receipt> {
    if d.workflow.Some? && d.workflow.value.disposition == Open then d.workflow else None
  }

  /** `latest_superseded` */
  function LatestSuperseded(closed: seq<Receipt>): Option<Receipt> {
    if closed == [] then None
    else
      var n := |closed| - 1;
      if closed[n].disposition == Superseded then Some(closed[n]) else LatestSuperseded(closed[..n])
  }

  /** `_maybe_rebaseline` looks at the tree at all. */
  predicate Rebaselines(w: Receipt) { w.postRun.Some? && w.reserved.None? }

  function Rebaselined(w: Receipt, code: Code): Receipt {
    if Rebaselines(w) then w.(postRun := Some(code.fingerprint)) else w
  }

  function NewReceipt(d: Disk, newId: Id, maxRounds: nat, plan: string): Receipt {
    var parent := LatestSuperseded(d.closed);
    Receipt(newId, if parent.Some? then Some(parent.value.id) else None, plan, maxRounds, 0, [], None, false,
            if parent.Some? then parent.value.postRun else None, None, Open)
  }

  /** The receipt `approve` saves, or None when it refuses or has nothing to do. */
  function ApprovedReceipt(d: Disk, newId: Id, maxRounds: nat, code: Code): Option<Receipt> {
    var status, plan := ReadStatus(d.handoff), CurrentTask(d.handoff);
    if !(status == DRAFT || Eligible(status)) || plan.Err? then None
    else if Active(d).None? then Some(NewReceipt(d, newId, maxRounds, plan.value))
    else
      var w := Active(d).value;
      if w.plan == plan.value || d.outstanding.Some? || (Rebaselines(w) && !code.clean) then None
      else Some(Rebaselined(w, code).(plan := plan.value))
  }

  function ApprovalWrites(receipt: Option<Receipt>, text: string): seq<Write> {
    if receipt.Some? then [SaveWorkflow(receipt.value), WriteHandoff(text)] else []
  }

  function ApproveWrites(d: Disk, newId: Id, maxRounds: nat, code: Code): seq<Write> {
    ApprovalWrites(ApprovedReceipt(d, newId, maxRounds, code), ReplaceStatus(d.handoff, READY_FOR_EXECUTION))
  }

  // ---- dispatch ----------------------------------------------------------------

  /** `collect_preflight` finds no blocker. */
  predicate Ready(d: Disk, code: Code) {
    && Active(d).Some?
    && var w := Active(d).value;
       && Eligible(ReadStatus(d.handoff)) && CurrentTask(d.handoff) == Ok(w.plan)
       && (if w.postRun.Some? then w.postRun == Some(code.fingerprint) else code.clean)
       && d.outstanding.None? && RoundsAvailable(w) >= 1
  }

  /** The hold goes, the record and the reservation are saved, and last the
    * outstanding pointer.  A reservation left over stops it half-way. */
  function PreparedWrites(receipt: Receipt, e: Id, run: RunRecord): seq<Write> {
    var w := receipt.(hold := false);
    if w.reserved.Some? then [SaveWorkflow(w), SaveRecord(e, run)]
    else [SaveWorkflow(w), SaveRecord(e, run),
          SaveWorkflow(w.(reserved := Some(e))), SaveOutstanding(Outstanding(e, w.id, run.run))]
  }

  /** `_prepare_request`: preflight read the code as `code`, the request then reads it
    * again as `sent`. */
  function DispatchWrites(d: Disk, e: Id, run: Id, code: Code, sent: Fingerprint): seq<Write> {
    if Ready(d, code) then PreparedWrites(d.workflow.value, e, RunRecord(ReadStatus(d.handoff), run, sent)) else []
  }

  // ---- reconciliation -----------------------------------------------------------

  /** `worker_stop_confirmed` */
  predicate StopConfirmed(v: View) {
    && v.state.Some? && !v.recovery && IsTerminalTask(v.state.value)
    && (|| v.lifeStopped || v.lifeUnlocked
        || (v.result.Some? && !v.result.value.launched)
        || v.state.value.TaskRejected?
        || !v.lockPresent)
  }

  function OutcomeOf(v: View): Outcome {
    if v.state.Some? && v.recovery then RunRecovery
    else if !StopConfirmed(v) then RunUnresolved
    else
      match v.state.value
      case TaskCompleted => RunCompleted
      case TaskCanceled => RunCanceled
      case TaskRejected => RunRejected
      case _ => RunFailed
  }

  predicate Started(v: View) { (v.result.Some? && v.result.value.launched) || v.lifeStarted }

  predicate Unsuccessful(o: Outcome) { o == RunFailed || o == RunCanceled }

  /** The round is charged by this reconciliation, if it was not before. */
  predicate Charges(v: View) {
    OutcomeOf(v) != RunRejected && (Started(v) || OutcomeOf(v) == RunCompleted || Unsuccessful(OutcomeOf(v)))
  }

  predicate Holds(v: View) { Unsuccessful(OutcomeOf(v)) || OutcomeOf(v) == RunRecovery }

  /** A completed result that may go to QA. */
  predicate Deliverable(o: Outstanding, v: View) {
    && v.result.Some? && v.result.value.planIntact
    && v.result.value.execution == o.execution && v.result.value.workflow == o.workflow && v.result.value.run == o.run
  }

  /** What Status has to say once the delivery is settled: READY FOR QA, or what was submitted. */
  function FinalStatus(d: Disk, o: Outstanding, v: View): string {
    if OutcomeOf(v) == RunCompleted then READY_FOR_QA
    else if o.execution in d.records then d.records[o.execution].status else ""
  }

  predicate Rewrites(d: Disk, o: Outstanding, v: View) {
    FinalStatus(d, o, v) != "" && ReadStatus(d.handoff) != FinalStatus(d, o, v)
  }

  function SettledText(d: Disk, o: Outstanding, v: View): string {
    if Rewrites(d, o, v) then ReplaceStatus(d.handoff, FinalStatus(d, o, v)) else d.handoff
  }

  /** The Status an unsuccessful worker wrote, when it had to be undone. */
  function Discarded(d: Disk, o: Outstanding, v: View): Option<string> {
    if Rewrites(d, o, v) && Unsuccessful(OutcomeOf(v)) then Some(ReadStatus(d.handoff)) else None
  }

  function Settle(w: Receipt, e: Id, v: View, discarded: Option<string>): Receipt {
    w.(lastOutcome := Some(LastOutcome(e, OutcomeOf(v), discarded)),
       postRun := if v.fingerprint.Some? then v.fingerprint else w.postRun)
  }

  predicate Settles(o: Outstanding, v: View) {
    Unsuccessful(OutcomeOf(v)) || (OutcomeOf(v) == RunCompleted && Deliverable(o, v))
  }

  function Charged(w: Receipt, e: Id, v: View): Receipt { if Charges(v) then Consumed(w, e) else w }

  function Held(w: Receipt, v: View): Receipt { if Holds(v) then w.(hold := true) else w }

  /** `release_reservation` */
  function Released(w: Receipt, e: Id): Receipt { if w.reserved == Some(e) then w.(reserved := None) else w }

  function ReconciledWrites(w: Receipt, o: Outstanding, v: View, text: string, discarded: Option<string>): seq<Write> {
    var e := o.execution;
    var charged := Charged(w, e, v);
    var held := Held(charged, v);
    if OutcomeOf(v) == RunRejected then [SaveWorkflow(Released(w, e)), ClearOutstanding]
    else if !Settles(o, v) then [SaveWorkflow(charged), SaveWorkflow(held)]
    else [SaveWorkflow(charged), SaveWorkflow(held), WriteHandoff(text),
          SaveWorkflow(Settle(held, e, v, discarded)), ClearOutstanding]
  }

  /** `_reconcile` of the outstanding run. */
  function ReconcileWrites(d: Disk, v: View): seq<Write> {
    if d.outstanding.None? || d.workflow.None? then []
    else
      var o := d.outstanding.value;
      ReconciledWrites(d.workflow.value, o, v, SettledText(d, o, v), Discarded(d, o, v))
  }

  // ---- archive --------------------------------------------------------------------

  /** The task was archived before, as the last entry. */
  predicate IsDuplicate(d: Disk) { d.archive.Some? && ArchiveFile.Duplicate(d.archive.value, d.handoff).Some? }

  /** What `archive_current` checks before it writes; a repository without a
    * receipt can be archived too. */
  predicate Archivable(d: Disk, superseded: bool) {
    && d.outstanding.None? && WellFormed(d.handoff) && !IsDuplicate(d)
    && (d.workflow.Some? && CurrentTask(d.handoff).Ok? ==> CurrentTask(d.handoff).value == d.workflow.value.plan)
    && (if superseded then
          d.workflow.Some? && d.workflow.value.roundsUsed >= MaxRounds(d.workflow.value) && d.workflow.value.reserved.None?
        else ReadStatus(d.handoff) == APPROVED)
  }

  function ClosedReceipt(w: Receipt, superseded: bool): Receipt {
    w.(disposition := if superseded then Superseded else Archived)
  }

  /** The header stands for the title, stamp and goal; `extra` for the workflow's lines. */
  function ClosingWrites(workflow: Option<Receipt>, superseded: bool, append: Write): seq<Write> {
    if workflow.None? then [CreateArchive, append, DropWorkflow]
    else
      var closed := ClosedReceipt(workflow.value, superseded);
      [SaveWorkflow(closed), CloseWorkflow(closed), CreateArchive, append, DropWorkflow]
  }

  /** `archive_current` */
  function ArchiveWrites(d: Disk, superseded: bool, header: string, extra: string): seq<Write> {
    if Archivable(d, superseded) then ClosingWrites(d.workflow, superseded, AppendArchive(header, extra, d.handoff)) else []
  }

  /** All the writes of a command; a crash leaves a prefix of them. */
  function Writes(d: Disk, c: Command): seq<Write> {
    match c
    case Approve(newId, maxRounds, code) => ApproveWrites(d, newId, maxRounds, code)
    case Dispatch(e, run, code, sent) => DispatchWrites(d, e, run, code, sent)
    case Reconcile(v) => ReconcileWrites(d, v)
    case Archive(superseded, header, extra) => ArchiveWrites(d, superseded, header, extra)
    case Edit(text) => [WriteHandoff(text)]
  }

  // ---- prefixes -----------------------------------------------------------------------

  lemma {:induction false} ApplyAppend(d: Disk, a: seq<Write>, b: seq<Write>)
    ensures Apply(d, a + b) == Apply(Apply(d, a), b)
    decreases |a|
  {
    if a == [] {
      assert a + b == b;
    } else {
      assert (a + b)[0] == a[0] && (a + b)[1..] == a[1..] + b;
      ApplyAppend(Do(d, a[0]), a[1..], b);
    }
  }

  lemma CutAt(d: Disk, ws: seq<Write>, k: nat)
    requires k < |ws|
    ensures Apply(d, ws[..0]) == d
    ensures Apply(d, ws[..k + 1]) == Do(Apply(d, ws[..k]), ws[k])
  {
    assert ws[..k + 1] == ws[..k] + [ws[k]] && [ws[k]][1..] == [];
    ApplyAppend(d, ws[..k], [ws[k]]);
  }

  lemma Apply2(d: Disk, a: Write, b: Write)
    ensures Apply(d, [a, b]) == Do(Do(d, a), b)
  {
    var ws := [a, b];
    CutAt(d, ws, 0);
    CutAt(d, ws, 1);
    assert ws[..2] == ws;
  }

  lemma Apply3(d: Disk, a: Write, b: Write, c: Write)
    ensures Apply(d, [a, b, c]) == Do(Do(Do(d, a), b), c)
  {
    Apply2(d, a, b);
    var ws := [a, b, c];
    CutAt(d, ws, 2);
    assert ws[..2] == [a, b] && ws[..3] == ws;
  }

  lemma Apply4(d: Disk, a: Write, b: Write, c: Write, e: Write)
    ensures Apply(d, [a, b, c, e]) == Do(Do(Do(Do(d, a), b), c), e)
  {
    Apply3(d, a, b, c);
    var ws := [a, b, c, e];
    CutAt(d, ws, 3);
    assert ws[..3] == [a, b, c] && ws[..4] == ws;
  }

  lemma Apply5(d: Disk, a: Write, b: Write, c: Write, e: Write, f: Write)
    ensures Apply(d, [a, b, c, e, f]) == Do(Do(Do(Do(Do(d, a), b), c), e), f)
  {
    Apply4(d, a, b, c, e);
    var ws := [a, b, c, e, f];
    CutAt(d, ws, 4);
    assert ws[..4] == [a, b, c, e] && ws[..5] == ws;
  }

  // ---- the commands as they run ---------------------------------------------------------

  class Repo {
    var workflow: Option<Receipt>
    var outstanding: Option<Outstanding>
    var handoff: string
    var records: map<Id, RunRecord>
    var archive: Option<string>
    var closed: seq<Receipt>

    constructor (d: Disk)
      ensures Contents() == d
    {
      workflow, outstanding, handoff := d.workflow, d.outstanding, d.handoff;
      records, closed, archive := d.records, d.closed, d.archive;
    }

    function Contents(): Disk
      reads this
    {
      Disk(workflow, outstanding, handoff, records, closed, archive)
    }

    method ConsumeRound(w: Receipt, e: Id) returns (r: Receipt)
      modifies `workflow
      ensures r == Consumed(w, e) && workflow == Some(r)
      ensures Consumed(r, e) == r && e in r.consumed && r.reserved != Some(e)
      ensures multiset(r.consumed) == if e in w.consumed then multiset(w.consumed) else multiset(w.consumed) + multiset{e}
    {
      r := w;
      if e !in w.consumed {
        r := r.(consumed := w.consumed + [e], roundsUsed := |w.consumed| + 1);
      }
      if r.reserved == Some(e) {
        r := r.(reserved := None);
      }
      workflow := Some(r);
    }

    /** `reserve_round`; None when a reservation or the round limit refuses it. */
    method ReserveRound(w: Receipt, e: Id) returns (r: Option<Receipt>)
      modifies `workflow
      ensures r.Some? <==> w.reserved.None? && RoundsAvailable(w) >= 1
      ensures r.Some? ==> r.value == w.(reserved := Some(e)) && workflow == r
      ensures r.None? ==> workflow == old(workflow)
    {
      if w.reserved.Some? || RoundsAvailable(w) < 1 {
        return None;
      }
      r := Some(w.(reserved := Some(e)));
      workflow := r;
    }

    /** The checks of `approve`, in its order. */
    method CheckApproval(newId: Id, maxRounds: nat, code: Code) returns (receipt: Option<Receipt>)
      ensures receipt == ApprovedReceipt(Contents(), newId, maxRounds, code)
    {
      var status, plan := ReadStatus(handoff), CurrentTask(handoff);
      if !(status == DRAFT || Eligible(status)) || plan.Err? {
        return None;
      }
      if Active(Contents()).None? {
        return Some(NewReceipt(Contents(), newId, maxRounds, plan.value));
      }
      var existing := workflow.value;
      if existing.plan == plan.value || outstanding.Some? {
        return None;
      }
      if Rebaselines(existing) && !code.clean {
        return None;
      }
      return Some(Rebaselined(existing, code).(plan := plan.value));
    }

    method SaveApproval(receipt: Option<Receipt>, text: string)
      modifies this
      ensures Contents() == Apply(old(Contents()), ApprovalWrites(receipt, text))
    {
      if receipt.Some? {
        Apply2(Contents(), SaveWorkflow(receipt.value), WriteHandoff(text));
        workflow := receipt;
        handoff := text;
      }
    }

    method Approve(newId: Id, maxRounds: nat, code: Code)
      modifies this
      ensures Contents() == Apply(old(Contents()), ApproveWrites(old(Contents()), newId, maxRounds, code))
    {
      var receipt := CheckApproval(newId, maxRounds, code);
      SaveApproval(receipt, ReplaceStatus(handoff, READY_FOR_EXECUTION));
    }

    method SavePrepared(receipt: Receipt, e: Id, run: RunRecord)
      requires workflow == Some(receipt) && RoundsAvailable(receipt) >= 1
      modifies this
      ensures Contents() == Apply(old(Contents()), PreparedWrites(receipt, e, run))
    {
      ghost var d := Contents();
      var w := receipt;
      if w.hold {
        w := w.(hold := false);
        workflow := Some(w);
      }
      assert w == receipt.(hold := false);
      records := records[e := run];
      var reserved := ReserveRound(w, e);
      if reserved.None? {
        Apply2(d, SaveWorkflow(w), SaveRecord(e, run));
        return;
      }
      outstanding := Some(Outstanding(e, w.id, run.run));
      Apply4(d, SaveWorkflow(w), SaveRecord(e, run), SaveWorkflow(w.(reserved := Some(e))),
             SaveOutstanding(Outstanding(e, w.id, run.run)));
    }

    /** The second `_prepare_request` of an execute. */
    method PrepareRequest(e: Id, run: Id, code: Code, sent: Fingerprint)
      modifies this
      ensures Contents() == Apply(old(Contents()), DispatchWrites(old(Contents()), e, run, code, sent))
    {
      if Ready(Contents(), code) {
        SavePrepared(workflow.value, e, RunRecord(ReadStatus(handoff), run, sent));
      }
    }

    method SaveReconciled(w: Receipt, o: Outstanding, v: View, text: string, discarded: Option<string>)
      requires workflow == Some(w) && outstanding == Some(o)
      modifies this
      ensures Contents() == Apply(old(Contents()), ReconciledWrites(w, o, v, text, discarded))
    {
      ghost var d := Contents();
      var outcome := OutcomeOf(v);
      if outcome == RunRejected {
        workflow := Some(Released(w, o.execution));
        outstanding := None;
        Apply2(d, SaveWorkflow(Released(w, o.execution)), ClearOutstanding);
        return;
      }
      var charged := w;
      if Started(v) || outcome == RunCompleted || Unsuccessful(outcome) {
        charged := ConsumeRound(w, o.execution);
      }
      assert charged == Charged(w, o.execution, v);
      var held := charged;
      if Unsuccessful(outcome) || outcome == RunRecovery {
        held := charged.(hold := true);
        workflow := Some(held);
      }
      assert held == Held(charged, v);
      if !Settles(o, v) {
        Apply2(d, SaveWorkflow(charged), SaveWorkflow(held));
        return;
      }
      handoff := text;
      workflow := Some(Settle(held, o.execution, v, discarded));
      outstanding := None;
      Apply5(d, SaveWorkflow(charged), SaveWorkflow(held), WriteHandoff(text),
             SaveWorkflow(Settle(held, o.execution, v, discarded)), ClearOutstanding);
    }

    /** `_reconcile`, for a run that is outstanding under a receipt. */
    method ReconcileRun(v: View)
      modifies this
      ensures Contents() == Apply(old(Contents()), ReconcileWrites(old(Contents()), v))
    {
      if outstanding.Some? && workflow.Some? {
        var d, o := Contents(), outstanding.value;
        SaveReconciled(workflow.value, o, v, SettledText(d, o, v), Discarded(d, o, v));
      }
    }

    method CloseReceipt(superseded: bool, header: string, extra: string)
      modifies this
      ensures Contents() == Apply(old(Contents()), ClosingWrites(old(workflow), superseded, AppendArchive(header, extra, old(handoff))))
    {
      ghost var d, append := Contents(), AppendArchive(header, extra, handoff);
      if workflow.Some? {
        var done := ClosedReceipt(workflow.value, superseded);
        Apply5(d, SaveWorkflow(done), CloseWorkflow(done), CreateArchive, append, DropWorkflow);
        workflow := Some(done);
        closed := closed + [done];
      } else {
        Apply3(d, CreateArchive, append, DropWorkflow);
      }
      if archive.None? {
        archive := Some(ARCHIVE_TITLE);
      }
      archive := Some(ArchiveFile.Appended(archive.value, header, extra, handoff));
      workflow := None;
    }

    /** `archive_current` */
    method ArchiveCurrent(superseded: bool, header: string, extra: string)
      modifies this
      ensures Contents() == Apply(old(Contents()), ArchiveWrites(old(Contents()), superseded, header, extra))
    {
      if Archivable(Contents(), superseded) {
        CloseReceipt(superseded, header, extra);
      }
    }
  }
}
