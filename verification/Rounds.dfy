/** Round accounting over every run of the client's commands, each of which may be
  * cut short after any file write.
  */
module Rounds {
  import opened Wrappers
  import opened Handoff
  import opened Store
  import opened Workflow
  import ArchiveFile = Archive

  predicate IsFinal(o: Outcome) { o == RunCompleted || o == RunFailed || o == RunCanceled || o == RunRejected }

  /** Completed, failed and canceled runs cost a round. */
  predicate CostsRound(o: Outcome) { IsFinal(o) && o != RunRejected }

  datatype History = History(
    used: set<Id>,                 // execution ids ever drawn
    charges: seq<Id>,              // rounds charged, in order
    started: set<Id>,              // runs seen started by a reconciliation that did not find them rejected
    outcome: map<Id, Outcome>,     // the final outcome first seen
    settled: map<Id, Outcome>)     // runs whose outstanding pointer was cleared

  datatype State = State(disk: Disk, h: History)

  const NO_HISTORY := History({}, [], {}, map[], map[])

  /** Fresh execution ids are fresh, and a terminal task does not change. */
  predicate Enabled(s: State, c: Command) {
    match c
    case Dispatch(e, _, _, _) => e !in s.h.used
    case Reconcile(v) =>
      s.disk.outstanding.Some? && s.disk.outstanding.value.execution in s.h.outcome ==>
        OutcomeOf(v) == s.h.outcome[s.disk.outstanding.value.execution] || !IsFinal(OutcomeOf(v))
    case _ => true
  }

  function AfterReconcile(h: History, w: Receipt, e: Id, v: View, cleared: bool): History {
    var o := OutcomeOf(v);
    h.(outcome := if IsFinal(o) then h.outcome[e := o] else h.outcome,
       started := if Started(v) && o != RunRejected then h.started + {e} else h.started,
       charges := if Charges(v) && e !in w.consumed then h.charges + [e] else h.charges,
       settled := if cleared then h.settled[e := o] else h.settled)
  }

  function Prefix(ws: seq<Write>, k: nat): seq<Write> { if k < |ws| then ws[..k] else ws }

  /** The first `k` writes of a reconciliation. */
  function CutReconcile(s: State, v: View, text: string, discarded: Option<string>, k: nat): State {
    if k == 0 || s.disk.outstanding.None? || s.disk.workflow.None? then s
    else
      var o, w := s.disk.outstanding.value, s.disk.workflow.value;
      var d := Apply(s.disk, Prefix(ReconciledWrites(w, o, v, text, discarded), k));
      State(d, AfterReconcile(s.h, w, o.execution, v, d.outstanding.None?))
  }

  function TextFor(d: Disk, v: View): string {
    if d.outstanding.Some? then SettledText(d, d.outstanding.value, v) else d.handoff
  }

  function DiscardedFor(d: Disk, v: View): Option<string> {
    if d.outstanding.Some? then Discarded(d, d.outstanding.value, v) else None
  }

  /** A command cut after `k` of its writes. */
  function Cut(s: State, c: Command, k: nat): State {
    match c
    case Reconcile(v) => CutReconcile(s, v, TextFor(s.disk, v), DiscardedFor(s.disk, v), k)
    case Dispatch(e, _, _, _) => State(Apply(s.disk, Prefix(Writes(s.disk, c), k)), s.h.(used := s.h.used + {e}))
    case _ => State(Apply(s.disk, Prefix(Writes(s.disk, c), k)), s.h)
  }

  // ---- what every cut command keeps -------------------------------------------------

  ghost predicate Distinct(ids: seq<Id>) { forall i, j | 0 <= i < j < |ids| :: ids[i] != ids[j] }

  ghost predicate ReceiptOk(w: Receipt, h: History) {
    && Distinct(w.consumed) && w.roundsUsed == |w.consumed|
    && w.roundsUsed + Reserved(w) <= MaxRounds(w)
    && (w.reserved.Some? ==> w.reserved.value !in w.consumed && w.reserved.value in h.used)
    && forall e | e in w.consumed :: e in h.charges
  }

  /** The outstanding run's id is reserved or consumed -- or its rejection is being written. */
  ghost predicate OutstandingOk(o: Outstanding, w: Receipt, h: History) {
    && w.disposition == Open && o.workflow == w.id && o.execution in h.used && o.execution !in h.settled
    && (o.execution in h.charges <==> o.execution in w.consumed)
    && (|| w.reserved == Some(o.execution)
        || (&& w.reserved.None?
            && (|| o.execution in w.consumed
                || (&& o.execution in h.outcome && h.outcome[o.execution] == RunRejected
                    && w.roundsUsed < MaxRounds(w)))))
  }

  ghost predicate HistoryOk(h: History) {
    && Distinct(h.charges)
    && (forall e | e in h.charges :: e in h.used && (e in h.started || (e in h.outcome && CostsRound(h.outcome[e]))))
    && (forall e | e in h.started :: e in h.charges)
    && (forall e | e in h.outcome :: e in h.used && IsFinal(h.outcome[e]) && (CostsRound(h.outcome[e]) ==> e in h.charges))
    && (forall e | e in h.settled :: e in h.outcome && h.outcome[e] == h.settled[e])
  }

  ghost predicate Inv(s: State) {
    && HistoryOk(s.h)
    && (s.disk.workflow.Some? ==> ReceiptOk(s.disk.workflow.value, s.h))
    && (s.disk.outstanding.Some? ==>
          s.disk.workflow.Some? && OutstandingOk(s.disk.outstanding.value, s.disk.workflow.value, s.h))
  }

  // ---- dispatch ----------------------------------------------------------------------

  lemma DrawnInv(s: State, e: Id)
    requires Inv(s)
    ensures Inv(s.(h := s.h.(used := s.h.used + {e})))
  {
  }

  lemma PrefixAt(d: Disk, ws: seq<Write>, k: nat)
    ensures k == 0 ==> Apply(d, Prefix(ws, k)) == d
    ensures 0 < k <= |ws| ==> Apply(d, Prefix(ws, k)) == Do(Apply(d, Prefix(ws, k - 1)), ws[k - 1])
    ensures k >= |ws| ==> Prefix(ws, k) == Prefix(ws, |ws|)
  {
    assert ws[..|ws|] == ws;
    if 0 < k <= |ws| {
      CutAt(d, ws, k - 1);
    }
  }

  lemma PreparedInv(s: State, e: Id, run: RunRecord, k: nat)
    requires Inv(s) && e !in s.h.used && s.disk.outstanding.None? && s.disk.workflow.Some?
    requires s.disk.workflow.value.disposition == Open && RoundsAvailable(s.disk.workflow.value) >= 1
    ensures Inv(State(Apply(s.disk, Prefix(PreparedWrites(s.disk.workflow.value, e, run), k)),
                      s.h.(used := s.h.used + {e})))
  {
    var d, w := s.disk, s.disk.workflow.value.(hold := false);
    var ws := PreparedWrites(s.disk.workflow.value, e, run);
    DrawnInv(s, e);
    assert e !in s.h.charges && e !in w.consumed;
    PrefixAt(d, ws, 0);
    PrefixAt(d, ws, 1);
    PrefixAt(d, ws, 2);
    if w.reserved.None? {
      PrefixAt(d, ws, 3);
      PrefixAt(d, ws, 4);
    }
    PrefixAt(d, ws, k);
  }

  // ---- reconciliation ------------------------------------------------------------------

  lemma DistinctAppend(ids: seq<Id>, e: Id)
    requires Distinct(ids) && e !in ids
    ensures Distinct(ids + [e])
  {
  }

  /** The history after the first write of a reconciliation. */
  lemma ReconcileHistory(s: State, v: View, cleared: bool)
    requires Inv(s) && Enabled(s, Reconcile(v)) && s.disk.outstanding.Some? && s.disk.workflow.Some?
    requires cleared ==> IsFinal(OutcomeOf(v))
    ensures HistoryOk(AfterReconcile(s.h, s.disk.workflow.value, s.disk.outstanding.value.execution, v, cleared))
  {
    var e := s.disk.outstanding.value.execution;
    if e !in s.h.charges {
      DistinctAppend(s.h.charges, e);
    }
  }

  /** Receipts that differ in nothing round accounting looks at. */
  predicate SameRounds(a: Receipt, b: Receipt) {
    && a.consumed == b.consumed && a.roundsUsed == b.roundsUsed && a.reserved == b.reserved
    && a.maxRounds == b.maxRounds && a.id == b.id && a.disposition == b.disposition
  }

  lemma SameRoundsOk(a: Receipt, b: Receipt, o: Outstanding, h: History)
    requires SameRounds(a, b) && ReceiptOk(a, h) && OutstandingOk(o, a, h)
    ensures ReceiptOk(b, h) && OutstandingOk(o, b, h)
  {
  }

  /** After the first write the receipt is charged, or released, and the run still accounted for. */
  lemma FirstWrite(s: State, v: View)
    requires Inv(s) && Enabled(s, Reconcile(v)) && s.disk.outstanding.Some? && s.disk.workflow.Some?
    ensures var o, w := s.disk.outstanding.value, s.disk.workflow.value;
            var h := AfterReconcile(s.h, w, o.execution, v, false);
            var first := if OutcomeOf(v) == RunRejected then Released(w, o.execution) else Charged(w, o.execution, v);
            HistoryOk(h) && ReceiptOk(first, h) && OutstandingOk(o, first, h)
  {
    var o, w := s.disk.outstanding.value, s.disk.workflow.value;
    var h := AfterReconcile(s.h, w, o.execution, v, false);
    ReconcileHistory(s, v, false);
  }

  lemma RejectedCut(s: State, v: View, text: string, discarded: Option<string>, k: nat)
    requires Inv(s) && Enabled(s, Reconcile(v)) && s.disk.outstanding.Some? && s.disk.workflow.Some?
    requires OutcomeOf(v) == RunRejected
    ensures Inv(CutReconcile(s, v, text, discarded, k))
  {
    var d, ws := s.disk, ReconciledWrites(s.disk.workflow.value, s.disk.outstanding.value, v, text, discarded);
    FirstWrite(s, v);
    ReconcileHistory(s, v, true);
    PrefixAt(d, ws, 0);
    PrefixAt(d, ws, 1);
    PrefixAt(d, ws, 2);
    PrefixAt(d, ws, k);
  }

  lemma OpenCut(s: State, v: View, text: string, discarded: Option<string>, k: nat)
    requires Inv(s) && Enabled(s, Reconcile(v)) && s.disk.outstanding.Some? && s.disk.workflow.Some?
    requires OutcomeOf(v) != RunRejected && !Settles(s.disk.outstanding.value, v)
    ensures Inv(CutReconcile(s, v, text, discarded, k))
  {
    var d, o, w := s.disk, s.disk.outstanding.value, s.disk.workflow.value;
    var ws := ReconciledWrites(w, o, v, text, discarded);
    var h := AfterReconcile(s.h, w, o.execution, v, false);
    FirstWrite(s, v);
    PrefixAt(d, ws, 0);
    PrefixAt(d, ws, 1);
    PrefixAt(d, ws, 2);
    PrefixAt(d, ws, k);
    SameRoundsOk(Charged(w, o.execution, v), Held(Charged(w, o.execution, v), v), o, h);
  }

  /** The five disks a settling reconciliation passes through. */
  lemma SettledDisks(d: Disk, v: View, text: string, discarded: Option<string>, k: nat)
    requires d.outstanding.Some? && d.workflow.Some? && k > 0
    requires OutcomeOf(v) != RunRejected && Settles(d.outstanding.value, v)
    ensures var o, w := d.outstanding.value, d.workflow.value;
            var charged := Charged(w, o.execution, v);
            var held := Held(charged, v);
            var settled := Settle(held, o.execution, v, discarded);
            Apply(d, Prefix(ReconciledWrites(w, o, v, text, discarded), k))
            == (if k == 1 then d.(workflow := Some(charged))
                else if k == 2 then d.(workflow := Some(held))
                else if k == 3 then d.(workflow := Some(held), handoff := text)
                else if k == 4 then d.(workflow := Some(settled), handoff := text)
                else d.(workflow := Some(settled), handoff := text, outstanding := None))
  {
    var ws := ReconciledWrites(d.workflow.value, d.outstanding.value, v, text, discarded);
    var a, b, c, e, f := ws[0], ws[1], ws[2], ws[3], ws[4];
    if k == 1 {
      PrefixAt(d, ws, 0);
      PrefixAt(d, ws, 1);
    } else if k == 2 {
      assert Prefix(ws, k) == [a, b];
      Apply2(d, a, b);
    } else if k == 3 {
      assert Prefix(ws, k) == [a, b, c];
      Apply3(d, a, b, c);
    } else if k == 4 {
      assert Prefix(ws, k) == [a, b, c, e];
      Apply4(d, a, b, c, e);
    } else {
      assert Prefix(ws, k) == [a, b, c, e, f];
      Apply5(d, a, b, c, e, f);
    }
  }

  lemma SettledCut(s: State, v: View, text: string, discarded: Option<string>, k: nat)
    requires Inv(s) && Enabled(s, Reconcile(v)) && s.disk.outstanding.Some? && s.disk.workflow.Some?
    requires OutcomeOf(v) != RunRejected && Settles(s.disk.outstanding.value, v)
    ensures Inv(CutReconcile(s, v, text, discarded, k))
  {
    var o, w := s.disk.outstanding.value, s.disk.workflow.value;
    var h := AfterReconcile(s.h, w, o.execution, v, false);
    var charged := Charged(w, o.execution, v);
    var held := Held(charged, v);
    if k > 0 {
      FirstWrite(s, v);
      ReconcileHistory(s, v, true);
      SettledDisks(s.disk, v, text, discarded, k);
      SameRoundsOk(charged, held, o, h);
      SameRoundsOk(charged, Settle(held, o.execution, v, discarded), o, h);
    }
  }

  // ---- the other commands ----------------------------------------------------------------

  lemma ApprovedReceiptOk(d: Disk, h: History, newId: Id, maxRounds: nat, code: Code)
    requires d.workflow.Some? ==> ReceiptOk(d.workflow.value, h)
    ensures var r := ApprovedReceipt(d, newId, maxRounds, code);
            r.Some? ==>
              && ReceiptOk(r.value, h)
              && (d.outstanding.Some? ==> d.workflow.None? || d.workflow.value.disposition != Open)
  {
  }

  lemma ApproveCut(s: State, newId: Id, maxRounds: nat, code: Code, k: nat)
    requires Inv(s)
    ensures Inv(Cut(s, Approve(newId, maxRounds, code), k))
  {
    var d, receipt := s.disk, ApprovedReceipt(s.disk, newId, maxRounds, code);
    ApprovedReceiptOk(d, s.h, newId, maxRounds, code);
    ApprovalCut(s, receipt, ReplaceStatus(d.handoff, READY_FOR_EXECUTION), k);
  }

  lemma ApprovalCut(s: State, receipt: Option<Receipt>, text: string, k: nat)
    requires Inv(s)
    requires receipt.Some? ==> ReceiptOk(receipt.value, s.h) && s.disk.outstanding.None?
    ensures Inv(State(Apply(s.disk, Prefix(ApprovalWrites(receipt, text), k)), s.h))
  {
    var ws := ApprovalWrites(receipt, text);
    if receipt.Some? {
      PrefixAt(s.disk, ws, 0);
      PrefixAt(s.disk, ws, 1);
      PrefixAt(s.disk, ws, 2);
      PrefixAt(s.disk, ws, k);
    }
  }

  /** The archive file after `k` writes, `n` of them before it is touched. */
  function ArchiveAfter(d: Disk, append: Write, k: nat, n: nat): Option<string>
    requires append.AppendArchive?
  {
    if k <= n then d.archive
    else if k == n + 1 then Some(ArchiveText(d))
    else Some(ArchiveFile.Appended(ArchiveText(d), append.header, append.extra, append.document))
  }

  /** The disks an archive without a receipt passes through. */
  lemma BareClosingDisks(d: Disk, append: Write, k: nat)
    requires append.AppendArchive?
    requires d.workflow.None?
    ensures Apply(d, Prefix([CreateArchive, append, DropWorkflow], k)) == d.(archive := ArchiveAfter(d, append, k, 0))
  {
    var ws := [CreateArchive, append, DropWorkflow];
    PrefixAt(d, ws, 0);
    PrefixAt(d, ws, 1);
    PrefixAt(d, ws, 2);
    PrefixAt(d, ws, 3);
    PrefixAt(d, ws, k);
  }

  /** The disks an archive passes through. */
  lemma ClosingDisks(d: Disk, superseded: bool, append: Write, k: nat)
    requires append.AppendArchive?
    ensures Apply(d, Prefix(ClosingWrites(d.workflow, superseded, append), k))
            == if d.workflow.None? then d.(archive := ArchiveAfter(d, append, k, 0))
               else
                 var w := ClosedReceipt(d.workflow.value, superseded);
                 d.(workflow := if k == 0 then d.workflow else if k <= 4 then Some(w) else None,
                    closed := if k <= 1 then d.closed else d.closed + [w],
                    archive := ArchiveAfter(d, append, k, 2))
  {
    if d.workflow.None? {
      BareClosingDisks(d, append, k);
    } else {
      var w := ClosedReceipt(d.workflow.value, superseded);
      var a, b, c, e, f := SaveWorkflow(w), CloseWorkflow(w), CreateArchive, append, DropWorkflow;
      var ws := [a, b, c, e, f];
      if k <= 1 {
        PrefixAt(d, ws, 0);
        PrefixAt(d, ws, 1);
      } else if k == 2 {
        assert Prefix(ws, k) == [a, b];
        Apply2(d, a, b);
      } else if k == 3 {
        assert Prefix(ws, k) == [a, b, c];
        Apply3(d, a, b, c);
      } else if k == 4 {
        assert Prefix(ws, k) == [a, b, c, e];
        Apply4(d, a, b, c, e);
      } else {
        assert Prefix(ws, k) == [a, b, c, e, f];
        Apply5(d, a, b, c, e, f);
      }
    }
  }

  lemma ClosingCut(s: State, superseded: bool, append: Write, k: nat)
    requires Inv(s) && s.disk.outstanding.None? && append.AppendArchive?
    ensures Inv(State(Apply(s.disk, Prefix(ClosingWrites(s.disk.workflow, superseded, append), k)), s.h))
  {
    ClosingDisks(s.disk, superseded, append, k);
  }

  lemma DispatchCut(s: State, e: Id, runId: Id, code: Code, sent: Fingerprint, k: nat)
    requires Inv(s) && e !in s.h.used
    ensures Inv(Cut(s, Dispatch(e, runId, code, sent), k))
  {
    if Ready(s.disk, code) {
      PreparedInv(s, e, RunRecord(ReadStatus(s.disk.handoff), runId, sent), k);
    } else {
      DrawnInv(s, e);
    }
  }

  lemma ReconcileCut(s: State, v: View, k: nat)
    requires Inv(s) && Enabled(s, Reconcile(v))
    ensures Inv(Cut(s, Reconcile(v), k))
  {
    var text, discarded := TextFor(s.disk, v), DiscardedFor(s.disk, v);
    if s.disk.outstanding.Some? && s.disk.workflow.Some? {
      if OutcomeOf(v) == RunRejected {
        RejectedCut(s, v, text, discarded, k);
      } else if Settles(s.disk.outstanding.value, v) {
        SettledCut(s, v, text, discarded, k);
      } else {
        OpenCut(s, v, text, discarded, k);
      }
    }
  }

  lemma ArchiveCut(s: State, superseded: bool, header: string, extra: string, k: nat)
    requires Inv(s)
    ensures Inv(Cut(s, Archive(superseded, header, extra), k))
  {
    if Archivable(s.disk, superseded) {
      ClosingCut(s, superseded, AppendArchive(header, extra, s.disk.handoff), k);
    }
  }

  lemma EditedDisk(d: Disk, text: string, k: nat)
    ensures Apply(d, Prefix([WriteHandoff(text)], k)) == if k == 0 then d else d.(handoff := text)
  {
    PrefixAt(d, [WriteHandoff(text)], 0);
    PrefixAt(d, [WriteHandoff(text)], 1);
    PrefixAt(d, [WriteHandoff(text)], k);
  }

  lemma EditCut(s: State, text: string, k: nat)
    requires Inv(s)
    ensures Inv(Cut(s, Edit(text), k))
  {
    EditedDisk(s.disk, text, k);
  }

  lemma CutInv(s: State, c: Command, k: nat)
    requires Inv(s) && Enabled(s, c)
    ensures Inv(Cut(s, c, k))
  {
    match c
    case Approve(newId, maxRounds, code) => ApproveCut(s, newId, maxRounds, code, k);
    case Dispatch(e, runId, code, sent) => DispatchCut(s, e, runId, code, sent, k);
    case Reconcile(v) => ReconcileCut(s, v, k);
    case Archive(superseded, header, extra) => ArchiveCut(s, superseded, header, extra, k);
    case Edit(text) => EditCut(s, text, k);
  }

  // ---- runs ---------------------------------------------------------------------------------

  /** A command and the number of writes it got to. */
  datatype Attempt = Attempt(command: Command, cut: nat)

  predicate CanRun(s: State, script: seq<Attempt>)
    decreases |script|
  {
    script == [] ||
    (Enabled(s, script[0].command) && CanRun(Cut(s, script[0].command, script[0].cut), script[1..]))
  }

  function After(s: State, script: seq<Attempt>): State
    decreases |script|
  {
    if script == [] then s else After(Cut(s, script[0].command, script[0].cut), script[1..])
  }

  lemma {:induction false} RunInv(s: State, script: seq<Attempt>)
    requires Inv(s) && CanRun(s, script)
    ensures Inv(After(s, script))
    decreases |script|
  {
    if script != [] {
      CutInv(s, script[0].command, script[0].cut);
      RunInv(Cut(s, script[0].command, script[0].cut), script[1..]);
    }
  }

  /** A repository before its first approval; archives of older workflows may exist. */
  predicate Untouched(d: Disk) { d.workflow.None? && d.outstanding.None? }

  lemma {:induction false} DistinctCount(ids: seq<Id>)
    requires Distinct(ids)
    ensures |(set e | e in ids)| == |ids|
    ensures forall e :: multiset(ids)[e] == if e in ids then 1 else 0
    decreases |ids|
  {
    if ids != [] {
      var n := |ids| - 1;
      DistinctCount(ids[..n]);
      assert ids == ids[..n] + [ids[n]];
      assert (set e | e in ids) == (set e | e in ids[..n]) + {ids[n]};
    }
  }

  // ---- the outstanding run is reserved or consumed -----------------------------------------

  predicate Accounted(d: Disk) {
    d.outstanding.Some? && d.workflow.Some? ==>
      var e, w := d.outstanding.value.execution, d.workflow.value;
      w.reserved == Some(e) || e in w.consumed
  }

  /** The attempt is the rejection of an uncharged run, cut between its two writes:
    * the reservation is released and the run still outstanding. */
  predicate Tears(d: Disk, a: Attempt) {
    && a.command.Reconcile? && OutcomeOf(a.command.view) == RunRejected && a.cut == 1
    && d.outstanding.Some? && d.workflow.Some? && d.outstanding.value.execution !in d.workflow.value.consumed
  }

  lemma ReconcileTears(s: State, v: View, text: string, discarded: Option<string>, k: nat)
    requires Accounted(s.disk)
    ensures Accounted(CutReconcile(s, v, text, discarded, k).disk) <==> !Tears(s.disk, Attempt(Reconcile(v), k))
  {
    var d := s.disk;
    if k > 0 && d.outstanding.Some? && d.workflow.Some? {
      var ws := ReconciledWrites(d.workflow.value, d.outstanding.value, v, text, discarded);
      if OutcomeOf(v) != RunRejected && Settles(d.outstanding.value, v) {
        SettledDisks(d, v, text, discarded, k);
      } else {
        PrefixAt(d, ws, 0);
        PrefixAt(d, ws, 1);
        PrefixAt(d, ws, 2);
        PrefixAt(d, ws, k);
      }
    }
  }

  lemma DispatchAccounts(d: Disk, e: Id, run: RunRecord, k: nat)
    requires d.workflow.Some? && d.outstanding.None?
    ensures Accounted(Apply(d, Prefix(PreparedWrites(d.workflow.value, e, run), k)))
  {
    var ws := PreparedWrites(d.workflow.value, e, run);
    PrefixAt(d, ws, 0);
    PrefixAt(d, ws, 1);
    PrefixAt(d, ws, 2);
    if d.workflow.value.reserved.None? {
      PrefixAt(d, ws, 3);
      PrefixAt(d, ws, 4);
    }
    PrefixAt(d, ws, k);
  }

  lemma ApprovalKeepsRun(d: Disk, receipt: Option<Receipt>, text: string, k: nat)
    ensures Apply(d, Prefix(ApprovalWrites(receipt, text), k)).outstanding == d.outstanding
    ensures receipt.None? ==> Apply(d, Prefix(ApprovalWrites(receipt, text), k)) == d
  {
    var ws := ApprovalWrites(receipt, text);
    PrefixAt(d, ws, 0);
    if receipt.Some? {
      PrefixAt(d, ws, 1);
      PrefixAt(d, ws, 2);
    }
    PrefixAt(d, ws, k);
  }

  lemma ApprovalAccounts(s: State, newId: Id, maxRounds: nat, code: Code, k: nat)
    requires Inv(s) && Accounted(s.disk)
    ensures Accounted(Cut(s, Approve(newId, maxRounds, code), k).disk)
  {
    ApprovedReceiptOk(s.disk, s.h, newId, maxRounds, code);
    ApprovalKeepsRun(s.disk, ApprovedReceipt(s.disk, newId, maxRounds, code),
                     ReplaceStatus(s.disk.handoff, READY_FOR_EXECUTION), k);
  }

  lemma ArchiveAccounts(d: Disk, superseded: bool, header: string, extra: string, k: nat)
    requires Accounted(d)
    ensures Accounted(Apply(d, Prefix(ArchiveWrites(d, superseded, header, extra), k)))
  {
    if Archivable(d, superseded) {
      ClosingDisks(d, superseded, AppendArchive(header, extra, d.handoff), k);
    }
  }

  /** An attempt leaves a run that is neither reserved nor consumed exactly if it
    * tears a rejection. */
  lemma UnaccountedStep(s: State, a: Attempt)
    requires Inv(s) && Accounted(s.disk)
    ensures Accounted(Cut(s, a.command, a.cut).disk) <==> !Tears(s.disk, a)
  {
    match a.command
    case Approve(newId, maxRounds, code) => ApprovalAccounts(s, newId, maxRounds, code, a.cut);
    case Dispatch(e, runId, code, sent) =>
      if Ready(s.disk, code) {
        DispatchAccounts(s.disk, e, RunRecord(ReadStatus(s.disk.handoff), runId, sent), a.cut);
      }
    case Reconcile(v) => ReconcileTears(s, v, TextFor(s.disk, v), DiscardedFor(s.disk, v), a.cut);
    case Archive(superseded, header, extra) => ArchiveAccounts(s.disk, superseded, header, extra, a.cut);
    case Edit(text) => EditedDisk(s.disk, text, a.cut);
  }

  /** Some attempt of the script tears a rejection. */
  predicate TearsSomewhere(s: State, script: seq<Attempt>)
    decreases |script|
  {
    script != [] &&
    (Tears(s.disk, script[0]) || TearsSomewhere(Cut(s, script[0].command, script[0].cut), script[1..]))
  }

  /** The outstanding run is reserved or consumed all along the script. */
  predicate AccountedThroughout(s: State, script: seq<Attempt>)
    decreases |script|
  {
    Accounted(s.disk) && (script == [] || AccountedThroughout(Cut(s, script[0].command, script[0].cut), script[1..]))
  }

  lemma {:induction false} AccountedUnlessTorn(s: State, script: seq<Attempt>)
    requires Inv(s) && Accounted(s.disk) && CanRun(s, script)
    ensures AccountedThroughout(s, script) <==> !TearsSomewhere(s, script)
    ensures !TearsSomewhere(s, script) ==> Accounted(After(s, script).disk)
    decreases |script|
  {
    if script != [] {
      var s' := Cut(s, script[0].command, script[0].cut);
      CutInv(s, script[0].command, script[0].cut);
      UnaccountedStep(s, script[0]);
      if Accounted(s'.disk) {
        AccountedUnlessTorn(s', script[1..]);
      }
    }
  }

  /** Over any sequence of commands, each cut anywhere: `rounds_used` counts the
    * distinct consumed ids, the reserved id is not one of them, used and reserved
    * rounds stay within the limit, and the outstanding run is reserved or consumed
    * unless a rejection was cut between its two writes -- it is so all along the
    * script if and only if none was. */
  lemma RoundsAccounted(d: Disk, script: seq<Attempt>)
    requires Untouched(d) && CanRun(State(d, NO_HISTORY), script)
    ensures var s := After(State(d, NO_HISTORY), script);
            && (s.disk.workflow.Some? ==>
                  var w := s.disk.workflow.value;
                  && w.roundsUsed == |(set e | e in w.consumed)|
                  && (w.reserved.Some? ==> w.reserved.value !in w.consumed)
                  && w.roundsUsed + Reserved(w) <= MaxRounds(w))
            && (s.disk.outstanding.Some? ==>
                  && s.disk.workflow.Some?
                  && var e, w := s.disk.outstanding.value.execution, s.disk.workflow.value;
                     && (!TearsSomewhere(State(d, NO_HISTORY), script) ==> w.reserved == Some(e) || e in w.consumed)
                     && (w.reserved == Some(e) || e in w.consumed || (e in s.h.outcome && s.h.outcome[e] == RunRejected)))
    ensures AccountedThroughout(State(d, NO_HISTORY), script) <==> !TearsSomewhere(State(d, NO_HISTORY), script)
  {
    RunInv(State(d, NO_HISTORY), script);
    AccountedUnlessTorn(State(d, NO_HISTORY), script);
    var s := After(State(d, NO_HISTORY), script);
    if s.disk.workflow.Some? {
      DistinctCount(s.disk.workflow.value.consumed);
    }
  }

  /** The failing case: a fresh run is dispatched and rejected, and the command that
    * writes the rejection down is cut between its two writes. */
  lemma TornRejection(s: State, e: Id, runId: Id, code: Code, sent: Fingerprint, v: View)
    requires Inv(s) && e !in s.h.used && Ready(s.disk, code) && s.disk.workflow.value.reserved.None?
    requires OutcomeOf(v) == RunRejected
    ensures var script := [Attempt(Dispatch(e, runId, code, sent), 4), Attempt(Reconcile(v), 1)];
            && CanRun(s, script) && TearsSomewhere(s, script)
            && var after := After(s, script).disk;
               && after.outstanding == Some(Outstanding(e, s.disk.workflow.value.id, runId)) && after.workflow.Some?
               && after.workflow.value.reserved.None? && e !in after.workflow.value.consumed
  {
    var a, b := Attempt(Dispatch(e, runId, code, sent), 4), Attempt(Reconcile(v), 1);
    FreshRun(s, e, runId, code, sent);
    var s1 := Cut(s, a.command, 4);
    RejectedOnce(s1, v, TextFor(s1.disk, v), DiscardedFor(s1.disk, v));
    TwoAttempts(s, a, b, s1, Cut(s1, b.command, 1));
  }

  lemma FreshRun(s: State, e: Id, runId: Id, code: Code, sent: Fingerprint)
    requires Inv(s) && e !in s.h.used && Ready(s.disk, code) && s.disk.workflow.value.reserved.None?
    ensures var s1, w := Cut(s, Dispatch(e, runId, code, sent), 4), s.disk.workflow.value;
            && s1.h.outcome == s.h.outcome && e !in s1.h.outcome && e !in w.consumed
            && s1.disk.outstanding == Some(Outstanding(e, w.id, runId))
            && s1.disk.workflow == Some(w.(hold := false, reserved := Some(e)))
  {
    PreparedDisks(s.disk, e, RunRecord(ReadStatus(s.disk.handoff), runId, sent), 4);
  }

  lemma FirstAttempt(s: State, a: Attempt, rest: seq<Attempt>, s': State)
    requires s' == Cut(s, a.command, a.cut)
    ensures CanRun(s, [a] + rest) <==> Enabled(s, a.command) && CanRun(s', rest)
    ensures After(s, [a] + rest) == After(s', rest)
    ensures TearsSomewhere(s, [a] + rest) <==> Tears(s.disk, a) || TearsSomewhere(s', rest)
  {
    assert ([a] + rest)[1..] == rest && ([a] + rest)[0] == a;
  }

  lemma TwoAttempts(s: State, a: Attempt, b: Attempt, s1: State, s2: State)
    requires s1 == Cut(s, a.command, a.cut) && s2 == Cut(s1, b.command, b.cut)
    ensures CanRun(s, [a, b]) <==> Enabled(s, a.command) && Enabled(s1, b.command)
    ensures After(s, [a, b]) == s2
    ensures TearsSomewhere(s, [a, b]) <==> Tears(s.disk, a) || Tears(s1.disk, b)
  {
    FirstAttempt(s, a, [b], s1);
    FirstAttempt(s1, b, [], s2);
    assert [a] + [b] == [a, b] && [b] + [] == [b];
  }

  lemma RejectedOnce(s: State, v: View, text: string, discarded: Option<string>)
    requires s.disk.outstanding.Some? && s.disk.workflow.Some? && OutcomeOf(v) == RunRejected
    ensures CutReconcile(s, v, text, discarded, 1).disk
            == s.disk.(workflow := Some(Released(s.disk.workflow.value, s.disk.outstanding.value.execution)))
  {
    var ws := ReconciledWrites(s.disk.workflow.value, s.disk.outstanding.value, v, text, discarded);
    PrefixAt(s.disk, ws, 0);
    PrefixAt(s.disk, ws, 1);
  }

  /** A run settled as completed, failed or canceled was charged exactly once, and a
    * rejected one only if an earlier reconciliation had seen its worker start. */
  lemma ChargedExactly(d: Disk, script: seq<Attempt>, e: Id)
    requires Untouched(d) && CanRun(State(d, NO_HISTORY), script)
    requires e in After(State(d, NO_HISTORY), script).h.settled
    ensures var h := After(State(d, NO_HISTORY), script).h;
            multiset(h.charges)[e] == (if CostsRound(h.settled[e]) || e in h.started then 1 else 0)
  {
    RunInv(State(d, NO_HISTORY), script);
    DistinctCount(After(State(d, NO_HISTORY), script).h.charges);
  }

  // ---- what stops a receipt from dispatching ---------------------------------------------------

  /** Why no run starts under a receipt: its reservation is taken by a run that is
    * not outstanding, or dispatch is held. */
  datatype Block = Leaked(r: Id) | OnHold

  predicate Blocks(b: Block, w: Receipt) { if b.Leaked? then w.reserved == Some(b.r) else w.hold }

  /** Nothing runs under this receipt, and it is blocked. */
  ghost predicate Stuck(s: State, workflow: Id, b: Block) {
    && (s.disk.workflow.Some? && s.disk.workflow.value.id == workflow ==> Blocks(b, s.disk.workflow.value))
    && (s.disk.outstanding.Some? ==> s.disk.outstanding.value.workflow != workflow)
  }

  /** A dispatch under a free receipt, cut after `k` writes, leaves a reservation
    * with no run outstanding exactly if it was cut between the two; and then
    * nothing runs under that receipt any more. */
  lemma CrashLeaksExactly(s: State, e: Id, runId: Id, code: Code, sent: Fingerprint, k: nat)
    requires Inv(s) && e !in s.h.used && Ready(s.disk, code) && s.disk.workflow.value.reserved.None?
    ensures var after := Cut(s, Dispatch(e, runId, code, sent), k).disk;
            && after.workflow.Some?
            && (after.workflow.value.reserved.Some? && after.outstanding.None? <==> k == 3)
    ensures Stuck(Cut(s, Dispatch(e, runId, code, sent), 3), s.disk.workflow.value.id, Leaked(e))
  {
    PreparedDisks(s.disk, e, RunRecord(ReadStatus(s.disk.handoff), runId, sent), k);
    PreparedDisks(s.disk, e, RunRecord(ReadStatus(s.disk.handoff), runId, sent), 3);
  }

  lemma PreparedDisks(d: Disk, e: Id, run: RunRecord, k: nat)
    requires d.workflow.Some? && d.workflow.value.reserved.None?
    ensures var w := d.workflow.value.(hold := false);
            Apply(d, Prefix(PreparedWrites(d.workflow.value, e, run), k))
            == d.(workflow := if k == 0 then d.workflow else if k <= 2 then Some(w) else Some(w.(reserved := Some(e))),
                  records := if k <= 1 then d.records else d.records[e := run],
                  outstanding := if k <= 3 then d.outstanding else Some(Outstanding(e, w.id, run.run)))
  {
    var ws := PreparedWrites(d.workflow.value, e, run);
    PrefixAt(d, ws, 0);
    PrefixAt(d, ws, 1);
    PrefixAt(d, ws, 2);
    PrefixAt(d, ws, 3);
    PrefixAt(d, ws, 4);
    PrefixAt(d, ws, k);
  }

  lemma StuckApprove(s: State, newId: Id, maxRounds: nat, code: Code, k: nat, workflow: Id, b: Block)
    requires Stuck(s, workflow, b) && newId != workflow
    ensures Stuck(Cut(s, Approve(newId, maxRounds, code), k), workflow, b)
  {
    StuckApproval(s, ApprovedReceipt(s.disk, newId, maxRounds, code), ReplaceStatus(s.disk.handoff, READY_FOR_EXECUTION),
                  k, workflow, b);
  }

  lemma StuckExecute(s: State, e: Id, runId: Id, code: Code, sent: Fingerprint, k: nat, workflow: Id, b: Block)
    requires Stuck(s, workflow, b) && b.Leaked?
    ensures Stuck(Cut(s, Dispatch(e, runId, code, sent), k), workflow, b)
  {
    if Ready(s.disk, code) {
      StuckDispatch(s, e, RunRecord(ReadStatus(s.disk.handoff), runId, sent), k, workflow, b);
    }
  }

  lemma StuckArchive(s: State, superseded: bool, header: string, extra: string, k: nat, workflow: Id, b: Block)
    requires Stuck(s, workflow, b)
    ensures Stuck(Cut(s, Archive(superseded, header, extra), k), workflow, b)
  {
    if Archivable(s.disk, superseded) {
      StuckClosing(s, superseded, AppendArchive(header, extra, s.disk.handoff), k, workflow, b);
    }
  }

  lemma StuckEdit(s: State, text: string, k: nat, workflow: Id, b: Block)
    requires Stuck(s, workflow, b)
    ensures Stuck(Cut(s, Edit(text), k), workflow, b)
  {
    EditedDisk(s.disk, text, k);
  }

  lemma StuckStep(s: State, c: Command, k: nat, workflow: Id, b: Block)
    requires Inv(s) && Stuck(s, workflow, b) && (c.Approve? ==> c.newId != workflow) && (b.OnHold? ==> !c.Dispatch?)
    ensures Stuck(Cut(s, c, k), workflow, b)
  {
    match c
    case Approve(newId, maxRounds, code) => StuckApprove(s, newId, maxRounds, code, k, workflow, b);
    case Dispatch(e, runId, code, sent) => StuckExecute(s, e, runId, code, sent, k, workflow, b);
    case Reconcile(v) => StuckReconcile(s, v, TextFor(s.disk, v), DiscardedFor(s.disk, v), k, workflow, b);
    case Archive(superseded, header, extra) => StuckArchive(s, superseded, header, extra, k, workflow, b);
    case Edit(text) => StuckEdit(s, text, k, workflow, b);
  }

  lemma StuckApproval(s: State, receipt: Option<Receipt>, text: string, k: nat, workflow: Id, b: Block)
    requires Stuck(s, workflow, b)
    requires receipt.Some? && receipt.value.id == workflow ==> Blocks(b, receipt.value)
    ensures Stuck(State(Apply(s.disk, Prefix(ApprovalWrites(receipt, text), k)), s.h), workflow, b)
  {
    var ws := ApprovalWrites(receipt, text);
    if receipt.Some? {
      PrefixAt(s.disk, ws, 0);
      PrefixAt(s.disk, ws, 1);
      PrefixAt(s.disk, ws, 2);
      PrefixAt(s.disk, ws, k);
    }
  }

  lemma StuckDispatch(s: State, e: Id, run: RunRecord, k: nat, workflow: Id, b: Block)
    requires Stuck(s, workflow, b) && b.Leaked? && s.disk.workflow.Some? && s.disk.outstanding.None?
    ensures Stuck(State(Apply(s.disk, Prefix(PreparedWrites(s.disk.workflow.value, e, run), k)), s.h), workflow, b)
  {
    var ws := PreparedWrites(s.disk.workflow.value, e, run);
    PrefixAt(s.disk, ws, 0);
    PrefixAt(s.disk, ws, 1);
    PrefixAt(s.disk, ws, 2);
    if s.disk.workflow.value.reserved.None? {
      PrefixAt(s.disk, ws, 3);
      PrefixAt(s.disk, ws, 4);
    }
    PrefixAt(s.disk, ws, k);
  }

  lemma {:induction false} OtherReceipt(d: Disk, ws: seq<Write>, id: Id)
    requires d.workflow.Some? && d.workflow.value.id == id
    requires forall i | 0 <= i < |ws| :: (ws[i].SaveWorkflow? ==> ws[i].receipt.id == id) && !ws[i].DropWorkflow?
                                         && !ws[i].SaveOutstanding?
    ensures Apply(d, ws).workflow.Some? && Apply(d, ws).workflow.value.id == id
    ensures Apply(d, ws).outstanding.Some? ==> Apply(d, ws).outstanding == d.outstanding
    decreases |ws|
  {
    if ws != [] {
      OtherReceipt(Do(d, ws[0]), ws[1..], id);
    }
  }

  lemma ReconciledKeepsId(w: Receipt, o: Outstanding, v: View, text: string, discarded: Option<string>)
    ensures var ws := ReconciledWrites(w, o, v, text, discarded);
            forall i | 0 <= i < |ws| :: (ws[i].SaveWorkflow? ==> ws[i].receipt.id == w.id) && !ws[i].DropWorkflow?
                                        && !ws[i].SaveOutstanding?
  {
  }

  lemma StuckReconcile(s: State, v: View, text: string, discarded: Option<string>, k: nat, workflow: Id, b: Block)
    requires Inv(s) && Stuck(s, workflow, b)
    ensures Stuck(CutReconcile(s, v, text, discarded, k), workflow, b)
  {
    if k > 0 && s.disk.outstanding.Some? && s.disk.workflow.Some? {
      var w := s.disk.workflow.value;
      var ws := ReconciledWrites(w, s.disk.outstanding.value, v, text, discarded);
      ReconciledKeepsId(w, s.disk.outstanding.value, v, text, discarded);
      assert forall i | 0 <= i < |Prefix(ws, k)| :: Prefix(ws, k)[i] == ws[i];
      OtherReceipt(s.disk, Prefix(ws, k), w.id);
    }
  }

  lemma StuckClosing(s: State, superseded: bool, append: Write, k: nat, workflow: Id, b: Block)
    requires Stuck(s, workflow, b) && s.disk.outstanding.None? && append.AppendArchive?
    ensures Stuck(State(Apply(s.disk, Prefix(ClosingWrites(s.disk.workflow, superseded, append), k)), s.h), workflow, b)
  {
    ClosingDisks(s.disk, superseded, append, k);
  }

  /** A crash between saving the reservation and saving the outstanding pointer is
    * for good: whatever commands follow, no run is ever dispatched under that receipt. */
  lemma {:induction false} LeakedReservationBlocks(s: State, script: seq<Attempt>, workflow: Id, r: Id)
    requires Inv(s) && Stuck(s, workflow, Leaked(r)) && CanRun(s, script)
    requires forall i | 0 <= i < |script| && script[i].command.Approve? :: script[i].command.newId != workflow
    ensures Stuck(After(s, script), workflow, Leaked(r))
    decreases |script|
  {
    if script != [] {
      var s' := Cut(s, script[0].command, script[0].cut);
      CutInv(s, script[0].command, script[0].cut);
      StuckStep(s, script[0].command, script[0].cut, workflow, Leaked(r));
      LeakedReservationBlocks(s', script[1..], workflow, r);
    }
  }

  /** What other processes and the watcher do; a watcher dispatches only when it
    * finds no hold. */
  datatype Act = Other(attempt: Attempt) | WatchTick(execution: Id, runId: Id, code: Code, sent: Fingerprint, cut: nat)

  function Acted(s: State, a: Act): State {
    match a
    case Other(attempt) => Cut(s, attempt.command, attempt.cut)
    case WatchTick(e, runId, code, sent, cut) =>
      if s.disk.workflow.Some? && s.disk.workflow.value.hold then s else Cut(s, Dispatch(e, runId, code, sent), cut)
  }

  predicate CanAct(s: State, acts: seq<Act>)
    decreases |acts|
  {
    acts == [] ||
    (&& Enabled(s, if acts[0].Other? then acts[0].attempt.command else Dispatch(acts[0].execution, acts[0].runId, acts[0].code, acts[0].sent))
     && CanAct(Acted(s, acts[0]), acts[1..]))
  }

  function AfterActs(s: State, acts: seq<Act>): State
    decreases |acts|
  {
    if acts == [] then s else AfterActs(Acted(s, acts[0]), acts[1..])
  }

  /** No explicit execute, and new workflows have new ids. */
  predicate Unasked(acts: seq<Act>, workflow: Id) {
    forall i | 0 <= i < |acts| && acts[i].Other? ::
      && !acts[i].attempt.command.Dispatch?
      && (acts[i].attempt.command.Approve? ==> acts[i].attempt.command.newId != workflow)
  }

  lemma StuckAct(s: State, a: Act, workflow: Id)
    requires Inv(s) && Stuck(s, workflow, OnHold) && Unasked([a], workflow)
    requires Enabled(s, if a.Other? then a.attempt.command else Dispatch(a.execution, a.runId, a.code, a.sent))
    ensures Inv(Acted(s, a)) && Stuck(Acted(s, a), workflow, OnHold)
  {
    assert [a][0] == a;
    match a
    case Other(attempt) =>
      CutInv(s, attempt.command, attempt.cut);
      StuckStep(s, attempt.command, attempt.cut, workflow, OnHold);
    case WatchTick(e, runId, code, sent, cut) =>
      CutInv(s, Dispatch(e, runId, code, sent), cut);
      if s.disk.workflow.Some? && !s.disk.workflow.value.hold && Ready(s.disk, code) {
        OtherDispatch(s, e, RunRecord(ReadStatus(s.disk.handoff), runId, sent), cut, workflow);
      }
  }

  lemma OtherDispatch(s: State, e: Id, run: RunRecord, k: nat, workflow: Id)
    requires s.disk.workflow.Some? && s.disk.workflow.value.id != workflow
    requires s.disk.outstanding.Some? ==> s.disk.outstanding.value.workflow != workflow
    ensures Stuck(State(Apply(s.disk, Prefix(PreparedWrites(s.disk.workflow.value, e, run), k)), s.h), workflow, OnHold)
  {
    var ws := PreparedWrites(s.disk.workflow.value, e, run);
    PrefixAt(s.disk, ws, 0);
    PrefixAt(s.disk, ws, 1);
    PrefixAt(s.disk, ws, 2);
    if s.disk.workflow.value.reserved.None? {
      PrefixAt(s.disk, ws, 3);
      PrefixAt(s.disk, ws, 4);
    }
    PrefixAt(s.disk, ws, k);
  }

  /** Once dispatch is held, no sequence of watch ticks, resumes, status polls,
    * cancels, re-approvals, archives and edits -- each cut anywhere -- puts a run
    * under that receipt outstanding: only an explicit execute does. */
  lemma {:induction false} HeldUntilAsked(s: State, acts: seq<Act>, workflow: Id)
    requires Inv(s) && Stuck(s, workflow, OnHold) && CanAct(s, acts) && Unasked(acts, workflow)
    ensures Stuck(AfterActs(s, acts), workflow, OnHold)
    decreases |acts|
  {
    if acts != [] {
      assert Unasked([acts[0]], workflow) && Unasked(acts[1..], workflow);
      StuckAct(s, acts[0], workflow);
      HeldUntilAsked(Acted(s, acts[0]), acts[1..], workflow);
    }
  }

  /** The check and the dispatch are two steps: a watcher that looked before the
    * hold was set dispatches under it, and clears it, whenever preflight passes. */
  lemma StaleWatcherDispatches(s: State, e: Id, runId: Id, code: Code, sent: Fingerprint)
    requires Inv(s) && e !in s.h.used && Ready(s.disk, code)
    ensures var w := s.disk.workflow.value;
            var after := Cut(s, Dispatch(e, runId, code, sent), 4).disk;
            && after.workflow.Some? && !after.workflow.value.hold
            && (after.outstanding == Some(Outstanding(e, w.id, runId)) <==> w.reserved.None?)
  {
    DispatchedDisk(s.disk, e, RunRecord(ReadStatus(s.disk.handoff), runId, sent));
  }

  lemma DispatchedDisk(d: Disk, e: Id, run: RunRecord)
    requires d.workflow.Some? && d.outstanding.None?
    ensures var w := d.workflow.value.(hold := false);
            Apply(d, Prefix(PreparedWrites(d.workflow.value, e, run), 4))
            == (if w.reserved.Some? then d.(workflow := Some(w), records := d.records[e := run])
                else d.(workflow := Some(w.(reserved := Some(e))), records := d.records[e := run],
                        outstanding := Some(Outstanding(e, w.id, run.run))))
  {
    var ws := PreparedWrites(d.workflow.value, e, run);
    PrefixAt(d, ws, 0);
    PrefixAt(d, ws, 1);
    PrefixAt(d, ws, 2);
    if d.workflow.value.reserved.None? {
      PrefixAt(d, ws, 3);
    }
    PrefixAt(d, ws, 4);
  }
}
