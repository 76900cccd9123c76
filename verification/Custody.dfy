/** Code custody: which tree each worker started from, over whole runs of commands
  * cut anywhere and of launches in between.
  *
  * A dispatch reads the code twice: preflight compares the first reading with the
  * baseline, the request carries the second, and the server launches only on what
  * the request says.
  */
module Custody {
  import opened Wrappers
  import opened Handoff
  import opened Store
  import opened Workflow
  import opened Rounds

  /** What was recorded about code, in order.  A receipt starts with its parent's
    * baseline, or none; deliveries and clean re-approvals replace it.  Receipts
    * closed before the run began have the baseline they were found with. */
  datatype Event =
    | Found(workflow: Id, baseline: Option<Fingerprint>)
    | Created(workflow: Id, baseline: Option<Fingerprint>, parent: Option<Id>)
    | Delivered(workflow: Id, fingerprint: Fingerprint)
    | CleanRebaseline(workflow: Id, code: Code)
    | Dispatched(workflow: Id, execution: Id, code: Code, sent: Fingerprint)
    | Launched(workflow: Id, execution: Id, found: Fingerprint)

  /** The baseline last recorded for a receipt. */
  function Baseline(trace: seq<Event>, workflow: Id): Option<Fingerprint>
    decreases |trace|
  {
    if trace == [] then None
    else
      var n := |trace| - 1;
      var last := trace[n];
      if last.workflow != workflow || last.Dispatched? || last.Launched? then Baseline(trace[..n], workflow)
      else match last
        case Found(_, baseline) => baseline
        case Created(_, baseline, _) => baseline
        case Delivered(_, f) => Some(f)
        case CleanRebaseline(_, code) => Some(code.fingerprint)
        case _ => None
  }

  predicate Known(trace: seq<Event>, workflow: Id) { exists i | 0 <= i < |trace| :: trace[i].workflow == workflow }

  /** A request was sent with this fingerprint. */
  predicate SentAs(trace: seq<Event>, workflow: Id, e: Id, found: Fingerprint) {
    exists j | 0 <= j < |trace| :: trace[j].Dispatched? && trace[j].workflow == workflow && trace[j].execution == e && trace[j].sent == found
  }

  /** Every event is as custody demands: a run starts from the baseline last
    * recorded for its receipt, or from a clean tree when there is none; a receipt
    * inherits its parent's last baseline; only a clean tree becomes a new baseline. */
  ghost predicate EventOk(trace: seq<Event>, i: nat)
    requires i < |trace|
  {
    match trace[i]
    case Launched(w, e, found) => SentAs(trace[..i], w, e, found)
    case Dispatched(w, _, code, _) =>
      var baseline := Baseline(trace[..i], w);
      if baseline.Some? then baseline == Some(code.fingerprint) else code.clean
    case Created(_, baseline, parent) =>
      if parent.Some? then baseline == Baseline(trace[..i], parent.value) else baseline.None?
    case CleanRebaseline(_, code) => code.clean
    case _ => true
  }

  ghost predicate TraceOk(d: Disk, trace: seq<Event>) {
    && (forall i: nat | i < |trace| :: EventOk(trace, i))
    && (d.workflow.Some? ==> Tracked(d.workflow.value, trace))
    && (forall i | 0 <= i < |d.closed| :: Tracked(d.closed[i], trace))
  }

  predicate Tracked(w: Receipt, trace: seq<Event>) {
    Known(trace, w.id) && w.postRun == Baseline(trace, w.id)
  }

  /** The events of a command cut after `k` writes. */
  function Events(d: Disk, c: Command, k: nat): seq<Event> {
    match c
    case Approve(newId, maxRounds, code) =>
      var receipt := ApprovedReceipt(d, newId, maxRounds, code);
      if receipt.None? || k == 0 then []
      else if Active(d).None? then [Created(newId, receipt.value.postRun, receipt.value.parent)]
      else if Rebaselines(Active(d).value) then [CleanRebaseline(receipt.value.id, code)]
      else []
    case Dispatch(e, runId, code, sent) =>
      if Ready(d, code) && d.workflow.value.reserved.None? && k >= 4 then [Dispatched(d.workflow.value.id, e, code, sent)] else []
    case Reconcile(v) =>
      if d.outstanding.Some? && d.workflow.Some? && OutcomeOf(v) != RunRejected && Settles(d.outstanding.value, v)
         && k >= 4 && v.fingerprint.Some?
      then [Delivered(d.workflow.value.id, v.fingerprint.value)]
      else []
    case _ => []
  }

  // ---- traces ---------------------------------------------------------------------

  lemma Extended(trace: seq<Event>, e: Event, workflow: Id)
    ensures Known(trace + [e], workflow) <==> Known(trace, workflow) || e.workflow == workflow
    ensures e.workflow != workflow || e.Dispatched? || e.Launched? ==> Baseline(trace + [e], workflow) == Baseline(trace, workflow)
    ensures e.workflow == workflow && e.Delivered? ==> Baseline(trace + [e], workflow) == Some(e.fingerprint)
    ensures e.workflow == workflow && e.CleanRebaseline? ==> Baseline(trace + [e], workflow) == Some(e.code.fingerprint)
    ensures e.workflow == workflow && (e.Created? || e.Found?) ==> Baseline(trace + [e], workflow) == e.baseline
  {
    var t := trace + [e];
    assert t[..|t| - 1] == trace && t[|t| - 1] == e;
    if Known(trace, workflow) {
      var i :| 0 <= i < |trace| && trace[i].workflow == workflow;
      assert t[i].workflow == workflow;
    }
    if Known(t, workflow) && e.workflow != workflow {
      var i :| 0 <= i < |t| && t[i].workflow == workflow;
      assert trace[i].workflow == workflow;
    }
  }

  lemma EventsStayOk(trace: seq<Event>, e: Event)
    requires forall i: nat | i < |trace| :: EventOk(trace, i)
    requires EventOk(trace + [e], |trace|)
    ensures forall i: nat | i < |trace + [e]| :: EventOk(trace + [e], i)
  {
    forall i: nat | i < |trace| ensures EventOk(trace + [e], i) {
      assert (trace + [e])[..i] == trace[..i];
      assert EventOk(trace, i);
    }
  }

  /** One event about a receipt other than the closed ones. */
  lemma ExtendedTrace(d: Disk, trace: seq<Event>, e: Event)
    requires TraceOk(d, trace) && EventOk(trace + [e], |trace|)
    requires forall i | 0 <= i < |d.closed| :: d.closed[i].id != e.workflow
    ensures forall i: nat | i < |trace + [e]| :: EventOk(trace + [e], i)
    ensures forall i | 0 <= i < |d.closed| :: Tracked(d.closed[i], trace + [e])
  {
    EventsStayOk(trace, e);
    forall i | 0 <= i < |d.closed| ensures Tracked(d.closed[i], trace + [e]) {
      Extended(trace, e, d.closed[i].id);
    }
  }

  lemma LatestIsClosed(closed: seq<Receipt>)
    ensures LatestSuperseded(closed).Some? ==>
              exists i :: 0 <= i < |closed| && closed[i] == LatestSuperseded(closed).value
  {
    if closed != [] && closed[|closed| - 1].disposition != Superseded {
      LatestIsClosed(closed[..|closed| - 1]);
    }
  }

  // ---- what every cut command keeps ------------------------------------------------

  /** The open receipt is not among the closed ones, and is known. */
  ghost predicate IdsOk(d: Disk) {
    d.workflow.Some? && d.workflow.value.disposition == Open ==>
      forall i | 0 <= i < |d.closed| :: d.closed[i].id != d.workflow.value.id
  }

  ghost predicate CustodyOk(d: Disk, trace: seq<Event>) { TraceOk(d, trace) && IdsOk(d) }

  lemma UnchangedBaselines(d: Disk, d': Disk, trace: seq<Event>)
    requires CustodyOk(d, trace) && d'.closed == d.closed
    requires d'.workflow.Some? ==>
               && d.workflow.Some? && d'.workflow.value.id == d.workflow.value.id
               && d'.workflow.value.postRun == d.workflow.value.postRun
               && (d'.workflow.value.disposition == Open ==> d.workflow.value.disposition == Open)
    ensures CustodyOk(d', trace)
  {
  }

  /** The receipt's baseline changes together with an event that says so. */
  lemma NewBaseline(d: Disk, d': Disk, trace: seq<Event>, e: Event)
    requires CustodyOk(d, trace) && EventOk(trace + [e], |trace|) && d'.closed == d.closed && d'.workflow.Some?
    requires forall i | 0 <= i < |d.closed| :: d.closed[i].id != e.workflow
    requires var w := d'.workflow.value;
             w.id == e.workflow && w.postRun == Baseline(trace + [e], e.workflow)
    ensures CustodyOk(d', trace + [e])
  {
    ExtendedTrace(d, trace, e);
    Extended(trace, e, e.workflow);
  }

  lemma DispatchKeeps(d: Disk, trace: seq<Event>, e: Id, runId: Id, code: Code, sent: Fingerprint, k: nat)
    requires CustodyOk(d, trace)
    ensures CustodyOk(Apply(d, Prefix(DispatchWrites(d, e, runId, code, sent), k)), trace + Events(d, Dispatch(e, runId, code, sent), k))
  {
    if Ready(d, code) {
      PreparedKeeps(d, trace, e, RunRecord(ReadStatus(d.handoff), runId, sent), code, k);
    } else {
      assert trace + [] == trace;
    }
  }

  /** A dispatch leaves the baseline, and the closed receipts, alone. */
  lemma PreparedSameBaseline(d: Disk, e: Id, run: RunRecord, k: nat)
    requires d.workflow.Some?
    ensures var w := d.workflow.value;
            var after := Apply(d, Prefix(PreparedWrites(w, e, run), k));
            && after.closed == d.closed && after.workflow.Some? && after.workflow.value.id == w.id
            && after.workflow.value.postRun == w.postRun && after.workflow.value.disposition == w.disposition
  {
    var ws := PreparedWrites(d.workflow.value, e, run);
    PrefixAt(d, ws, 0);
    PrefixAt(d, ws, 1);
    PrefixAt(d, ws, 2);
    if d.workflow.value.reserved.None? {
      PrefixAt(d, ws, 3);
      PrefixAt(d, ws, 4);
    }
    PrefixAt(d, ws, k);
  }

  lemma PreparedKeeps(d: Disk, trace: seq<Event>, e: Id, run: RunRecord, code: Code, k: nat)
    requires CustodyOk(d, trace) && d.workflow.Some? && d.workflow.value.disposition == Open
    requires if d.workflow.value.postRun.Some? then d.workflow.value.postRun == Some(code.fingerprint) else code.clean
    ensures var w := d.workflow.value;
            var after := Apply(d, Prefix(PreparedWrites(w, e, run), k));
            CustodyOk(after, trace + (if w.reserved.None? && k >= 4 then [Dispatched(w.id, e, code, run.code)] else []))
  {
    var w := d.workflow.value;
    var after := Apply(d, Prefix(PreparedWrites(w, e, run), k));
    PreparedSameBaseline(d, e, run, k);
    UnchangedBaselines(d, after, trace);
    assert trace + [] == trace;
    if w.reserved.None? && k >= 4 {
      var event := Dispatched(w.id, e, code, run.code);
      assert (trace + [event])[..|trace|] == trace;
      Extended(trace, event, w.id);
      NewBaseline(d, after, trace, event);
    }
  }

  lemma SettledKeeps(d: Disk, trace: seq<Event>, v: View, text: string, discarded: Option<string>, k: nat)
    requires CustodyOk(d, trace) && d.outstanding.Some? && d.workflow.Some? && d.workflow.value.disposition == Open
    requires OutcomeOf(v) != RunRejected && Settles(d.outstanding.value, v)
    ensures var w := d.workflow.value;
            var after := Apply(d, Prefix(ReconciledWrites(w, d.outstanding.value, v, text, discarded), k));
            CustodyOk(after, trace + (if k >= 4 && v.fingerprint.Some? then [Delivered(w.id, v.fingerprint.value)] else []))
  {
    var w := d.workflow.value;
    var after := Apply(d, Prefix(ReconciledWrites(w, d.outstanding.value, v, text, discarded), k));
    assert trace + [] == trace;
    if k == 0 {
      assert after == d;
    } else {
      SettledDisks(d, v, text, discarded, k);
      if k >= 4 && v.fingerprint.Some? {
        var event := Delivered(w.id, v.fingerprint.value);
        assert (trace + [event])[..|trace|] == trace;
        Extended(trace, event, w.id);
        NewBaseline(d, after, trace, event);
      } else {
        UnchangedBaselines(d, after, trace);
      }
    }
  }

  lemma UnsettledKeeps(d: Disk, trace: seq<Event>, v: View, text: string, discarded: Option<string>, k: nat)
    requires CustodyOk(d, trace) && d.outstanding.Some? && d.workflow.Some?
    requires OutcomeOf(v) == RunRejected || !Settles(d.outstanding.value, v)
    ensures CustodyOk(Apply(d, Prefix(ReconciledWrites(d.workflow.value, d.outstanding.value, v, text, discarded), k)), trace)
  {
    var ws := ReconciledWrites(d.workflow.value, d.outstanding.value, v, text, discarded);
    PrefixAt(d, ws, 0);
    PrefixAt(d, ws, 1);
    PrefixAt(d, ws, 2);
    PrefixAt(d, ws, k);
    UnchangedBaselines(d, Apply(d, Prefix(ws, k)), trace);
  }

  lemma ReconcileKeeps(d: Disk, trace: seq<Event>, v: View, k: nat)
    requires CustodyOk(d, trace)
    requires d.outstanding.Some? && d.workflow.Some? ==> d.workflow.value.disposition == Open
    ensures CustodyOk(Apply(d, Prefix(ReconcileWrites(d, v), k)), trace + Events(d, Reconcile(v), k))
  {
    assert trace + [] == trace;
    if d.outstanding.Some? && d.workflow.Some? {
      var o := d.outstanding.value;
      if OutcomeOf(v) != RunRejected && Settles(o, v) {
        SettledKeeps(d, trace, v, SettledText(d, o, v), Discarded(d, o, v), k);
      } else {
        UnsettledKeeps(d, trace, v, SettledText(d, o, v), Discarded(d, o, v), k);
      }
    }
  }

  lemma ParentIsTracked(d: Disk, trace: seq<Event>)
    requires TraceOk(d, trace)
    ensures LatestSuperseded(d.closed).Some? ==> Tracked(LatestSuperseded(d.closed).value, trace)
  {
    LatestIsClosed(d.closed);
  }

  lemma CreatedKeeps(d: Disk, trace: seq<Event>, newId: Id, maxRounds: nat, plan: string, text: string, k: nat)
    requires CustodyOk(d, trace) && !Known(trace, newId) && k > 0
    ensures var receipt := NewReceipt(d, newId, maxRounds, plan);
            var after := Apply(d, Prefix(ApprovalWrites(Some(receipt), text), k));
            CustodyOk(after, trace + [Created(newId, receipt.postRun, receipt.parent)])
  {
    var receipt := NewReceipt(d, newId, maxRounds, plan);
    var event := Created(newId, receipt.postRun, receipt.parent);
    ParentIsTracked(d, trace);
    assert (trace + [event])[..|trace|] == trace;
    Extended(trace, event, newId);
    ApprovedDisk(d, receipt, text, k);
    NewBaseline(d, Apply(d, Prefix(ApprovalWrites(Some(receipt), text), k)), trace, event);
  }

  lemma ApprovedDisk(d: Disk, receipt: Receipt, text: string, k: nat)
    requires k > 0
    ensures var after := Apply(d, Prefix(ApprovalWrites(Some(receipt), text), k));
            after.workflow == Some(receipt) && after.closed == d.closed && after.outstanding == d.outstanding
  {
    var ws := ApprovalWrites(Some(receipt), text);
    PrefixAt(d, ws, 0);
    PrefixAt(d, ws, 1);
    PrefixAt(d, ws, 2);
    PrefixAt(d, ws, k);
  }

  lemma ReapprovedKeeps(d: Disk, trace: seq<Event>, code: Code, plan: string, text: string, k: nat)
    requires CustodyOk(d, trace) && Active(d).Some? && k > 0 && (Rebaselines(Active(d).value) ==> code.clean)
    ensures var w := Active(d).value;
            var receipt := Rebaselined(w, code).(plan := plan);
            var after := Apply(d, Prefix(ApprovalWrites(Some(receipt), text), k));
            CustodyOk(after, trace + (if Rebaselines(w) then [CleanRebaseline(w.id, code)] else []))
  {
    var w := Active(d).value;
    var receipt := Rebaselined(w, code).(plan := plan);
    var after := Apply(d, Prefix(ApprovalWrites(Some(receipt), text), k));
    ApprovedDisk(d, receipt, text, k);
    assert trace + [] == trace;
    if Rebaselines(w) {
      var event := CleanRebaseline(w.id, code);
      Extended(trace, event, w.id);
      NewBaseline(d, after, trace, event);
    } else {
      UnchangedBaselines(d, after, trace);
    }
  }

  lemma ApproveKeeps(d: Disk, trace: seq<Event>, newId: Id, maxRounds: nat, code: Code, k: nat)
    requires CustodyOk(d, trace) && !Known(trace, newId)
    ensures CustodyOk(Apply(d, Prefix(ApproveWrites(d, newId, maxRounds, code), k)),
                      trace + Events(d, Approve(newId, maxRounds, code), k))
  {
    var receipt, text := ApprovedReceipt(d, newId, maxRounds, code), ReplaceStatus(d.handoff, READY_FOR_EXECUTION);
    assert trace + [] == trace;
    assert Prefix(ApprovalWrites(receipt, text), 0) == [];
    if receipt.Some? && k > 0 {
      if Active(d).None? {
        CreatedKeeps(d, trace, newId, maxRounds, receipt.value.plan, text, k);
      } else {
        ReapprovedKeeps(d, trace, code, receipt.value.plan, text, k);
      }
    }
  }

  lemma ClosingKeeps(d: Disk, trace: seq<Event>, superseded: bool, append: Write, k: nat)
    requires CustodyOk(d, trace) && append.AppendArchive?
    ensures CustodyOk(Apply(d, Prefix(ClosingWrites(d.workflow, superseded, append), k)), trace)
  {
    ClosingDisks(d, superseded, append, k);
  }

  lemma ArchiveKeeps(d: Disk, trace: seq<Event>, superseded: bool, header: string, extra: string, k: nat)
    requires CustodyOk(d, trace)
    ensures CustodyOk(Apply(d, Prefix(ArchiveWrites(d, superseded, header, extra), k)), trace)
  {
    if Archivable(d, superseded) {
      ClosingKeeps(d, trace, superseded, AppendArchive(header, extra, d.handoff), k);
    }
  }

  lemma StepKeeps(s: State, trace: seq<Event>, c: Command, k: nat)
    requires Inv(s) && CustodyOk(s.disk, trace) && (c.Approve? ==> !Known(trace, c.newId))
    ensures CustodyOk(Cut(s, c, k).disk, trace + Events(s.disk, c, k))
  {
    assert trace + [] == trace;
    match c
    case Approve(newId, maxRounds, code) => ApproveKeeps(s.disk, trace, newId, maxRounds, code, k);
    case Dispatch(e, runId, code, sent) => DispatchKeeps(s.disk, trace, e, runId, code, sent, k);
    case Reconcile(v) => ReconcileKeeps(s.disk, trace, v, k);
    case Archive(superseded, header, extra) => ArchiveKeeps(s.disk, trace, superseded, header, extra, k);
    case Edit(text) => EditedDisk(s.disk, text, k);
  }

  /** A launch on what the request says. */
  lemma LaunchKeeps(d: Disk, trace: seq<Event>, workflow: Id, e: Id, found: Fingerprint)
    requires CustodyOk(d, trace) && SentAs(trace, workflow, e, found)
    ensures CustodyOk(d, trace + [Launched(workflow, e, found)])
  {
    var event := Launched(workflow, e, found);
    assert (trace + [event])[..|trace|] == trace;
    EventsStayOk(trace, event);
    forall id ensures Baseline(trace + [event], id) == Baseline(trace, id) && (Known(trace, id) ==> Known(trace + [event], id)) {
      Extended(trace, event, id);
    }
  }

  // ---- runs ---------------------------------------------------------------------------

  /** A client command, cut somewhere, or a worker launched by the server. */
  datatype Move = Client(attempt: Attempt) | Launch(workflow: Id, execution: Id, found: Fingerprint)

  function Moved(s: State, m: Move): State { if m.Client? then Cut(s, m.attempt.command, m.attempt.cut) else s }

  function MoveEvents(s: State, m: Move): seq<Event> {
    match m
    case Client(a) => Events(s.disk, a.command, a.cut)
    case Launch(w, e, found) => [Launched(w, e, found)]
  }

  /** All events of a run. */
  function Trace(s: State, trace: seq<Event>, moves: seq<Move>): seq<Event>
    decreases |moves|
  {
    if moves == [] then trace else Trace(Moved(s, moves[0]), trace + MoveEvents(s, moves[0]), moves[1..])
  }

  /** New workflow ids are new, and `verify_code_fingerprint` lets a worker start only
    * on the code its request names. */
  predicate MayMove(s: State, trace: seq<Event>, m: Move) {
    match m
    case Client(a) => Enabled(s, a.command) && (a.command.Approve? ==> !Known(trace, a.command.newId))
    case Launch(w, e, found) => SentAs(trace, w, e, found)
  }

  predicate CanMove(s: State, trace: seq<Event>, moves: seq<Move>)
    decreases |moves|
  {
    moves == [] ||
    (MayMove(s, trace, moves[0]) && CanMove(Moved(s, moves[0]), trace + MoveEvents(s, moves[0]), moves[1..]))
  }

  lemma MoveKeeps(s: State, trace: seq<Event>, m: Move)
    requires Inv(s) && CustodyOk(s.disk, trace) && MayMove(s, trace, m)
    ensures Inv(Moved(s, m)) && CustodyOk(Moved(s, m).disk, trace + MoveEvents(s, m))
  {
    match m
    case Client(a) =>
      CutInv(s, a.command, a.cut);
      StepKeeps(s, trace, a.command, a.cut);
    case Launch(w, e, found) => LaunchKeeps(s.disk, trace, w, e, found);
  }

  lemma {:induction false} RunKeeps(s: State, trace: seq<Event>, moves: seq<Move>)
    requires Inv(s) && CustodyOk(s.disk, trace) && CanMove(s, trace, moves)
    ensures TraceOk(s.disk, trace) && forall i: nat | i < |Trace(s, trace, moves)| :: EventOk(Trace(s, trace, moves), i)
    decreases |moves|
  {
    if moves != [] {
      MoveKeeps(s, trace, moves[0]);
      RunKeeps(Moved(s, moves[0]), trace + MoveEvents(s, moves[0]), moves[1..]);
    }
  }

  // ---- receipts closed before ---------------------------------------------------------

  /** Each closed receipt has one file, named by its id. */
  predicate OneFileEach(closed: seq<Receipt>) {
    forall i, j | 0 <= i < |closed| && 0 <= j < |closed| && closed[i].id == closed[j].id :: closed[i].postRun == closed[j].postRun
  }

  /** The baselines of the receipts that were closed before the run. */
  function Seed(closed: seq<Receipt>): seq<Event> {
    if closed == [] then []
    else
      var n := |closed| - 1;
      Seed(closed[..n]) + [Found(closed[n].id, closed[n].postRun)]
  }

  lemma {:induction false} SeedTracks(closed: seq<Receipt>)
    requires OneFileEach(closed)
    ensures forall i | 0 <= i < |closed| :: Tracked(closed[i], Seed(closed))
    ensures forall i: nat | i < |Seed(closed)| :: EventOk(Seed(closed), i)
    decreases |closed|
  {
    if closed != [] {
      var n := |closed| - 1;
      var seed, e := Seed(closed[..n]), Found(closed[n].id, closed[n].postRun);
      SeedTracks(closed[..n]);
      EventsStayOk(seed, e);
      forall i | 0 <= i < |closed| ensures Tracked(closed[i], Seed(closed)) {
        Extended(seed, e, closed[i].id);
        if i < n {
          assert closed[..n][i] == closed[i] && Tracked(closed[..n][i], seed);
        }
      }
    }
  }

  /** A repository before its first approval, or between two workflows. */
  ghost predicate Begins(d: Disk) { Untouched(d) && OneFileEach(d.closed) }

  lemma SeededRun(d: Disk, moves: seq<Move>)
    requires Begins(d) && CanMove(State(d, NO_HISTORY), Seed(d.closed), moves)
    ensures var trace := Trace(State(d, NO_HISTORY), Seed(d.closed), moves);
            forall i: nat | i < |trace| :: EventOk(trace, i)
  {
    SeedTracks(d.closed);
    RunKeeps(State(d, NO_HISTORY), Seed(d.closed), moves);
  }

  /** Over any sequence of commands cut anywhere, every dispatched run passed preflight
    * on the code recorded last for its receipt -- at its last reconciled delivery, at
    * a clean re-approval of a changed plan, or inherited from the superseded parent,
    * which may have been closed long before -- or, when nothing was recorded, on a
    * clean tree. */
  lemma EveryRunStartsFromItsBaseline(d: Disk, moves: seq<Move>, i: nat)
    requires Begins(d) && CanMove(State(d, NO_HISTORY), Seed(d.closed), moves)
    requires i < |Trace(State(d, NO_HISTORY), Seed(d.closed), moves)|
    ensures var trace := Trace(State(d, NO_HISTORY), Seed(d.closed), moves);
            trace[i].Dispatched? ==>
              var baseline := Baseline(trace[..i], trace[i].workflow);
              if baseline.Some? then baseline == Some(trace[i].code.fingerprint) else trace[i].code.clean
  {
    SeededRun(d, moves);
    assert EventOk(Trace(State(d, NO_HISTORY), Seed(d.closed), moves), i);
  }

  /** The launch at `i` belongs to the dispatch at `j`, and starts on its baseline --
    * or on its clean tree -- exactly if the code did not change between preflight
    * and the request. */
  predicate StartsFrom(trace: seq<Event>, i: nat, j: nat)
    requires j < i < |trace| && trace[i].Launched?
  {
    && trace[j].Dispatched? && trace[j].workflow == trace[i].workflow && trace[j].execution == trace[i].execution
    && var baseline := Baseline(trace[..j], trace[j].workflow);
       if baseline.Some? then baseline == Some(trace[i].found) <==> trace[j].sent == trace[j].code.fingerprint
       else trace[j].code.clean && (trace[i].found == trace[j].code.fingerprint <==> trace[j].sent == trace[j].code.fingerprint)
  }

  /** Over every run, each launched worker starts on the baseline of its receipt as it
    * was at the dispatch, if and only if the two readings of that dispatch agree. */
  lemma EveryLaunchStartsFromItsBaseline(d: Disk, moves: seq<Move>, i: nat) returns (j: nat)
    requires Begins(d) && CanMove(State(d, NO_HISTORY), Seed(d.closed), moves)
    requires i < |Trace(State(d, NO_HISTORY), Seed(d.closed), moves)|
    requires Trace(State(d, NO_HISTORY), Seed(d.closed), moves)[i].Launched?
    ensures j < i && StartsFrom(Trace(State(d, NO_HISTORY), Seed(d.closed), moves), i, j)
  {
    var trace := Trace(State(d, NO_HISTORY), Seed(d.closed), moves);
    SeededRun(d, moves);
    assert EventOk(trace, i);
    j :| 0 <= j < i && trace[..i][j].Dispatched? && trace[..i][j].workflow == trace[i].workflow
         && trace[..i][j].execution == trace[i].execution && trace[..i][j].sent == trace[i].found;
    assert EventOk(trace, j);
  }
}
