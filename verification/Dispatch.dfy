/** Submissions, acknowledgements and launches of one server over any run.
  *
  * The network loses and repeats messages, any number of send-message calls is
  * in flight at once, callers cancel, and the server crashes and restarts.
  * One `execute` call follows each dispatch.
  */
module Dispatch {
  import opened Wrappers
  import opened Contracts
  import opened Store

  /** Where a send-message call stands in `ClaimAwareHandler.on_message_send`. */
  datatype Call =
    | Parsed(request: CodingRequest)
    | Holding(request: CodingRequest, taskId: Id, status: Status)
    | Deciding(request: CodingRequest, taskId: Id)
    | Lost(request: CodingRequest, taskId: Id)
    | Inner(request: CodingRequest, taskId: Id)

  datatype Phase = Preparing | Launched | Ended

  datatype Runtime = Runtime(request: CodingRequest, taskId: Id, phase: Phase)

  datatype Ack = Ack(request: CodingRequest, taskId: Id)

  /** The client's durable run record. */
  datatype Record = Record(request: CodingRequest, taskId: Option<Id>)

  datatype World = World(
    db: Db,
    calls: map<nat, Call>,
    runtimes: map<nat, Runtime>,       // keyed by the call that dispatched them
    next: nat,                          // the next call
    wire: set<CodingRequest>,           // requests ever sent
    acks: set<Ack>,                     // replies ever sent
    records: map<Id, Record>,
    // history
    winner: map<Id, nat>,               // the call that won each dispatch
    dispatched: seq<Id>,
    launched: seq<CodingRequest>,
    refused: set<CodingRequest>,        // rejected as conflicting
    foreign: set<Id>,                   // execution ids used by other senders
    early: set<Id>)                     // settled before their worker was launched, unseen by their runtime

  datatype Action =
    | ClientStart(request: CodingRequest)
    | ForeignSend(request: CodingRequest)
    | Resend(execution: Id)
    | Deliver(request: CodingRequest)
    | Claim(call: nat, freshTask: Id, freshContext: Id)
    | Check(call: nat)
    | Dispatch(call: nat)
    | Reply(call: nat)
    | Begin(call: nat)
    | Launch(call: nat)
    | End(call: nat, status: Status, state: TaskState)
    | Cancel(execution: Id, status: Status, state: TaskState)   // no runtime is attached; otherwise it is an End
    | Shutdown(after: Db)    // `shutdown` reconciles while calls and runtimes are still there
    | Restart(after: Db)
    | AckArrives(ack: Ack)

  const START := World(Db(map[], map[]), map[], map[], 0, {}, {}, map[], map[], [], [], {}, {}, {})

  // ---- the steps -------------------------------------------------------------

  function Acked(w: World, call: nat, r: CodingRequest, taskId: Id): World {
    w.(calls := w.calls - {call}, acks := w.acks + {Ack(r, taskId)})
  }

  /** What a settled execution leaves in the registry and the task store. */
  function Settled(db: Db, e: Id, taskId: Id, status: Status, state: TaskState): Db {
    AfterOutcome(WithStatus(db, e, status), taskId, state)
  }

  predicate IsSettled(s: Status) { IsTerminal(s) || s.RecoveryRequired? }

  /** Startup reconciliation, as far as this module sees it: rows and tasks stay,
    * and no row is left claimed or running. */
  ghost predicate Reconciles(before: Db, after: Db) {
    && after.executions.Keys == before.executions.Keys && before.tasks.Keys <= after.tasks.Keys
    && forall e | e in before.executions ::
         && after.executions[e].request == before.executions[e].request
         && after.executions[e].taskId == before.executions[e].taskId
         && IsSettled(after.executions[e].status)
  }

  /** Whether an action can happen now. */
  ghost predicate Enabled(w: World, a: Action) {
    match a
    case ClientStart(r) => r.executionId !in w.records && r.executionId !in w.foreign
    case ForeignSend(_) => true
    case Resend(e) => e in w.records && w.records[e].taskId == None
    case Deliver(r) => r in w.wire
    case Claim(c, t, _) => c in w.calls && w.calls[c].Parsed? && t !in w.db.tasks
    case Check(c) => c in w.calls && w.calls[c].Holding?
    case Dispatch(c) => c in w.calls && w.calls[c].Deciding?
    case Reply(c) => c in w.calls && w.calls[c].Lost?
    case Begin(c) => c in w.calls && w.calls[c].Inner?
    case Launch(c) => c in w.runtimes && w.runtimes[c].phase == Preparing
    case End(c, s, _) => c in w.runtimes && w.runtimes[c].phase != Ended && IsSettled(s)
    case Cancel(e, s, _) =>
      && e in w.db.executions && !IsTerminal(w.db.executions[e].status) && IsSettled(s)
      && forall c | c in w.runtimes && w.runtimes[c].request.executionId == e :: w.runtimes[c].phase == Ended
    case Shutdown(after) => Reconciles(w.db, after)
    case Restart(after) => Reconciles(w.db, after)
    case AckArrives(ack) =>
      && ack in w.acks && ack.request.executionId in w.records
      && w.records[ack.request.executionId].request == ack.request
  }

  function ClaimStep(w: World, c: nat, r: CodingRequest, t: Id, ctx: Id): World {
    if Conflicts(w.db, r) then w.(calls := w.calls - {c}, refused := w.refused + {r})
    else
      var db := AfterClaim(w.db, r, t, ctx);
      if r.executionId in db.executions then
        var row := db.executions[r.executionId];
        w.(db := db, calls := w.calls[c := Holding(r, row.taskId, row.status)])
      else w
  }

  function CheckStep(w: World, c: nat, r: CodingRequest, t: Id, status: Status): World {
    if IsSettled(status) && t in w.db.tasks then Acked(w, c, r, t)
    else w.(calls := w.calls[c := Deciding(r, t)])
  }

  function DispatchStep(w: World, c: nat, r: CodingRequest, t: Id): World {
    var e := r.executionId;
    if CanDispatch(w.db, e)
    then w.(db := AfterDispatch(w.db, e), calls := w.calls[c := Inner(r, t)],
            winner := w.winner[e := c], dispatched := w.dispatched + [e])
    else w.(calls := w.calls[c := Lost(r, t)])
  }

  /** Without a stored task the call falls through and dispatches again. */
  function ReplyStep(w: World, c: nat, r: CodingRequest, t: Id): World {
    if t in w.db.tasks then Acked(w, c, r, t)
    else w.(calls := w.calls[c := Inner(r, t)], dispatched := w.dispatched + [r.executionId])
  }

  /** The call that won this dispatch has not yet registered a runtime. */
  predicate Awaited(w: World, e: Id) {
    e in w.winner && w.winner[e] in w.calls && w.calls[w.winner[e]].Inner?
    && w.calls[w.winner[e]].request.executionId == e
  }

  /** A runtime of this execution has not launched its worker yet. */
  predicate IsPreparing(w: World, e: Id) {
    exists c :: c in w.runtimes && w.runtimes[c].phase == Preparing && w.runtimes[c].request.executionId == e
  }

  ghost function Next(w: World, a: Action): World
    requires Enabled(w, a)
  {
    match a
    case ClientStart(r) => w.(records := w.records[r.executionId := Record(r, None)], wire := w.wire + {r})
    case ForeignSend(r) => w.(wire := w.wire + {r}, foreign := w.foreign + {r.executionId})
    case Resend(e) => w.(wire := w.wire + {w.records[e].request})
    case Deliver(r) => w.(calls := w.calls[w.next := Parsed(r)], next := w.next + 1)
    case Claim(c, t, ctx) => ClaimStep(w, c, w.calls[c].request, t, ctx)
    case Check(c) => CheckStep(w, c, w.calls[c].request, w.calls[c].taskId, w.calls[c].status)
    case Dispatch(c) => DispatchStep(w, c, w.calls[c].request, w.calls[c].taskId)
    case Reply(c) => ReplyStep(w, c, w.calls[c].request, w.calls[c].taskId)
    case Begin(c) =>
      var call := w.calls[c];
      Acked(w, c, call.request, call.taskId)
        .(runtimes := w.runtimes[c := Runtime(call.request, call.taskId, Preparing)])
    case Launch(c) =>
      var rt := w.runtimes[c];
      w.(runtimes := w.runtimes[c := rt.(phase := Launched)],
         db := WithStatus(w.db, rt.request.executionId, Running),
         launched := w.launched + [rt.request])
    case End(c, s, state) =>
      var rt := w.runtimes[c];
      w.(runtimes := w.runtimes[c := rt.(phase := Ended)],
         db := Settled(w.db, rt.request.executionId, rt.taskId, s, state))
    case Cancel(e, s, state) =>
      w.(db := Settled(w.db, e, w.db.executions[e].taskId, s, state),
         early := if Awaited(w, e) then w.early + {e} else w.early)
    case Shutdown(after) =>
      w.(db := after, early := w.early + (set e | e in w.winner && (Awaited(w, e) || IsPreparing(w, e))))
    case Restart(after) => w.(db := after, calls := map[], runtimes := map[])
    case AckArrives(ack) =>
      w.(records := w.records[ack.request.executionId := Record(ack.request, Some(ack.taskId))])
  }

  // ---- what every step keeps ----------------------------------------------------

  /** The registry holds this request under this task. */
  ghost predicate Owns(db: Db, r: CodingRequest, t: Id) {
    && r.executionId in db.executions
    && db.executions[r.executionId].request == r && db.executions[r.executionId].taskId == t
  }

  ghost predicate RowOk(w: World, e: Id) {
    && (e in w.db.executions ==>
          && w.db.executions[e].request.executionId == e && w.db.executions[e].taskId in w.db.tasks
          && (e in w.records && e !in w.foreign ==> w.db.executions[e].request == w.records[e].request)
          && (e in w.records || e in w.foreign))
    && (e in w.winner <==> e in w.dispatched)
    && (e in w.winner ==> e in w.db.executions && w.db.executions[e].status != Claimed && w.winner[e] < w.next)
    && (e in w.early ==> e in w.winner)
  }

  ghost predicate Won(w: World, e: Id, c: nat) { e in w.winner && w.winner[e] == c }

  ghost predicate NotLaunched(w: World, e: Id) {
    forall i | 0 <= i < |w.launched| :: w.launched[i].executionId != e
  }

  /** The row is settled only if an early cancel did it. */
  ghost predicate SettledEarly(w: World, e: Id) {
    e in w.db.executions && (IsSettled(w.db.executions[e].status) <==> e in w.early)
  }

  ghost predicate CallOk(w: World, c: nat) {
    c in w.calls ==>
      && c < w.next && c !in w.runtimes && w.calls[c].request in w.wire
      && (!w.calls[c].Parsed? ==> Owns(w.db, w.calls[c].request, w.calls[c].taskId))
      && (w.calls[c].Inner? ==>
            && Won(w, w.calls[c].request.executionId, c) && NotLaunched(w, w.calls[c].request.executionId)
            && SettledEarly(w, w.calls[c].request.executionId))
  }

  ghost predicate RuntimeOk(w: World, c: nat) {
    c in w.runtimes ==>
      var rt := w.runtimes[c];
      && c < w.next && Owns(w.db, rt.request, rt.taskId) && Won(w, rt.request.executionId, c)
      && (rt.phase == Preparing ==> NotLaunched(w, rt.request.executionId) && SettledEarly(w, rt.request.executionId))
  }

  ghost predicate LaunchOk(w: World, i: nat) {
    i < |w.launched| ==>
      var r := w.launched[i];
      && r.executionId in w.winner && r.executionId in w.db.executions
      && w.db.executions[r.executionId].request == r
  }

  ghost predicate AckOk(w: World, ack: Ack) { ack in w.acks ==> Owns(w.db, ack.request, ack.taskId) }

  ghost predicate RecordOk(w: World, e: Id) {
    e in w.records ==>
      && w.records[e].request.executionId == e
      && (w.records[e].taskId.Some? ==> Owns(w.db, w.records[e].request, w.records[e].taskId.value))
  }

  /** A request on the wire is its record's, unless someone else uses the id. */
  ghost predicate WireOk(w: World, r: CodingRequest) {
    r in w.wire ==>
      r.executionId in w.foreign || (r.executionId in w.records && w.records[r.executionId].request == r)
  }

  ghost predicate RefusedOk(w: World, r: CodingRequest) {
    r in w.refused ==> r.executionId in w.db.executions && w.db.executions[r.executionId].request != r
  }

  ghost predicate Distinct(w: World) {
    && (forall i, j | 0 <= i < j < |w.dispatched| :: w.dispatched[i] != w.dispatched[j])
    && (forall i, j | 0 <= i < j < |w.launched| :: w.launched[i].executionId != w.launched[j].executionId)
  }

  /** The registry and what was made of it. */
  ghost predicate ClaimsOk(w: World) {
    && (forall e :: RowOk(w, e)) && (forall e :: RecordOk(w, e))
    && (forall i: nat :: LaunchOk(w, i)) && (forall a :: AckOk(w, a))
    && (forall r :: WireOk(w, r)) && (forall r :: RefusedOk(w, r))
    && Distinct(w)
  }

  /** The calls and runtimes in flight. */
  ghost predicate CallsOk(w: World) { (forall c: nat :: CallOk(w, c)) && (forall c: nat :: RuntimeOk(w, c)) }

  ghost predicate Inv(w: World) { ClaimsOk(w) && CallsOk(w) }

  /** What holds of each row, record, launch, call and message in `w` holds in `w'`. */
  ghost predicate Carried(w: World, w': World) {
    && (forall e :: RowOk(w, e) ==> RowOk(w', e)) && (forall e :: RecordOk(w, e) ==> RecordOk(w', e))
    && (forall i: nat :: LaunchOk(w, i) ==> LaunchOk(w', i)) && (forall a :: AckOk(w, a) ==> AckOk(w', a))
    && (forall r :: WireOk(w, r) ==> WireOk(w', r)) && (forall r :: RefusedOk(w, r) ==> RefusedOk(w', r))
    && (forall c: nat :: CallOk(w, c) ==> CallOk(w', c)) && (forall c: nat :: RuntimeOk(w, c) ==> RuntimeOk(w', c))
  }

  lemma InvCarried(w: World, w': World)
    requires Inv(w) && Carried(w, w') && Distinct(w')
    ensures Inv(w')
  {
  }

  lemma ClientStartInv(w: World, r: CodingRequest)
    requires Inv(w) && Enabled(w, ClientStart(r))
    ensures Inv(Next(w, ClientStart(r)))
  {
    var w' := Next(w, ClientStart(r));
    assert RowOk(w, r.executionId) && RecordOk(w, r.executionId);
    InvCarried(w, w');
  }

  lemma ForeignSendInv(w: World, r: CodingRequest)
    requires Inv(w) && Enabled(w, ForeignSend(r))
    ensures Inv(Next(w, ForeignSend(r)))
  {
    var w' := Next(w, ForeignSend(r));
    InvCarried(w, w');
  }

  lemma ResendInv(w: World, e: Id)
    requires Inv(w) && Enabled(w, Resend(e))
    ensures Inv(Next(w, Resend(e)))
  {
    var w' := Next(w, Resend(e));
    assert RecordOk(w, e);
    InvCarried(w, w');
  }

  lemma DeliverInv(w: World, r: CodingRequest)
    requires Inv(w) && Enabled(w, Deliver(r))
    ensures Inv(Next(w, Deliver(r)))
  {
    var w' := Next(w, Deliver(r));
    assert RuntimeOk(w, w.next);
    InvCarried(w, w');
  }

  /** A call moves on, still holding the claim of its request. */
  ghost predicate SameClaim(w: World, call: Call, next: Call) {
    && !next.Parsed? && !next.Inner?
    && next.request == call.request && Owns(w.db, next.request, next.taskId)
  }

  lemma MovedInv(w: World, c: nat, next: Call)
    requires Inv(w)
    requires c in w.calls && SameClaim(w, w.calls[c], next)
    ensures Inv(w.(calls := w.calls[c := next]))
  {
    var w' := w.(calls := w.calls[c := next]);
    assert CallOk(w, c);
    InvCarried(w, w');
  }

  lemma AckedInv(w: World, c: nat, r: CodingRequest, t: Id)
    requires Inv(w)
    requires Owns(w.db, r, t)
    ensures Inv(Acked(w, c, r, t))
  {
    var w' := Acked(w, c, r, t);
    InvCarried(w, w');
  }

  lemma RefusedInv(w: World, c: nat, r: CodingRequest)
    requires Inv(w)
    requires Conflicts(w.db, r)
    ensures Inv(w.(calls := w.calls - {c}, refused := w.refused + {r}))
  {
    var w' := w.(calls := w.calls - {c}, refused := w.refused + {r});
    ConflictMeansChanged(w.db, r);
    InvCarried(w, w');
  }

  lemma NewRowInv(w: World, r: CodingRequest, t: Id, ctx: Id)
    requires Inv(w)
    requires r in w.wire && r.executionId !in w.db.executions && t !in w.db.tasks
    ensures Inv(w.(db := AfterClaim(w.db, r, t, ctx)))
  {
    var w' := w.(db := AfterClaim(w.db, r, t, ctx));
    assert WireOk(w, r) && RowOk(w, r.executionId);
    InvCarried(w, w');
  }

  lemma ClaimInv(w: World, c: nat, t: Id, ctx: Id)
    requires Inv(w) && Enabled(w, Claim(c, t, ctx))
    ensures Inv(Next(w, Claim(c, t, ctx)))
  {
    var r := w.calls[c].request;
    assert CallOk(w, c);
    if Conflicts(w.db, r) {
      RefusedInv(w, c, r);
    } else {
      ConflictMeansChanged(w.db, r);
      var claimed := w.(db := AfterClaim(w.db, r, t, ctx));
      if r.executionId !in w.db.executions {
        NewRowInv(w, r, t, ctx);
      } else {
        assert claimed == w;
      }
      var row := claimed.db.executions[r.executionId];
      MovedInv(claimed, c, Holding(r, row.taskId, row.status));
    }
  }

  lemma CheckInv(w: World, c: nat)
    requires Inv(w) && Enabled(w, Check(c))
    ensures Inv(Next(w, Check(c)))
  {
    var call := w.calls[c];
    assert CallOk(w, c);
    if IsSettled(call.status) && call.taskId in w.db.tasks {
      AckedInv(w, c, call.request, call.taskId);
    } else {
      MovedInv(w, c, Deciding(call.request, call.taskId));
    }
  }

  lemma NotYetLaunched(w: World, e: Id)
    requires Inv(w) && e !in w.winner
    ensures NotLaunched(w, e)
  {
    forall i: nat | i < |w.launched| ensures w.launched[i].executionId != e {
      assert LaunchOk(w, i);
    }
  }

  lemma WonCalls(w: World, c: nat, r: CodingRequest, t: Id, x: nat)
    requires Inv(w)
    requires c in w.calls && w.calls[c] == Deciding(r, t) && CanDispatch(w.db, r.executionId)
    ensures CallOk(DispatchStep(w, c, r, t), x) && RuntimeOk(DispatchStep(w, c, r, t), x)
  {
    assert CallOk(w, c) && RowOk(w, r.executionId) && CallOk(w, x) && RuntimeOk(w, x);
    NotYetLaunched(w, r.executionId);
  }

  lemma WonInv(w: World, c: nat, r: CodingRequest, t: Id)
    requires Inv(w)
    requires c in w.calls && w.calls[c] == Deciding(r, t) && CanDispatch(w.db, r.executionId)
    ensures Inv(DispatchStep(w, c, r, t))
  {
    var w' := DispatchStep(w, c, r, t);
    assert CallOk(w, c) && RowOk(w, r.executionId);
    forall x: nat ensures CallOk(w', x) && RuntimeOk(w', x) { WonCalls(w, c, r, t, x); }
    InvCarried(w, w');
  }

  lemma DispatchInv(w: World, c: nat)
    requires Inv(w) && Enabled(w, Dispatch(c))
    ensures Inv(Next(w, Dispatch(c)))
  {
    var call := w.calls[c];
    assert CallOk(w, c);
    if CanDispatch(w.db, call.request.executionId) {
      WonInv(w, c, call.request, call.taskId);
    } else {
      MovedInv(w, c, Lost(call.request, call.taskId));
    }
  }

  /** Because every row has a task, a call that lost the race never dispatches. */
  lemma ReplyInv(w: World, c: nat)
    requires Inv(w) && Enabled(w, Reply(c))
    ensures Inv(Next(w, Reply(c)))
  {
    var call := w.calls[c];
    assert CallOk(w, c) && RowOk(w, call.request.executionId);
    AckedInv(w, c, call.request, call.taskId);
  }

  lemma BeginInv(w: World, c: nat)
    requires Inv(w) && Enabled(w, Begin(c))
    ensures Inv(Next(w, Begin(c)))
  {
    var w' := Next(w, Begin(c));
    assert CallOk(w, c);
    InvCarried(w, w');
  }

  lemma LaunchCalls(w: World, c: nat, x: nat)
    requires Inv(w) && Enabled(w, Launch(c))
    ensures CallOk(Next(w, Launch(c)), x) && RuntimeOk(Next(w, Launch(c)), x)
  {
    assert RuntimeOk(w, c) && CallOk(w, x) && RuntimeOk(w, x);
  }

  lemma LaunchRow(w: World, c: nat, x: Id)
    requires Inv(w) && Enabled(w, Launch(c))
    ensures RowOk(Next(w, Launch(c)), x)
  {
    assert RuntimeOk(w, c) && RowOk(w, x);
  }

  lemma LaunchInv(w: World, c: nat)
    requires Inv(w) && Enabled(w, Launch(c))
    ensures Inv(Next(w, Launch(c)))
  {
    var w' := Next(w, Launch(c));
    assert RuntimeOk(w, c);
    forall x ensures RowOk(w', x) { LaunchRow(w, c, x); }
    forall x: nat ensures CallOk(w', x) && RuntimeOk(w', x) { LaunchCalls(w, c, x); }
    InvCarried(w, w');
  }

  lemma SettledClaims(w: World, e: Id, s: Status, state: TaskState, x: Id, i: nat)
    requires Inv(w) && Enabled(w, Cancel(e, s, state))
    ensures var w' := Next(w, Cancel(e, s, state));
            RowOk(w', x) && RecordOk(w', x) && LaunchOk(w', i)
  {
    assert RowOk(w, x) && RecordOk(w, x) && LaunchOk(w, i);
  }

  lemma SettledCalls(w: World, e: Id, s: Status, state: TaskState, x: nat)
    requires Inv(w) && Enabled(w, Cancel(e, s, state))
    ensures CallOk(Next(w, Cancel(e, s, state)), x) && RuntimeOk(Next(w, Cancel(e, s, state)), x)
  {
    assert CallOk(w, x) && RuntimeOk(w, x);
  }

  /** Settling a row whose winning call has neither a runtime that could still
    * launch nor one to come -- or, before it has one, marking it as early. */
  lemma SettledInv(w: World, e: Id, s: Status, state: TaskState)
    requires Inv(w) && Enabled(w, Cancel(e, s, state))
    ensures Inv(Next(w, Cancel(e, s, state)))
  {
    var w' := Next(w, Cancel(e, s, state));
    forall x ensures RowOk(w', x) && RecordOk(w', x) { SettledClaims(w, e, s, state, x, 0); }
    forall i: nat ensures LaunchOk(w', i) { SettledClaims(w, e, s, state, e, i); }
    forall x: nat ensures CallOk(w', x) && RuntimeOk(w', x) { SettledCalls(w, e, s, state, x); }
    InvCarried(w, w');
  }

  lemma EndRow(w: World, c: nat, s: Status, state: TaskState, x: Id)
    requires Inv(w) && Enabled(w, End(c, s, state))
    ensures RowOk(Next(w, End(c, s, state)), x)
  {
    assert RuntimeOk(w, c) && RowOk(w, x);
  }

  lemma EndClaims(w: World, c: nat, s: Status, state: TaskState, x: Id, i: nat)
    requires Inv(w) && Enabled(w, End(c, s, state))
    ensures RecordOk(Next(w, End(c, s, state)), x) && LaunchOk(Next(w, End(c, s, state)), i)
  {
    assert RecordOk(w, x) && LaunchOk(w, i);
  }

  lemma EndCalls(w: World, c: nat, s: Status, state: TaskState, x: nat)
    requires Inv(w) && Enabled(w, End(c, s, state))
    ensures CallOk(Next(w, End(c, s, state)), x) && RuntimeOk(Next(w, End(c, s, state)), x)
  {
    assert RuntimeOk(w, c) && CallOk(w, c) && CallOk(w, x) && RuntimeOk(w, x);
  }

  lemma EndInv(w: World, c: nat, s: Status, state: TaskState)
    requires Inv(w) && Enabled(w, End(c, s, state))
    ensures Inv(Next(w, End(c, s, state)))
  {
    var w' := Next(w, End(c, s, state));
    assert RuntimeOk(w, c);
    forall x ensures RowOk(w', x) && RecordOk(w', x) {
      EndRow(w, c, s, state, x);
      EndClaims(w, c, s, state, x, 0);
    }
    forall i: nat ensures LaunchOk(w', i) { EndClaims(w, c, s, state, "", i); }
    forall x: nat ensures CallOk(w', x) && RuntimeOk(w', x) { EndCalls(w, c, s, state, x); }
    InvCarried(w, w');
  }

  lemma ShutdownCalls(w: World, after: Db, c: nat)
    requires Inv(w) && Enabled(w, Shutdown(after))
    ensures CallOk(Next(w, Shutdown(after)), c) && RuntimeOk(Next(w, Shutdown(after)), c)
  {
    assert CallOk(w, c) && RuntimeOk(w, c);
    if c in w.runtimes && w.runtimes[c].phase == Preparing {
      assert IsPreparing(w, w.runtimes[c].request.executionId);
    }
  }

  lemma ShutdownInv(w: World, after: Db)
    requires Inv(w) && Enabled(w, Shutdown(after))
    ensures Inv(Next(w, Shutdown(after)))
  {
    var w' := Next(w, Shutdown(after));
    forall x ensures RowOk(w', x) { assert RowOk(w, x); }
    forall x ensures RecordOk(w', x) { assert RecordOk(w, x); }
    forall x: nat ensures CallOk(w', x) && RuntimeOk(w', x) { ShutdownCalls(w, after, x); }
    InvCarried(w, w');
  }

  lemma RestartInv(w: World, after: Db)
    requires Inv(w) && Enabled(w, Restart(after))
    ensures Inv(Next(w, Restart(after)))
  {
    var w' := Next(w, Restart(after));
    InvCarried(w, w');
  }

  lemma AckArrivesInv(w: World, ack: Ack)
    requires Inv(w) && Enabled(w, AckArrives(ack))
    ensures Inv(Next(w, AckArrives(ack)))
  {
    var w' := Next(w, AckArrives(ack));
    assert AckOk(w, ack);
    InvCarried(w, w');
  }

  lemma StepInv(w: World, a: Action)
    requires Inv(w) && Enabled(w, a)
    ensures Inv(Next(w, a))
  {
    match a
    case ClientStart(r) => ClientStartInv(w, r);
    case ForeignSend(r) => ForeignSendInv(w, r);
    case Resend(e) => ResendInv(w, e);
    case Deliver(r) => DeliverInv(w, r);
    case Claim(c, t, ctx) => ClaimInv(w, c, t, ctx);
    case Check(c) => CheckInv(w, c);
    case Dispatch(c) => DispatchInv(w, c);
    case Reply(c) => ReplyInv(w, c);
    case Begin(c) => BeginInv(w, c);
    case Launch(c) => LaunchInv(w, c);
    case End(c, s, state) => EndInv(w, c, s, state);
    case Cancel(e, s, state) => SettledInv(w, e, s, state);
    case Shutdown(after) => ShutdownInv(w, after);
    case Restart(after) => RestartInv(w, after);
    case AckArrives(ack) => AckArrivesInv(w, ack);
  }

  // ---- runs -------------------------------------------------------------------------

  /** The actions can happen one after the other. */
  ghost predicate CanRun(w: World, actions: seq<Action>)
    decreases |actions|
  {
    actions == [] || (Enabled(w, actions[0]) && CanRun(Next(w, actions[0]), actions[1..]))
  }

  ghost function After(w: World, actions: seq<Action>): World
    requires CanRun(w, actions)
    decreases |actions|
  {
    if actions == [] then w else After(Next(w, actions[0]), actions[1..])
  }

  lemma {:induction false} RunInv(w: World, actions: seq<Action>)
    requires Inv(w) && CanRun(w, actions)
    ensures Inv(After(w, actions))
    decreases |actions|
  {
    if actions != [] {
      StepInv(w, actions[0]);
      RunInv(Next(w, actions[0]), actions[1..]);
    }
  }

  lemma ReachableInv(actions: seq<Action>)
    requires CanRun(START, actions)
    ensures Inv(After(START, actions))
  {
    RunInv(START, actions);
  }

  /** No execution is dispatched twice or launches two workers, and what is
    * launched is the request its id was first claimed for. */
  lemma AtMostOneLaunch(actions: seq<Action>, i: nat, j: nat)
    requires CanRun(START, actions)
    ensures var w := After(START, actions);
            && (i < |w.dispatched| && j < |w.dispatched| && w.dispatched[i] == w.dispatched[j] ==> i == j)
            && (i < |w.launched| && j < |w.launched| && w.launched[i].executionId == w.launched[j].executionId ==> i == j)
            && (i < |w.launched| ==>
                  && w.launched[i].executionId in w.db.executions
                  && w.db.executions[w.launched[i].executionId].request == w.launched[i])
  {
    ReachableInv(actions);
    assert LaunchOk(After(START, actions), i);
  }

  /** A request that was refused as changed is never launched. */
  lemma ChangedRequestNeverLaunches(actions: seq<Action>, r: CodingRequest)
    requires CanRun(START, actions) && r in After(START, actions).refused
    ensures r !in After(START, actions).launched
  {
    var w := After(START, actions);
    ReachableInv(actions);
    assert RefusedOk(w, r);
    forall i: nat | i < |w.launched| ensures w.launched[i] != r {
      assert LaunchOk(w, i);
    }
  }

  /** Every acknowledgement of an execution, and the task id in its run record,
    * is the one task id of its claim. */
  lemma AcksAgree(actions: seq<Action>, a: Ack, b: Ack)
    requires CanRun(START, actions)
    ensures var w := After(START, actions);
            && (a in w.acks && b in w.acks && a.request.executionId == b.request.executionId ==> a == b)
            && (a in w.acks && a.request.executionId in w.records
                && w.records[a.request.executionId].taskId.Some?
                ==> w.records[a.request.executionId].taskId.value == a.taskId)
  {
    var w := After(START, actions);
    ReachableInv(actions);
    assert AckOk(w, a) && AckOk(w, b) && RecordOk(w, a.request.executionId);
  }

  lemma RecordedStep(w: World, a: Action, e: Id, t: Id)
    requires Inv(w) && Enabled(w, a) && e in w.records && w.records[e].taskId == Some(t)
    ensures e in Next(w, a).records && Next(w, a).records[e] == w.records[e]
  {
    if a.AckArrives? {
      assert AckOk(w, a.ack) && RecordOk(w, e) && RecordOk(w, a.ack.request.executionId);
    } else {
      RecordsOnlyFromAcks(w, a, e);
    }
  }

  lemma RecordsOnlyFromAcks(w: World, a: Action, e: Id)
    requires Enabled(w, a) && !a.AckArrives? && e in w.records
    ensures e in Next(w, a).records && Next(w, a).records[e] == w.records[e]
  {
  }

  lemma {:induction false} RecordedStays(w: World, more: seq<Action>, e: Id, t: Id)
    requires Inv(w) && CanRun(w, more) && e in w.records && w.records[e].taskId == Some(t)
    ensures e in After(w, more).records && After(w, more).records[e] == w.records[e]
    decreases |more|
  {
    if more != [] {
      StepInv(w, more[0]);
      RecordedStep(w, more[0], e, t);
      RecordedStays(Next(w, more[0]), more[1..], e, t);
    }
  }

  /** From the first acknowledgement that arrives on, the run record carries its task id,
    * whatever happens after. */
  lemma AckIsRecorded(actions: seq<Action>, ack: Ack, more: seq<Action>)
    requires CanRun(START, actions) && Enabled(After(START, actions), AckArrives(ack))
    requires CanRun(Next(After(START, actions), AckArrives(ack)), more)
    ensures var w, e := After(Next(After(START, actions), AckArrives(ack)), more), ack.request.executionId;
            e in w.records && w.records[e] == Record(ack.request, Some(ack.taskId))
  {
    ReachableInv(actions);
    StepInv(After(START, actions), AckArrives(ack));
    RecordedStays(Next(After(START, actions), AckArrives(ack)), more, ack.request.executionId, ack.taskId);
  }

  /** The saved request of a run whose id nobody else uses never conflicts,
    * however often it is retransmitted. */
  lemma SavedRequestNeverConflicts(actions: seq<Action>, e: Id)
    requires CanRun(START, actions)
    requires e in After(START, actions).records && e !in After(START, actions).foreign
    ensures var w := After(START, actions);
            w.records[e].request !in w.refused && !Conflicts(w.db, w.records[e].request)
  {
    var w := After(START, actions);
    ReachableInv(actions);
    var r := w.records[e].request;
    assert RecordOk(w, e) && RowOk(w, e) && RefusedOk(w, r);
    ConflictMeansChanged(w.db, r);
  }

  // ---- one call from end to end ---------------------------------------------------------

  datatype Reply = Conflict | Stored(task: TaskState) | Dispatched(taskId: Id)

  /** `ClaimAwareHandler.on_message_send`, run alone: the request is refused if its
    * id belongs to another one, passed on exactly when its claim is still open, and
    * answered from the task store otherwise. */
  method OnMessageSend(state: SqliteState, r: CodingRequest, freshTask: Id, freshContext: Id) returns (reply: Reply)
    requires RowsHaveTasks(state.Contents())
    modifies state
    ensures RowsHaveTasks(state.Contents())
    ensures reply.Conflict? <==> old(r.executionId in state.executions && state.executions[r.executionId].request != r)
    ensures reply.Conflict? ==> state.Contents() == old(state.Contents())
    ensures reply.Dispatched? <==>
              && !reply.Conflict?
              && old(r.executionId in state.executions ==> state.executions[r.executionId].status == Claimed)
    ensures !reply.Conflict? ==>
              state.Contents() == AfterDispatch(AfterClaim(old(state.Contents()), r, freshTask, freshContext), r.executionId)
    ensures reply.Dispatched? ==> Owns(state.Contents(), r, reply.taskId)
    ensures reply.Stored? ==>
              && r.executionId in state.executions && state.executions[r.executionId].taskId in state.tasks
              && reply.task == state.tasks[state.executions[r.executionId].taskId]
  {
    ConflictMeansChanged(state.Contents(), r);
    var claim, created := state.Claim(r, None, None, freshTask, freshContext);
    if claim.None? {
      return Conflict;
    }
    if IsSettled(claim.value.status) {
      var stored := state.LoadTask(claim.value.taskId);
      if stored.Some? {
        return Stored(stored.value);
      }
    }
    var won := state.TryDispatch(r.executionId);
    if !won {
      var stored := state.LoadTask(claim.value.taskId);
      if stored.Some? {
        return Stored(stored.value);
      }
    }
    return Dispatched(claim.value.taskId);
  }

  // ---- launching after a cancel ------------------------------------------------------

  /** A worker launches although its execution was already settled exactly when a
    * cancel was accepted before the runtime was registered, or a shutdown
    * reconciled the registry before the launch. */
  lemma LaunchAfterSettlementExactly(actions: seq<Action>, c: nat)
    requires CanRun(START, actions) && Enabled(After(START, actions), Launch(c))
    ensures var w := After(START, actions);
            var e := w.runtimes[c].request.executionId;
            e in w.db.executions && (IsSettled(w.db.executions[e].status) <==> e in w.early)
  {
    ReachableInv(actions);
    assert RuntimeOk(After(START, actions), c);
  }

  /** The failing case: the cancel is answered, the task is FAILED, and the worker
    * is launched all the same. */
  function EarlyCancel(r: CodingRequest, t: Id, ctx: Id): seq<Action> {
    [ClientStart(r), Deliver(r), Claim(0, t, ctx), Check(0), Dispatch(0),
     Cancel(r.executionId, Failed, TaskFailed), Begin(0), Launch(0)]
  }

  lemma {:induction false} RunAppend(w: World, a: seq<Action>, b: seq<Action>)
    requires CanRun(w, a) && CanRun(After(w, a), b)
    ensures CanRun(w, a + b) && After(w, a + b) == After(After(w, a), b)
    decreases |a|
  {
    if a == [] {
      assert a + b == b;
    } else {
      assert (a + b)[1..] == a[1..] + b;
      RunAppend(Next(w, a[0]), a[1..], b);
    }
  }

  lemma RunOne(w: World, a: Action)
    requires Enabled(w, a)
    ensures CanRun(w, [a]) && After(w, [a]) == Next(w, a)
  {
    assert [a][1..] == [];
  }

  lemma RunSnoc(actions: seq<Action>, w: World, a: Action)
    requires CanRun(START, actions) && After(START, actions) == w && Enabled(w, a)
    ensures CanRun(START, actions + [a]) && After(START, actions + [a]) == Next(w, a)
  {
    RunOne(w, a);
    RunAppend(START, actions, [a]);
  }

  lemma FirstClaim(r: CodingRequest, t: Id, ctx: Id) returns (w: World)
    ensures CanRun(START, EarlyCancel(r, t, ctx)[..3]) && w == After(START, EarlyCancel(r, t, ctx)[..3])
    ensures w.calls == map[0 := Holding(r, t, Claimed)] && w.runtimes == map[] && w.launched == []
    ensures w.db == Db(map[r.executionId := Row(r, t, ctx, Claimed, None, false)], map[t := Submitted])
  {
    var acts := EarlyCancel(r, t, ctx)[..3];
    var w1 := Next(START, acts[0]);
    var w2 := Next(w1, acts[1]);
    assert w2.calls == map[0 := Parsed(r)] && w2.db == START.db;
    w := Next(w2, acts[2]);
    assert w.calls == map[0 := Holding(r, t, Claimed)];
    RunSnoc([], START, acts[0]);
    RunSnoc([] + [acts[0]], w1, acts[1]);
    RunSnoc([] + [acts[0]] + [acts[1]], w2, acts[2]);
    assert acts == [] + [acts[0]] + [acts[1]] + [acts[2]];
  }

  /** One fresh request, dispatched and not yet executing. */
  lemma FirstDispatch(r: CodingRequest, t: Id, ctx: Id) returns (w: World)
    ensures CanRun(START, EarlyCancel(r, t, ctx)[..5]) && w == After(START, EarlyCancel(r, t, ctx)[..5])
    ensures w.calls == map[0 := Inner(r, t)] && w.runtimes == map[] && w.launched == []
    ensures w.db == Db(map[r.executionId := Row(r, t, ctx, Running, None, false)], map[t := Submitted])
  {
    var acts := EarlyCancel(r, t, ctx);
    var w3 := FirstClaim(r, t, ctx);
    var w4 := Next(w3, acts[3]);
    assert w4.calls == map[0 := Deciding(r, t)];
    w := Next(w4, acts[4]);
    RunSnoc(acts[..3], w3, acts[3]);
    RunSnoc(acts[..3] + [acts[3]], w4, acts[4]);
    assert acts[..5] == acts[..3] + [acts[3]] + [acts[4]];
  }

  lemma EarlyCancelStillLaunches(r: CodingRequest, t: Id, ctx: Id)
    ensures CanRun(START, EarlyCancel(r, t, ctx))
    ensures var w := After(START, EarlyCancel(r, t, ctx));
            && w.launched == [r] && t in w.db.tasks && w.db.tasks[t] == TaskFailed
            && r.executionId in w.db.executions && w.db.executions[r.executionId].status == Running
  {
    var acts := EarlyCancel(r, t, ctx);
    var w5 := FirstDispatch(r, t, ctx);
    var w6 := Next(w5, acts[5]);
    assert w6.calls == w5.calls && w6.db.tasks == map[t := TaskFailed];
    var w7 := Next(w6, acts[6]);
    assert w7.runtimes == map[0 := Runtime(r, t, Preparing)];
    RunSnoc(acts[..5], w5, acts[5]);
    RunSnoc(acts[..5] + [acts[5]], w6, acts[6]);
    RunSnoc(acts[..5] + [acts[5]] + [acts[6]], w7, acts[7]);
    assert acts == acts[..5] + [acts[5]] + [acts[6]] + [acts[7]];
  }

  /** The registry after a shutdown that found the row running without a worker. */
  function Recovered(r: CodingRequest, t: Id, ctx: Id): Db {
    Db(map[r.executionId := Row(r, t, ctx, RecoveryRequired, None, true)], map[t := InputRequired])
  }

  function LateShutdown(r: CodingRequest, t: Id, ctx: Id): seq<Action> {
    EarlyCancel(r, t, ctx)[..5] + [Shutdown(Recovered(r, t, ctx))] + [Begin(0)] + [Launch(0)]
  }

  lemma ShutdownSeen(w: World, r: CodingRequest, t: Id, after: Db)
    requires Inv(w) && w.calls == map[0 := Inner(r, t)] && w.runtimes == map[] && w.launched == []
    requires Enabled(w, Shutdown(after))
    ensures var w' := Next(w, Shutdown(after));
            w'.calls == w.calls && w'.runtimes == w.runtimes && w'.launched == [] && r.executionId in w'.early && w'.db == after
  {
    assert CallOk(w, 0);
    assert Awaited(w, r.executionId);
  }

  lemma BeginLaunch(w: World, r: CodingRequest, t: Id)
    requires w.calls == map[0 := Inner(r, t)] && w.runtimes == map[] && w.launched == []
    ensures Enabled(w, Begin(0)) && Enabled(Next(w, Begin(0)), Launch(0))
    ensures var w' := Next(Next(w, Begin(0)), Launch(0));
            w'.launched == [r] && w'.db.tasks == w.db.tasks && w'.early == w.early
  {
    assert Next(w, Begin(0)).runtimes == map[0 := Runtime(r, t, Preparing)];
  }

  /** The other failing case: a shutdown marks the run for recovery, and its worker is
    * launched all the same. */
  lemma ShutdownStillLaunches(r: CodingRequest, t: Id, ctx: Id)
    ensures CanRun(START, LateShutdown(r, t, ctx))
    ensures var w := After(START, LateShutdown(r, t, ctx));
            w.launched == [r] && w.db.tasks == map[t := InputRequired] && r.executionId in w.early
  {
    var acts := EarlyCancel(r, t, ctx)[..5];
    var a := Shutdown(Recovered(r, t, ctx));
    var w5 := FirstDispatch(r, t, ctx);
    ReachableInv(acts);
    ShutdownSeen(w5, r, t, Recovered(r, t, ctx));
    var w6 := Next(w5, a);
    BeginLaunch(w6, r, t);
    RunSnoc(acts, w5, a);
    RunSnoc(acts + [a], w6, Begin(0));
    RunSnoc(acts + [a] + [Begin(0)], Next(w6, Begin(0)), Launch(0));
  }
}
