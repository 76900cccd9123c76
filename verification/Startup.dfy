/** Startup reconciliation: what becomes of the rows, tasks and lock that a
  * previous server left behind.
  */
module Startup {
  import opened Wrappers
  import opened Store
  import Dispatch

  /** What the probes say about a recorded worker, and whether stopping it works. */
  datatype Probe = Probe(pidExists: bool, matches: bool, groupAlive: bool, stops: bool)

  /** `execute.lock`; the owner is the execution id in owner.json. */
  datatype LockDir = NoLock | LockedBy(owner: Option<Id>)

  /** Everything outside the registry: which workers have a live process group when the
    * pass begins and when it is over, what the probes say, evidence writes, and the
    * lock directory.  No decision looks at the first two. */
  datatype Outside = Outside(
    alive: Worker -> bool,
    aliveAfter: Worker -> bool,
    probe: Worker -> Probe,
    evidenceWritable: Id -> bool,
    ownerRemovable: bool,
    lockEmpty: bool)

  /** Probes are honest in one direction: the group of a live worker is not reported
    * empty, an attempted stop that reports success leaves no process, and no worker
    * comes to life.  The stop is not attempted on a process that is not the recorded one. */
  ghost predicate Honest(on: Outside) {
    forall w ::
      && (on.alive(w) ==> on.probe(w).groupAlive)
      && (on.probe(w).stops && (on.probe(w).matches || !on.probe(w).pidExists) ==> !on.aliveAfter(w))
      && (on.aliveAfter(w) ==> on.alive(w))
  }

  /** `is_owned_alive` */
  predicate OwnedAlive(p: Probe) { (p.pidExists && !p.matches) || p.matches || p.groupAlive }

  /** A live process under the recorded pid that is not the recorded one. */
  predicate Uncertain(p: Probe) { p.pidExists && !p.matches }

  /** Not alive, or stopped with an empty group. */
  predicate ConfirmedDead(p: Probe) { !Uncertain(p) && (!OwnedAlive(p) || p.stops) }

  /** The row may be failed: its worker is gone, or it never had one. */
  predicate Interrupted(row: Row, on: Outside) {
    if row.worker.Some? then ConfirmedDead(on.probe(row.worker.value)) else row.status == Claimed
  }

  /** `release_lock_if_owner` raises. */
  predicate LockStuck(e: Id, lock: LockDir, on: Outside) { lock == LockedBy(Some(e)) && !on.ownerRemovable }

  /** Failing the row went through to the end. */
  predicate FailsCleanly(e: Id, row: Row, lock: LockDir, on: Outside) {
    Interrupted(row, on) && on.evidenceWritable(e) && !LockStuck(e, lock, on)
  }

  function RowAfter(e: Id, row: Row, lock: LockDir, on: Outside): Row {
    if IsTerminal(row.status) then row
    else if FailsCleanly(e, row, lock, on) then row.(status := Failed, recoveryRequired := false)
    else row.(status := RecoveryRequired, recoveryRequired := true)
  }

  function OutcomeOn(task: TaskState, state: TaskState): TaskState {
    if IsTerminalTask(task) then task else state
  }

  /** The task after its row was looked at, before healing. */
  function TaskReconciled(row: Row, task: TaskState, on: Outside): TaskState {
    if IsTerminal(row.status) then task
    else OutcomeOn(task, if Interrupted(row, on) then TaskFailed else InputRequired)
  }

  function Mapped(status: Status): TaskState
    requires IsTerminal(status)
  {
    match status
    case Completed => TaskCompleted
    case Failed => TaskFailed
    case Rejected => TaskRejected
    case Canceled => TaskCanceled
  }

  function TaskHealed(row: Row, task: TaskState): TaskState {
    if IsTerminal(row.status) then OutcomeOn(task, Mapped(row.status)) else task
  }

  function TaskAfter(e: Id, row: Row, task: TaskState, lock: LockDir, on: Outside): TaskState {
    TaskHealed(RowAfter(e, row, lock, on), TaskReconciled(row, task, on))
  }

  /** The lock after the row that owns it was looked at. */
  function LockAfter(executions: map<Id, Row>, lock: LockDir, on: Outside): LockDir {
    if lock.LockedBy? && lock.owner.Some? && lock.owner.value in executions
       && !IsTerminal(executions[lock.owner.value].status)
       && FailsCleanly(lock.owner.value, executions[lock.owner.value], lock, on)
    then if on.lockEmpty then NoLock else LockedBy(None)
    else lock
  }

  /** Every execution has its own task. */
  ghost predicate OwnTasks(executions: map<Id, Row>, tasks: map<Id, TaskState>) {
    && (forall e | e in executions :: executions[e].taskId in tasks)
    && (forall e, f | e in executions && f in executions && e != f :: executions[e].taskId != executions[f].taskId)
  }

  /** What the first loop has made of one row and its task, if it is no longer to do. */
  ghost predicate RowReconciled(e: Id, was: Db, now: Db, todo: bool, lock: LockDir, on: Outside) {
    e in was.executions && was.executions[e].taskId in was.tasks ==>
      var row := was.executions[e];
      && e in now.executions && row.taskId in now.tasks
      && (todo ==> !IsTerminal(row.status) && now.executions[e] == row && now.tasks[row.taskId] == was.tasks[row.taskId])
      && (!todo ==>
            && now.executions[e] == RowAfter(e, row, lock, on)
            && now.tasks[row.taskId] == TaskReconciled(row, was.tasks[row.taskId], on))
  }

  ghost predicate Reconciled(was: Db, now: Db, todo: set<Id>, lock: LockDir, on: Outside) {
    && now.executions.Keys == was.executions.Keys && now.tasks.Keys == was.tasks.Keys
    && todo <= was.executions.Keys
    && (forall e :: RowReconciled(e, was, now, e in todo, lock, on))
    && (forall t | t in was.tasks && NoRow(was.executions, t) :: now.tasks[t] == was.tasks[t])
  }

  /** No row has this task. */
  ghost predicate NoRow(executions: map<Id, Row>, t: Id) { forall e | e in executions :: executions[e].taskId != t }

  /** The lock while the rows in `todo` are still to come. */
  ghost function LockDuring(executions: map<Id, Row>, todo: set<Id>, lock: LockDir, on: Outside): LockDir {
    if lock.LockedBy? && lock.owner.Some? && lock.owner.value in todo then lock else LockAfter(executions, lock, on)
  }

  /** What the healing loop has made of a row's task. */
  ghost predicate TaskDone(e: Id, was: Db, now: Db, todo: bool) {
    e in was.executions && was.executions[e].taskId in was.tasks ==>
      var row := was.executions[e];
      && row.taskId in now.tasks
      && now.tasks[row.taskId] == if todo then was.tasks[row.taskId] else TaskHealed(row, was.tasks[row.taskId])
  }

  ghost predicate Healed(was: Db, now: Db, todo: set<Id>) {
    && now.executions == was.executions && now.tasks.Keys == was.tasks.Keys && todo <= was.executions.Keys
    && (forall e :: TaskDone(e, was, now, e in todo))
    && (forall t | t in was.tasks && NoRow(was.executions, t) :: now.tasks[t] == was.tasks[t])
  }

  lemma TasksStayOwn(was: Db, mid: Db, lock: LockDir, on: Outside)
    requires OwnTasks(was.executions, was.tasks) && Reconciled(was, mid, {}, lock, on)
    ensures OwnTasks(mid.executions, mid.tasks)
    ensures forall t | t in was.tasks && NoRow(was.executions, t) :: NoRow(mid.executions, t)
  {
    var none: set<Id> := {};
    forall e | e in mid.executions ensures mid.executions[e].taskId == was.executions[e].taskId {
      assert RowReconciled(e, was, mid, e in none, lock, on);
    }
  }

  lemma BothLoops(was: Db, mid: Db, now: Db, lock: LockDir, on: Outside, e: Id)
    requires OwnTasks(was.executions, was.tasks) && Reconciled(was, mid, {}, lock, on) && Healed(mid, now, {})
    requires e in was.executions
    ensures var row := was.executions[e];
            && e in now.executions && now.executions[e] == RowAfter(e, row, lock, on)
            && row.taskId in now.tasks && now.tasks[row.taskId] == TaskAfter(e, row, was.tasks[row.taskId], lock, on)
  {
    var none: set<Id> := {};
    assert RowReconciled(e, was, mid, e in none, lock, on) && TaskDone(e, mid, now, e in none);
  }

  /** The whole pass: no row and no task appears or goes, each row and its task are
    * settled, and tasks without a row are left alone. */
  ghost predicate Settled(was: Db, now: Db, lock: LockDir, on: Outside) {
    && now.executions.Keys == was.executions.Keys && now.tasks.Keys == was.tasks.Keys
    && (forall e | e in was.executions ::
          var row := was.executions[e];
          && now.executions[e] == RowAfter(e, row, lock, on)
          && row.taskId in was.tasks && row.taskId in now.tasks
          && now.tasks[row.taskId] == TaskAfter(e, row, was.tasks[row.taskId], lock, on))
    && (forall t | t in was.tasks && NoRow(was.executions, t) :: now.tasks[t] == was.tasks[t])
  }

  lemma PassSettles(was: Db, mid: Db, now: Db, lock: LockDir, on: Outside)
    requires OwnTasks(was.executions, was.tasks) && Reconciled(was, mid, {}, lock, on) && Healed(mid, now, {})
    requires forall t | t in was.tasks && NoRow(was.executions, t) :: NoRow(mid.executions, t)
    ensures Settled(was, now, lock, on)
  {
    forall e | e in was.executions
      ensures e in now.executions && now.executions[e] == RowAfter(e, was.executions[e], lock, on)
      ensures var t := was.executions[e].taskId;
              t in was.tasks && t in now.tasks && now.tasks[t] == TaskAfter(e, was.executions[e], was.tasks[t], lock, on)
    {
      BothLoops(was, mid, now, lock, on, e);
    }
  }

  /** After a pass no row is claimed or running, and every terminal row has a
    * terminal task: the restart the dispatch protocol assumes. */
  lemma PassIsRestart(was: Db, now: Db, lock: LockDir, on: Outside)
    requires Settled(was, now, lock, on)
    ensures Dispatch.Reconciles(was, now)
    ensures forall e | e in was.executions ::
              IsTerminal(now.executions[e].status) ==> IsTerminalTask(now.tasks[was.executions[e].taskId])
  {
    forall e | e in was.executions
      ensures now.executions[e].request == was.executions[e].request && now.executions[e].taskId == was.executions[e].taskId
      ensures Dispatch.IsSettled(now.executions[e].status)
      ensures IsTerminal(now.executions[e].status) ==> IsTerminalTask(now.tasks[was.executions[e].taskId])
    {
      RowSettled(e, was.executions[e], was.tasks[was.executions[e].taskId], lock, on);
    }
  }

  // ---- what the result means -------------------------------------------------

  /** The task state that goes with a terminal row. */
  predicate Agree(status: Status, task: TaskState) {
    && (status == Completed <==> task == TaskCompleted) && (status == Failed <==> task == TaskFailed)
    && (status == Rejected <==> task == TaskRejected) && (status == Canceled <==> task == TaskCanceled)
  }

  /** Nothing contradicts that the recorded worker is gone: no foreign process has its
    * pid, and either neither it nor its group is there, or stopping it worked. */
  predicate SeenGone(p: Probe) {
    (p.pidExists ==> p.matches) && ((!p.pidExists && !p.matches && !p.groupAlive) || p.stops)
  }

  /** Per row: no row stays claimed or running.  A row is failed exactly if its worker was
    * seen gone, or it was claimed and never had one, and failing it went through;
    * any other row is marked for recovery.  A terminal row is left alone and its task
    * agrees with it, and a terminal task is never overwritten. */
  lemma RowSettled(e: Id, row: Row, task: TaskState, lock: LockDir, on: Outside)
    ensures var after, task' := RowAfter(e, row, lock, on), TaskAfter(e, row, task, lock, on);
            && after.status != Claimed && after.status != Running
            && (IsTerminal(row.status) ==> after == row)
            && (!IsTerminal(row.status) ==>
                  && (after.status == Failed || after.status == RecoveryRequired)
                  && after == row.(status := after.status, recoveryRequired := after.status == RecoveryRequired)
                  && (after.status == Failed <==>
                        && (if row.worker.Some? then SeenGone(on.probe(row.worker.value)) else row.status == Claimed)
                        && on.evidenceWritable(e) && (lock == LockedBy(Some(e)) ==> on.ownerRemovable)))
            && (IsTerminal(after.status) && !IsTerminalTask(task) ==> Agree(after.status, task'))
            && (IsTerminalTask(task) ==> task' == task)
            && (IsTerminal(after.status) ==> IsTerminalTask(task'))
  {
  }

  /** Against the workers themselves: a row is failed, and its lock given up, only if its
    * worker is dead; a row whose worker is alive when the pass is over is marked for
    * recovery and asks for input, and a lock it owns stays. */
  lemma LiveWorkerIsKept(executions: map<Id, Row>, e: Id, task: TaskState, lock: LockDir, on: Outside)
    requires Honest(on) && e in executions && executions[e].worker.Some? && on.aliveAfter(executions[e].worker.value)
    ensures var row := executions[e];
            && (!IsTerminal(row.status) ==>
                  && RowAfter(e, row, lock, on) == row.(status := RecoveryRequired, recoveryRequired := true)
                  && (!IsTerminalTask(task) ==> TaskAfter(e, row, task, lock, on) == InputRequired))
            && (lock == LockedBy(Some(e)) ==> LockAfter(executions, lock, on) == lock)
  {
    assert !ConfirmedDead(on.probe(executions[e].worker.value));
  }

  /** The lock is given up exactly when owner.json names a row that the pass fails. */
  lemma LockGivenUpExactly(executions: map<Id, Row>, lock: LockDir, on: Outside)
    ensures LockAfter(executions, lock, on) != lock <==>
              && lock.LockedBy? && lock.owner.Some? && lock.owner.value in executions
              && executions[lock.owner.value].status != Failed
              && RowAfter(lock.owner.value, executions[lock.owner.value], lock, on).status == Failed
  {
  }

  /** Every row that the pass failed, and the owner of a lock that it gave up, has no
    * live worker. */
  ghost predicate WorkersKept(was: map<Id, Row>, now: map<Id, Row>, lock: LockDir, lock': LockDir, on: Outside) {
    forall e | e in was && e in now && was[e].worker.Some? && on.aliveAfter(was[e].worker.value) ::
      && (!IsTerminal(was[e].status) ==> now[e].status == RecoveryRequired)
      && (lock == LockedBy(Some(e)) ==> lock' == lock)
  }

  lemma PassKeepsWorkers(was: Db, now: Db, lock: LockDir, on: Outside)
    requires Settled(was, now, lock, on) && Honest(on)
    ensures WorkersKept(was.executions, now.executions, lock, LockAfter(was.executions, lock, on), on)
  {
    forall e | e in was.executions && was.executions[e].worker.Some? && on.aliveAfter(was.executions[e].worker.value)
      ensures !IsTerminal(was.executions[e].status) ==> now.executions[e].status == RecoveryRequired
      ensures lock == LockedBy(Some(e)) ==> LockAfter(was.executions, lock, on) == lock
    {
      LiveWorkerIsKept(was.executions, e, InputRequired, lock, on);
      assert now.executions[e] == RowAfter(e, was.executions[e], lock, on);
    }
  }

  lemma RowStaysSettled(e: Id, row: Row, task: TaskState, lock: LockDir, lock': LockDir, on: Outside)
    requires lock' == lock || (!LockStuck(e, lock, on) && (lock' == NoLock || lock' == LockedBy(None)))
    ensures var after := RowAfter(e, row, lock, on);
            && RowAfter(e, after, lock', on) == after
            && TaskAfter(e, after, TaskAfter(e, row, task, lock, on), lock', on) == TaskAfter(e, row, task, lock, on)
  {
  }

  ghost predicate SameRows(a: map<Id, Row>, b: map<Id, Row>) {
    a.Keys == b.Keys && forall e | e in a :: a[e] == b[e]
  }

  ghost predicate SameTasks(executions: map<Id, Row>, a: map<Id, TaskState>, b: map<Id, TaskState>) {
    && a.Keys == b.Keys
    && (forall e | e in executions && executions[e].taskId in a :: a[executions[e].taskId] == b[executions[e].taskId])
    && (forall t | t in a && NoRow(executions, t) :: a[t] == b[t])
  }

  lemma TasksAgree(executions: map<Id, Row>, a: map<Id, TaskState>, b: map<Id, TaskState>)
    requires SameTasks(executions, a, b)
    ensures a == b
  {
    forall t | t in a ensures a[t] == b[t] {
      if !NoRow(executions, t) {
        var e :| e in executions && executions[e].taskId == t;
      }
    }
  }

  lemma SecondPassRow(was: Db, now: Db, again: Db, lock: LockDir, lock': LockDir, on: Outside, e: Id)
    requires Settled(was, now, lock, on) && Settled(now, again, lock', on) && e in was.executions
    requires lock' == lock || (!LockStuck(e, lock, on) && (lock' == NoLock || lock' == LockedBy(None)))
    ensures e in now.executions && again.executions[e] == now.executions[e]
    ensures now.executions[e].taskId == was.executions[e].taskId
    ensures var t := was.executions[e].taskId; t in now.tasks && again.tasks[t] == now.tasks[t]
  {
    var row := was.executions[e];
    RowStaysSettled(e, row, was.tasks[row.taskId], lock, lock', on);
  }

  lemma LockStaysGivenUp(was: Db, now: Db, lock: LockDir, on: Outside)
    requires Settled(was, now, lock, on)
    ensures LockAfter(now.executions, LockAfter(was.executions, lock, on), on) == LockAfter(was.executions, lock, on)
  {
    if LockAfter(was.executions, lock, on) == lock && lock.LockedBy? && lock.owner.Some? {
      var e := lock.owner.value;
      if e in was.executions {
        assert now.executions[e] == RowAfter(e, was.executions[e], lock, on);
      }
    }
  }

  /** A second pass in an unchanged world changes no row, no task and no lock. */
  lemma SecondPassChangesNothing(was: Db, now: Db, again: Db, lock: LockDir, on: Outside)
    requires Settled(was, now, lock, on) && Settled(now, again, LockAfter(was.executions, lock, on), on)
    ensures again == now
    ensures LockAfter(now.executions, LockAfter(was.executions, lock, on), on) == LockAfter(was.executions, lock, on)
  {
    var lock' := LockAfter(was.executions, lock, on);
    LockStaysGivenUp(was, now, lock, on);
    assert SameRows(now.executions, again.executions) && SameTasks(now.executions, now.tasks, again.tasks) by {
      forall e | e in was.executions
        ensures again.executions[e] == now.executions[e]
        ensures again.tasks[now.executions[e].taskId] == now.tasks[now.executions[e].taskId]
      {
        SecondPassRow(was, now, again, lock, lock', on, e);
      }
    }
    TasksAgree(now.executions, now.tasks, again.tasks);
  }

  // ---- the pass ---------------------------------------------------------------

  /** The rows from index `i` on. */
  ghost function Remaining(ids: seq<Id>, i: nat): (s: set<Id>)
    requires i <= |ids|
    ensures i == |ids| ==> s == {}
    ensures i == 0 ==> forall e :: e in s <==> e in ids
  {
    assert i == 0 ==> ids[i..] == ids;
    set e | e in ids[i..]
  }

  class Server {
    const state: SqliteState
    var lock: LockDir

    constructor (state: SqliteState, lock: LockDir)
      ensures this.state == state && this.lock == lock
    {
      this.state := state;
      this.lock := lock;
    }

    /** `release_lock_if_owner`: only a lock whose owner.json names this execution. */
    method ReleaseLockIfOwner(e: Id, on: Outside) returns (raised: bool)
      modifies this
      ensures raised == LockStuck(e, old(lock), on)
      ensures lock == if old(lock) == LockedBy(Some(e)) && !raised
                      then (if on.lockEmpty then NoLock else LockedBy(None)) else old(lock)
    {
      raised := false;
      if lock == LockedBy(Some(e)) {
        if !on.ownerRemovable {
          return true;
        }
        lock := if on.lockEmpty then NoLock else LockedBy(None);
      }
    }

    method PersistFailed(e: Id, taskId: Id, on: Outside) returns (raised: bool)
      modifies state
      ensures raised == !on.evidenceWritable(e)
      ensures state.Contents() == AfterOutcome(
                old(state.Contents()).(executions := if e in old(state.executions)
                  then old(state.executions)[e := old(state.executions[e]).(status := Failed, recoveryRequired := false)]
                  else old(state.executions)), taskId, TaskFailed)
    {
      state.PersistTaskOutcome(taskId, TaskFailed);
      state.UpdateStatus(e, Failed, false);
      raised := !on.evidenceWritable(e);
    }

    method PersistRecovery(e: Id, taskId: Id)
      modifies state
      ensures state.Contents() == AfterOutcome(
                old(state.Contents()).(executions := if e in old(state.executions)
                  then old(state.executions)[e := old(state.executions[e]).(status := RecoveryRequired, recoveryRequired := true)]
                  else old(state.executions)), taskId, InputRequired)
    {
      state.PersistTaskOutcome(taskId, InputRequired);
      state.UpdateStatus(e, RecoveryRequired, true);
    }

    /** `_reconcile_claim`: the row as listed. */
    method ReconcileClaim(e: Id, claim: Row, on: Outside) returns (raised: bool)
      requires e in state.executions && state.executions[e] == claim && !IsTerminal(claim.status)
      modifies this, state
      ensures raised == (Interrupted(claim, on) && !FailsCleanly(e, claim, old(lock), on))
      ensures state.executions == old(state.executions)[e := claim.(
                status := if Interrupted(claim, on) then Failed else RecoveryRequired,
                recoveryRequired := !Interrupted(claim, on))]
      ensures state.tasks == AfterOutcome(old(state.Contents()), claim.taskId,
                if Interrupted(claim, on) then TaskFailed else InputRequired).tasks
      ensures lock == if old(lock) == LockedBy(Some(e)) && FailsCleanly(e, claim, old(lock), on)
                      then (if on.lockEmpty then NoLock else LockedBy(None)) else old(lock)
      ensures Honest(on) && claim.worker.Some? && on.aliveAfter(claim.worker.value) ==>
                e in state.executions && state.executions[e].status == RecoveryRequired && lock == old(lock)
    {
      raised := false;
      if claim.worker.Some? {
        var p := on.probe(claim.worker.value);
        if p.pidExists && !p.matches {
          PersistRecovery(e, claim.taskId);
          return;
        }
        if OwnedAlive(p) && !p.stops {
          PersistRecovery(e, claim.taskId);
          return;
        }
      } else if claim.status != Claimed {
        PersistRecovery(e, claim.taskId);
        return;
      }
      raised := PersistFailed(e, claim.taskId, on);
      if !raised {
        raised := ReleaseLockIfOwner(e, on);
      }
    }

    /** One row, and recovery when failing it raised. */
    method ReconcileRow(e: Id, claim: Row, on: Outside)
      requires e in state.executions && state.executions[e] == claim && !IsTerminal(claim.status)
      requires claim.taskId in state.tasks
      modifies this, state
      ensures state.executions == old(state.executions)[e := RowAfter(e, claim, old(lock), on)]
      ensures state.tasks == old(state.tasks)[claim.taskId := TaskReconciled(claim, old(state.tasks[claim.taskId]), on)]
      ensures lock == if old(lock) == LockedBy(Some(e)) then LockAfter(old(state.executions), old(lock), on) else old(lock)
    {
      var raised := ReconcileClaim(e, claim, on);
      if raised {
        PersistRecovery(e, claim.taskId);
      }
    }

    /** The next row of the first loop. */
    method ReconcileNext(e: Id, ghost was: Db, ghost todo: set<Id>, ghost lock0: LockDir, on: Outside)
      requires OwnTasks(was.executions, was.tasks) && e in todo
      requires Reconciled(was, state.Contents(), todo, lock0, on) && lock == LockDuring(was.executions, todo, lock0, on)
      modifies this, state
      ensures Reconciled(was, state.Contents(), todo - {e}, lock0, on)
      ensures lock == LockDuring(was.executions, todo - {e}, lock0, on)
    {
      ghost var now := state.Contents();
      assert RowReconciled(e, was, now, true, lock0, on);
      ReconcileRow(e, state.executions[e], on);
    }

    /** The first loop of `reconcile_startup`: each nonterminal row once. */
    method ReconcileRows(on: Outside)
      requires OwnTasks(state.executions, state.tasks)
      modifies this, state
      ensures Reconciled(old(state.Contents()), state.Contents(), {}, old(lock), on)
      ensures lock == LockAfter(old(state.executions), old(lock), on)
    {
      var ids := state.ListNonterminal();
      ghost var was, lock0 := state.Contents(), lock;
      ghost var todo := Remaining(ids, 0);
      for i := 0 to |ids|
        invariant todo == Remaining(ids, i)
        invariant Reconciled(was, state.Contents(), todo, lock0, on)
        invariant lock == LockDuring(was.executions, todo, lock0, on)
      {
        ReconcileNext(ids[i], was, todo, lock0, on);
        todo := todo - {ids[i]};
      }
    }

    /** A registry-terminal row gets a terminal task. */
    method HealNext(e: Id, ghost was: Db, ghost todo: set<Id>)
      requires OwnTasks(was.executions, was.tasks) && Healed(was, state.Contents(), todo) && e in todo
      modifies state
      ensures Healed(was, state.Contents(), todo - {e})
    {
      ghost var now := state.Contents();
      assert TaskDone(e, was, now, true);
      var claim := state.executions[e];
      if IsTerminal(claim.status) {
        var task := state.LoadTask(claim.taskId);
        if task.Some? && !IsTerminalTask(task.value) {
          state.PersistTaskOutcome(claim.taskId, Mapped(claim.status));
        }
      }
    }

    /** `_heal_terminal_tasks` */
    method HealTerminalTasks()
      requires OwnTasks(state.executions, state.tasks)
      modifies state
      ensures Healed(old(state.Contents()), state.Contents(), {})
    {
      var ids := state.ListAll();
      ghost var was := state.Contents();
      ghost var todo := Remaining(ids, 0);
      for i := 0 to |ids|
        invariant todo == Remaining(ids, i)
        invariant Healed(was, state.Contents(), todo)
      {
        HealNext(ids[i], was, todo);
        todo := todo - {ids[i]};
      }
    }

    /** `reconcile_startup`: every row and task is settled as `RowAfter` and
      * `TaskAfter` say, and to the dispatch protocol the pass is a restart. */
    method ReconcileStartup(on: Outside)
      requires OwnTasks(state.executions, state.tasks)
      modifies this, state
      ensures Settled(old(state.Contents()), state.Contents(), old(lock), on)
      ensures lock == LockAfter(old(state.executions), old(lock), on)
      ensures Dispatch.Reconciles(old(state.Contents()), state.Contents())
      ensures Honest(on) ==> WorkersKept(old(state.executions), state.executions, old(lock), lock, on)
    {
      ghost var was, lock0 := state.Contents(), lock;
      ReconcileRows(on);
      ghost var mid := state.Contents();
      TasksStayOwn(was, mid, lock0, on);
      HealTerminalTasks();
      PassSettles(was, mid, state.Contents(), lock0, on);
      PassIsRestart(was, state.Contents(), lock0, on);
      if Honest(on) {
        PassKeepsWorkers(was, state.Contents(), lock0, on);
      }
    }
  }
}
