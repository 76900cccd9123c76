/** The server's durable state: execution claims and task snapshots.
  * Hashes of equal requests are equal and of different requests differ.
  */
module Store {
  import opened Wrappers
  import opened Contracts

  type Id = string

  datatype Status = Claimed | Running | RecoveryRequired | Completed | Failed | Rejected | Canceled

  predicate IsTerminal(s: Status) { s.Completed? || s.Failed? || s.Rejected? || s.Canceled? }

  datatype TaskState =
    | Unspecified | Submitted | Working | InputRequired
    | TaskCompleted | TaskFailed | TaskRejected | TaskCanceled

  predicate IsTerminalTask(s: TaskState) {
    s.TaskCompleted? || s.TaskFailed? || s.TaskRejected? || s.TaskCanceled?
  }

  datatype Worker = Worker(pid: nat, pgid: nat, startIdentity: string)

  /** One row of `executions`; its hash column is the hash of its request. */
  datatype Row = Row(
    request: CodingRequest,
    taskId: Id,
    contextId: Id,
    status: Status,
    worker: Option<Worker>,
    recoveryRequired: bool)

  datatype Db = Db(executions: map<Id, Row>, tasks: map<Id, TaskState>)

  /** Every execution has a task. */
  ghost predicate RowsHaveTasks(db: Db) {
    forall e | e in db.executions :: db.executions[e].taskId in db.tasks
  }

  /** `claim` conflicts: the id is taken by a request with another hash. */
  predicate Conflicts(db: Db, r: CodingRequest) {
    r.executionId in db.executions && Hash(db.executions[r.executionId].request) != Hash(r)
  }

  /** The database after `claim` of a request that does not conflict. */
  function AfterClaim(db: Db, r: CodingRequest, taskId: Id, contextId: Id): Db {
    if r.executionId in db.executions then db
    else Db(db.executions[r.executionId := Row(r, taskId, contextId, Claimed, None, false)],
            db.tasks[taskId := Submitted])
  }

  predicate CanDispatch(db: Db, e: Id) { e in db.executions && db.executions[e].status == Claimed }

  function WithStatus(db: Db, e: Id, status: Status): Db {
    if e in db.executions then db.(executions := db.executions[e := db.executions[e].(status := status)]) else db
  }

  function AfterDispatch(db: Db, e: Id): Db { if CanDispatch(db, e) then WithStatus(db, e, Running) else db }

  /** `persist_task_outcome`: a terminal task is left as it is. */
  function AfterOutcome(db: Db, taskId: Id, state: TaskState): Db {
    if taskId in db.tasks && IsTerminalTask(db.tasks[taskId]) then db
    else db.(tasks := db.tasks[taskId := state])
  }

  class SqliteState {
    var executions: map<Id, Row>
    var tasks: map<Id, TaskState>

    constructor ()
      ensures Contents() == Db(map[], map[])
    {
      executions, tasks := map[], map[];
    }

    ghost function Contents(): Db
      reads this
    {
      Db(executions, tasks)
    }

    /** `claim`: the row for this request, made on the first call.
      * `freshTask` and `freshContext` are the ids a new row would get. */
    method Claim(r: CodingRequest, taskId: Option<Id>, contextId: Option<Id>, freshTask: Id, freshContext: Id)
      returns (claim: Option<Row>, created: bool)
      modifies this
      ensures claim.None? <==> Conflicts(old(Contents()), r)
      ensures created <==> r.executionId !in old(executions)
      ensures claim.None? ==> Contents() == old(Contents())
      ensures claim.Some? ==>
                && Contents() == AfterClaim(old(Contents()), r,
                                            if taskId.Some? then taskId.value else freshTask,
                                            if contextId.Some? then contextId.value else freshContext)
                && r.executionId in executions && claim.value == executions[r.executionId]
                && claim.value.request == r
    {
      created := r.executionId !in executions;
      if !created {
        var existing := executions[r.executionId];
        if Hash(existing.request) != Hash(r) {
          return None, false;
        }
        SameHashSameRequest(existing.request, r);
        return Some(existing), false;
      }
      var assignedTask := if taskId.Some? then taskId.value else freshTask;
      var assignedContext := if contextId.Some? then contextId.value else freshContext;
      var row := Row(r, assignedTask, assignedContext, Claimed, None, false);
      executions := executions[r.executionId := row];
      tasks := tasks[assignedTask := Submitted];
      return Some(row), true;
    }

    /** `try_dispatch`: only one caller ever wins a claim. */
    method TryDispatch(e: Id) returns (won: bool)
      modifies this
      ensures won <==> CanDispatch(old(Contents()), e)
      ensures Contents() == AfterDispatch(old(Contents()), e)
    {
      won := e in executions && executions[e].status == Claimed;
      if won {
        executions := executions[e := executions[e].(status := Running)];
      }
    }

    method UpdateStatus(e: Id, status: Status, recoveryRequired: bool)
      modifies this
      ensures tasks == old(tasks)
      ensures executions == if e in old(executions)
                            then old(executions)[e := old(executions[e]).(status := status, recoveryRequired := recoveryRequired)]
                            else old(executions)
    {
      if e in executions {
        executions := executions[e := executions[e].(status := status, recoveryRequired := recoveryRequired)];
      }
    }

    /** The `running` row a launch writes. */
    method RecordWorker(e: Id, worker: Worker)
      modifies this
      ensures tasks == old(tasks)
      ensures executions == if e in old(executions)
                            then old(executions)[e := old(executions[e]).(status := Running, worker := Some(worker))]
                            else old(executions)
    {
      if e in executions {
        executions := executions[e := executions[e].(status := Running, worker := Some(worker))];
      }
    }

    method LoadTask(taskId: Id) returns (task: Option<TaskState>)
      ensures task == if taskId in tasks then Some(tasks[taskId]) else None
    {
      task := if taskId in tasks then Some(tasks[taskId]) else None;
    }

    method PersistTaskOutcome(taskId: Id, state: TaskState)
      modifies this
      ensures Contents() == AfterOutcome(old(Contents()), taskId, state)
    {
      var task := LoadTask(taskId);
      if task.Some? && IsTerminalTask(task.value) {
        return;
      }
      tasks := tasks[taskId := state];
    }

    /** `list_nonterminal`: each claimed, running or recovery-required row once. */
    method ListNonterminal() returns (ids: seq<Id>)
      ensures forall e :: e in ids <==> e in executions && !IsTerminal(executions[e].status)
      ensures forall i, j | 0 <= i < j < |ids| :: ids[i] != ids[j]
    {
      ids := [];
      var todo := executions.Keys;
      while todo != {}
        invariant todo <= executions.Keys
        invariant forall e :: e in ids <==> e in executions.Keys - todo && !IsTerminal(executions[e].status)
        invariant forall i, j | 0 <= i < j < |ids| :: ids[i] != ids[j]
        decreases |todo|
      {
        var e :| e in todo;
        todo := todo - {e};
        if !IsTerminal(executions[e].status) {
          ids := ids + [e];
        }
      }
    }

    /** `list_all` */
    method ListAll() returns (ids: seq<Id>)
      ensures forall e :: e in ids <==> e in executions
      ensures forall i, j | 0 <= i < j < |ids| :: ids[i] != ids[j]
    {
      ids := [];
      var todo := executions.Keys;
      while todo != {}
        invariant todo <= executions.Keys
        invariant forall e :: e in ids <==> e in executions.Keys - todo
        invariant forall i, j | 0 <= i < j < |ids| :: ids[i] != ids[j]
        decreases |todo|
      {
        var e :| e in todo;
        assert forall i | 0 <= i < |ids| :: ids[i] in ids;
        todo := todo - {e};
        ids := ids + [e];
      }
    }
  }

  lemma SameHashSameRequest(a: CodingRequest, b: CodingRequest)
    ensures Hash(a) == Hash(b) <==> a == b
  {
    HashTellsRequestsApart(a, b);
  }

  lemma ConflictMeansChanged(db: Db, r: CodingRequest)
    ensures Conflicts(db, r) <==> r.executionId in db.executions && db.executions[r.executionId].request != r
  {
    if r.executionId in db.executions {
      SameHashSameRequest(db.executions[r.executionId].request, r);
    }
  }
}
