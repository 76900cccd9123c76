/** One execution runtime: the launch thread, the run coroutine, finalizers
  * (cancel, deadline, shutdown), lock releases and the worker, interleaved.
  *
  * Probes are honest: a group reported empty is empty.  A live worker may be
  * reported, and a dead one may be reported alive.
  */
module SpawnGate {
  import opened Wrappers

  datatype Kind = Canceled | Failed | Completed | Rejected | Recovery

  /** The coroutine of `_run_validated`.  `Held`: lock taken, launch not yet begun;
    * `Publishing`: the outcome row is written, `_finalized` not yet set; `Handling`: in
    * the exception handler of `execute`, which has seen `_finalized` unset. */
  datatype Run = Fresh | Held | Launching | Publishing(kind: Kind) | Handling | Ended

  /** The thread of `spawn_worker`; the middle three hold `_spawn_lock`. */
  datatype Thread = Unstarted | Before | InGate | Spawned | Recorded | Gone

  /** Where the one finalizer that holds `_cleanup` stands. */
  datatype Stage = Entered | GateClosed | WorkerStopped | Settled | Leaving

  datatype Finalizer = Finalizer(kind: Kind, stage: Stage)

  /** The workspace lock directory, as seen from this runtime. */
  datatype Lock = Free | Mine | Other

  datatype Row = RowRunning | RowTerminal(kind: Kind)

  datatype Runtime = Runtime(
    run: Run,
    thread: Thread,
    blocked: bool,                 // _spawn_blocked
    owned: bool,                   // owned is not None
    alive: bool,                   // the worker's process group
    lockAcquired: bool,
    lock: Lock,
    closing: bool,
    finalized: bool,
    finalKind: Option<Kind>,
    active: Option<Finalizer>,
    releasers: map<nat, bool>,     // release_lock_if_safe calls; true once past the gate
    row: Row,
    // history
    returned: set<Kind>,           // what finalize has returned
    released: bool,                // this runtime gave its lock back
    stolen: bool)                  // it removed another runtime's lock

  const START := Runtime(Fresh, Unstarted, false, false, false, false, Free, false, false, None, None,
                         map[], RowRunning, {}, false, false)

  /** Steps of the run coroutine. */
  datatype RunStep = Acquire | Reject | Abandon | StartThread | Deliver(kind: Kind) | Publish | Raise | FailRow

  /** Steps of the launch thread. */
  datatype ThreadStep = EnterGate | SpawnFails | Spawn | Record | LeaveGate(wroteRow: bool)

  /** Steps of `finalize`. */
  datatype FinalStep =
    Enter(kind: Kind) | CloseGate | Stop(confirmed: bool) | Settle | CheckLock | LeaveLock(probedAlive: bool)

  /** Steps of `release_lock_if_safe`. */
  datatype ReleaseStep = Check(id: nat) | CloseFirst(id: nat) | Act(id: nat, probedAlive: bool)

  datatype OutsideStep = WorkerDies | AcquireOther | ReleaseOther

  datatype Step =
    | Coroutine(r: RunStep)
    | LaunchThread(t: ThreadStep)
    | Finalize(f: FinalStep)
    | Release(l: ReleaseStep)
    | Outside(o: OutsideStep)

  predicate HoldsGate(t: Thread) { t.InGate? || t.Spawned? || t.Recorded? }

  predicate RunEnabled(s: Runtime, step: RunStep) {
    match step
    case Acquire => s.run == Fresh && s.lock == Free
    case Reject => s.run == Fresh
    case Abandon => s.run == Held || s.run == Launching || s.run.Publishing?
    case StartThread => s.run == Held
    case Deliver(k) =>
      s.run == Launching && s.thread == Gone && s.owned && !s.alive && !s.closing && !s.finalized
      && (k == Completed || k == Failed)
    case Publish => s.run.Publishing?
    case Raise => s.run != Handling && s.run != Ended
    case FailRow => s.run == Handling
  }

  function NextRun(s: Runtime, step: RunStep): Runtime
    requires RunEnabled(s, step)
  {
    match step
    case Acquire => s.(run := Held, lock := Mine, lockAcquired := true)
    // Busy, or taken and given back in the same breath when validation fails.
    case Reject => s.(run := Publishing(Rejected), row := RowTerminal(Rejected))
    // A canceled coroutine stops here; the launch thread goes on.
    case Abandon => s.(run := Ended)
    case StartThread => s.(run := Launching, thread := Before)
    case Deliver(k) => s.(run := Publishing(k), row := RowTerminal(k))
    case Publish => s.(run := Ended, finalized := true, finalKind := Some(s.run.kind))
    case Raise => s.(run := if s.finalized then Ended else Handling)
    case FailRow => s.(run := Ended, row := RowTerminal(Failed))
  }

  predicate ThreadEnabled(s: Runtime, step: ThreadStep) {
    match step
    case EnterGate => s.thread == Before
    case SpawnFails => s.thread == InGate
    case Spawn => s.thread == InGate
    case Record => s.thread == Spawned
    case LeaveGate(_) => s.thread == Recorded
  }

  function NextThread(s: Runtime, step: ThreadStep): Runtime
    requires ThreadEnabled(s, step)
  {
    match step
    case EnterGate => s.(thread := if s.blocked then Gone else InGate)
    case SpawnFails => s.(thread := Gone)
    case Spawn => s.(thread := Spawned, alive := true)
    case Record => s.(thread := Recorded, owned := true)
    case LeaveGate(wroteRow) => s.(thread := Gone, row := if wroteRow then RowRunning else s.row)
  }

  /** `workspace.lock.release()`: the lock object is shared by all runtimes, so it
    * removes whatever lock there is.  With `recheck`, `lock_acquired` is looked at
    * again in the same step. */
  function Freed(s: Runtime, recheck: bool): (r: Runtime)
    ensures r == s.(lock := r.lock, lockAcquired := r.lockAcquired, released := r.released, stolen := r.stolen)
  {
    if recheck && !s.lockAcquired then s
    else s.(lock := Free, lockAcquired := false, released := true, stolen := s.stolen || s.lock == Other)
  }

  function Returned(s: Runtime, kind: Kind): Runtime {
    s.(finalized := true, finalKind := Some(kind), active := None, returned := s.returned + {kind})
  }

  predicate ActiveAt(s: Runtime, stage: Stage) { s.active.Some? && s.active.value.stage == stage }

  function AtStage(s: Runtime, stage: Stage): Runtime
    requires s.active.Some?
  {
    s.(active := Some(s.active.value.(stage := stage)))
  }

  predicate FinalEnabled(s: Runtime, step: FinalStep) {
    match step
    case Enter(k) => s.active.None? && (k == Canceled || k == Failed)
    case CloseGate => ActiveAt(s, Entered) && !HoldsGate(s.thread)
    case Stop(confirmed) => ActiveAt(s, GateClosed) && (!s.owned ==> confirmed)
    case Settle => ActiveAt(s, WorkerStopped)
    case CheckLock => ActiveAt(s, Settled)
    case LeaveLock(probed) => ActiveAt(s, Leaving) && (s.alive && s.owned ==> probed)
  }

  /** A confirmed stop means the owned group is empty; with nothing owned there is nothing to stop. */
  function NextFinal(s: Runtime, step: FinalStep, recheck: bool): Runtime
    requires FinalEnabled(s, step)
  {
    match step
    case Enter(k) =>
      if s.finalized then s.(returned := s.returned + {if s.finalKind.Some? then s.finalKind.value else k})
      else s.(closing := true, active := Some(Finalizer(k, Entered)))
    case CloseGate => AtStage(s.(blocked := true), GateClosed)
    case Stop(confirmed) =>
      if confirmed then AtStage(s.(alive := s.alive && !s.owned), WorkerStopped)
      else Returned(s.(row := RowTerminal(Recovery)), Recovery)
    case Settle => AtStage(s.(row := RowTerminal(s.active.value.kind)), Settled)
    case CheckLock => if s.lockAcquired then AtStage(s, Leaving) else Returned(s, s.active.value.kind)
    case LeaveLock(probed) => Returned(if s.owned && probed then s else Freed(s, recheck), s.active.value.kind)
  }

  predicate ReleaseEnabled(s: Runtime, step: ReleaseStep) {
    match step
    case Check(i) => i !in s.releasers && s.lockAcquired
    case CloseFirst(i) => i in s.releasers && !s.releasers[i] && !HoldsGate(s.thread)
    case Act(i, probed) => i in s.releasers && s.releasers[i] && (s.alive && s.owned ==> probed)
  }

  function NextRelease(s: Runtime, step: ReleaseStep, recheck: bool): (r: Runtime)
    requires ReleaseEnabled(s, step)
    ensures r == s.(blocked := r.blocked, releasers := r.releasers, lock := r.lock, lockAcquired := r.lockAcquired,
                    released := r.released, stolen := r.stolen)
  {
    match step
    case Check(i) => s.(releasers := s.releasers[i := false])
    case CloseFirst(i) => s.(blocked := true, releasers := s.releasers[i := true])
    case Act(i, probed) =>
      var done := s.(releasers := s.releasers - {i});
      if s.owned && probed then done else Freed(done, recheck)
  }

  predicate OutsideEnabled(s: Runtime, step: OutsideStep) {
    match step
    case WorkerDies => s.alive
    case AcquireOther => s.lock == Free
    case ReleaseOther => s.lock == Other
  }

  function NextOutside(s: Runtime, step: OutsideStep): Runtime {
    match step
    case WorkerDies => s.(alive := false)
    case AcquireOther => s.(lock := Other)
    case ReleaseOther => s.(lock := Free)
  }

  predicate Enabled(s: Runtime, step: Step) {
    match step
    case Coroutine(r) => RunEnabled(s, r)
    case LaunchThread(t) => ThreadEnabled(s, t)
    case Finalize(f) => FinalEnabled(s, f)
    case Release(l) => ReleaseEnabled(s, l)
    case Outside(o) => OutsideEnabled(s, o)
  }

  function Next(s: Runtime, step: Step, recheck: bool): Runtime
    requires Enabled(s, step)
  {
    match step
    case Coroutine(r) => NextRun(s, r)
    case LaunchThread(t) => NextThread(s, t)
    case Finalize(f) => NextFinal(s, f, recheck)
    case Release(l) => NextRelease(s, l, recheck)
    case Outside(o) => NextOutside(s, o)
  }

  // ---- what every step keeps --------------------------------------------------

  /** No worker can be launched any more. */
  predicate NoLaunch(s: Runtime) {
    || s.thread == Gone
    || (s.blocked && !HoldsGate(s.thread))
    || (s.thread == Unstarted && (s.run == Ended || s.run == Handling || s.run.Publishing?))
  }

  /** No worker is alive, and none will be. */
  predicate Quiet(s: Runtime) { !s.alive && NoLaunch(s) }

  ghost predicate GateOk(s: Runtime) {
    && (HoldsGate(s.thread) ==> !s.blocked)
    && (s.alive ==> s.thread == Spawned || s.thread == Recorded || s.thread == Gone)
    && (s.alive && s.thread != Spawned ==> s.owned)
    && (s.owned ==> s.thread == Recorded || s.thread == Gone)
    && (s.run == Fresh || s.run == Held ==> s.thread == Unstarted)
    && (s.run == Launching ==> s.thread != Unstarted)
    && (s.run.Publishing? ==> s.thread == Unstarted || s.thread == Gone)
  }

  ghost predicate LockOk(s: Runtime) {
    && (s.lockAcquired ==> s.lock == Mine)
    && (s.run == Fresh ==> !s.lockAcquired)
    && (s.alive || HoldsGate(s.thread) ==> s.lockAcquired)
    && ((s.run == Held || s.thread == Before) && !s.blocked ==> s.lockAcquired)
    && (s.released ==> Quiet(s))
    && (forall i | i in s.releasers && s.releasers[i] :: s.blocked)
  }

  ghost predicate FinalOk(s: Runtime) {
    && (s.active.Some? && s.active.value.stage != Entered ==> s.blocked)
    && (s.active.Some? && s.active.value.stage != Entered && s.active.value.stage != GateClosed ==> Quiet(s))
    && (s.active.Some? ==> s.active.value.kind == Canceled || s.active.value.kind == Failed)
    && (s.run.Publishing? ==> Quiet(s))
    && (s.finalized ==> s.finalKind.Some? && (s.finalKind != Some(Recovery) ==> Quiet(s)))
    && (forall k | k in s.returned && k != Recovery :: Quiet(s))
  }

  ghost predicate Inv(s: Runtime) { GateOk(s) && LockOk(s) && FinalOk(s) }

  lemma StartInv()
    ensures Inv(START)
  {
  }

  /** Everything that could still write the row is over. */
  predicate Sealed(s: Runtime) { s.finalized && s.active.None? && s.run == Ended && NoLaunch(s) }

  /** What one step keeps: the invariant; once quiet, always quiet; a sealed row;
    * and, with the second look, other runtimes' locks. */
  ghost predicate Keeps(s: Runtime, s': Runtime, recheck: bool) {
    && Inv(s')
    && (Quiet(s) ==> Quiet(s'))
    && (Sealed(s) ==> Sealed(s') && s'.row == s.row)
    && (recheck ==> s'.stolen == s.stolen)
  }

  lemma RunKeeps(s: Runtime, step: RunStep, recheck: bool)
    requires Inv(s) && RunEnabled(s, step)
    ensures Keeps(s, NextRun(s, step), recheck)
  {
  }

  lemma ThreadKeeps(s: Runtime, step: ThreadStep, recheck: bool)
    requires Inv(s) && ThreadEnabled(s, step)
    ensures Keeps(s, NextThread(s, step), recheck)
  {
  }

  lemma EnterKeeps(s: Runtime, step: FinalStep, recheck: bool)
    requires Inv(s) && FinalEnabled(s, step) && step.Enter?
    ensures Keeps(s, NextFinal(s, step, recheck), recheck)
  {
  }

  lemma StopKeeps(s: Runtime, step: FinalStep, recheck: bool)
    requires Inv(s) && FinalEnabled(s, step) && (step.CloseGate? || step.Stop?)
    ensures Keeps(s, NextFinal(s, step, recheck), recheck)
  {
  }

  lemma LeaveKeeps(s: Runtime, step: FinalStep, recheck: bool)
    requires Inv(s) && FinalEnabled(s, step) && (step.Settle? || step.CheckLock? || step.LeaveLock?)
    ensures Keeps(s, NextFinal(s, step, recheck), recheck)
  {
  }

  lemma CheckKeeps(s: Runtime, step: ReleaseStep, recheck: bool)
    requires Inv(s) && ReleaseEnabled(s, step) && !step.Act?
    ensures Keeps(s, NextRelease(s, step, recheck), recheck)
  {
  }

  lemma ActKeeps(s: Runtime, step: ReleaseStep, recheck: bool)
    requires Inv(s) && ReleaseEnabled(s, step) && step.Act?
    ensures Keeps(s, NextRelease(s, step, recheck), recheck)
  {
  }

  lemma ReleaseKeeps(s: Runtime, step: ReleaseStep, recheck: bool)
    requires Inv(s) && ReleaseEnabled(s, step)
    ensures Keeps(s, NextRelease(s, step, recheck), recheck)
  {
    if step.Act? {
      ActKeeps(s, step, recheck);
    } else {
      CheckKeeps(s, step, recheck);
    }
  }

  lemma OutsideKeeps(s: Runtime, step: OutsideStep, recheck: bool)
    requires Inv(s) && OutsideEnabled(s, step)
    ensures Keeps(s, NextOutside(s, step), recheck)
  {
  }

  lemma StepKeeps(s: Runtime, step: Step, recheck: bool)
    requires Inv(s) && Enabled(s, step)
    ensures Keeps(s, Next(s, step, recheck), recheck)
  {
    match step
    case Coroutine(r) => RunKeeps(s, r, recheck);
    case LaunchThread(t) => ThreadKeeps(s, t, recheck);
    case Finalize(f) =>
      if f.Enter? {
        EnterKeeps(s, f, recheck);
      } else if f.CloseGate? || f.Stop? {
        StopKeeps(s, f, recheck);
      } else {
        LeaveKeeps(s, f, recheck);
      }
    case Release(l) => ReleaseKeeps(s, l, recheck);
    case Outside(o) => OutsideKeeps(s, o, recheck);
  }

  // ---- runs ---------------------------------------------------------------------

  predicate CanRun(s: Runtime, steps: seq<Step>, recheck: bool)
    decreases |steps|
  {
    steps == [] || (Enabled(s, steps[0]) && CanRun(Next(s, steps[0], recheck), steps[1..], recheck))
  }

  function After(s: Runtime, steps: seq<Step>, recheck: bool): Runtime
    requires CanRun(s, steps, recheck)
    decreases |steps|
  {
    if steps == [] then s else After(Next(s, steps[0], recheck), steps[1..], recheck)
  }

  lemma {:induction false} RunInv(s: Runtime, steps: seq<Step>, recheck: bool)
    requires Inv(s) && CanRun(s, steps, recheck)
    ensures Inv(After(s, steps, recheck))
    ensures Quiet(s) ==> Quiet(After(s, steps, recheck))
    decreases |steps|
  {
    if steps != [] {
      StepKeeps(s, steps[0], recheck);
      RunInv(Next(s, steps[0], recheck), steps[1..], recheck);
    }
  }

  /** Once `finalize` has returned canceled, failed or any kind but recovery, or the
    * runtime has given back its lock, no worker is alive -- now or after any
    * further steps -- and none is ever launched again. */
  lemma FinalizedIsQuiet(steps: seq<Step>, more: seq<Step>, recheck: bool)
    requires CanRun(START, steps, recheck) && CanRun(After(START, steps, recheck), more, recheck)
    requires var s := After(START, steps, recheck); s.released || exists k :: k in s.returned && k != Recovery
    ensures var s := After(After(START, steps, recheck), more, recheck);
            !s.alive && NoLaunch(s)
  {
    StartInv();
    RunInv(START, steps, recheck);
    RunInv(After(START, steps, recheck), more, recheck);
  }

  /** A live worker -- one whose stop was not confirmed included -- keeps the lock. */
  lemma LiveWorkerKeepsLock(steps: seq<Step>, recheck: bool)
    requires CanRun(START, steps, recheck)
    ensures var s := After(START, steps, recheck);
            s.alive ==> s.lockAcquired && s.lock == Mine && !s.released
  {
    StartInv();
    RunInv(START, steps, recheck);
  }

  /** If a release looks at `lock_acquired` again before it acts, no runtime ever
    * removes another one's lock. */
  lemma {:induction false} RecheckedNeverSteals(s: Runtime, steps: seq<Step>)
    requires Inv(s) && CanRun(s, steps, true)
    ensures After(s, steps, true).stolen == s.stolen
    decreases |steps|
  {
    if steps != [] {
      StepKeeps(s, steps[0], true);
      RecheckedNeverSteals(Next(s, steps[0], true), steps[1..]);
    }
  }

  /** Releases past their look at `lock_acquired` that have not acted yet. */
  function Pending(s: Runtime): nat { |s.releasers| + if ActiveAt(s, Leaving) then 1 else 0 }

  /** A release that acts on the lock. */
  predicate GivesBack(s: Runtime, step: Step) {
    || (step.Release? && step.l.Act? && !(s.owned && step.l.probedAlive))
    || (step.Finalize? && step.f.LeaveLock? && !(s.owned && step.f.probedAlive))
  }

  predicate LockHeld(s: Runtime) { s.lockAcquired ==> s.lock == Mine }

  lemma FreedSteals(s: Runtime)
    requires LockHeld(s) && !s.stolen
    ensures Freed(s, false).stolen <==> !s.lockAcquired && s.lock == Other
  {
  }

  lemma FinalizerSteals(s: Runtime, step: FinalStep)
    requires LockHeld(s) && FinalEnabled(s, step) && !s.stolen
    ensures NextFinal(s, step, false).stolen
            <==> step.LeaveLock? && !(s.owned && step.probedAlive) && !s.lockAcquired && s.lock == Other
  {
    FreedSteals(s);
    if step.LeaveLock? {
      assert NextFinal(s, step, false).stolen
          == (if s.owned && step.probedAlive then s else Freed(s, false)).stolen;
    } else {
      assert NextFinal(s, step, false).stolen == s.stolen;
    }
  }

  lemma ReleaseSteals(s: Runtime, step: ReleaseStep)
    requires LockHeld(s) && ReleaseEnabled(s, step) && !s.stolen
    ensures NextRelease(s, step, false).stolen
            <==> step.Act? && !(s.owned && step.probedAlive) && !s.lockAcquired && s.lock == Other
  {
  }

  predicate SameReleases(s: Runtime, s': Runtime) {
    s'.stolen == s.stolen && s'.releasers == s.releasers && s'.active == s.active
  }

  lemma CoroutineAlone(s: Runtime, step: RunStep)
    requires RunEnabled(s, step)
    ensures SameReleases(s, NextRun(s, step))
    ensures s.lockAcquired ==> NextRun(s, step).lockAcquired
  {
  }

  lemma ThreadAlone(s: Runtime, step: ThreadStep)
    requires ThreadEnabled(s, step)
    ensures SameReleases(s, NextThread(s, step))
    ensures NextThread(s, step).lockAcquired == s.lockAcquired
  {
  }

  lemma OutsideAlone(s: Runtime, step: OutsideStep)
    requires OutsideEnabled(s, step)
    ensures SameReleases(s, NextOutside(s, step))
    ensures NextOutside(s, step).lockAcquired == s.lockAcquired
  {
  }

  /** As the code stands, a step removes another runtime's lock exactly when it
    * acts on a lock this runtime has given back before and another one has taken. */
  lemma StealsExactly(s: Runtime, step: Step)
    requires Inv(s) && Enabled(s, step) && !s.stolen
    ensures Next(s, step, false).stolen <==> GivesBack(s, step) && !s.lockAcquired && s.lock == Other
  {
    match step
    case Coroutine(r) => CoroutineAlone(s, r);
    case LaunchThread(t) => ThreadAlone(s, t);
    case Finalize(f) => FinalizerSteals(s, f);
    case Release(l) => ReleaseSteals(s, l);
    case Outside(o) => OutsideAlone(s, o);
  }

  /** What one pending release at a time keeps: it still has the lock it saw. */
  predicate OneRelease(s: Runtime) { Pending(s) <= 1 && (Pending(s) == 1 ==> s.lockAcquired) }

  lemma NoReleaser(m: map<nat, bool>, i: nat)
    requires i in m && |m| <= 1
    ensures |m| == 1 && m - {i} == map[]
  {
    assert |m.Keys - {i}| == |m.Keys| - 1;
    assert (m - {i}).Keys == m.Keys - {i} == {};
  }

  lemma FinalizerAlone(s: Runtime, step: FinalStep)
    requires LockHeld(s) && OneRelease(s) && FinalEnabled(s, step) && Pending(NextFinal(s, step, false)) <= 1
    ensures OneRelease(NextFinal(s, step, false)) && NextFinal(s, step, false).stolen == s.stolen
  {
  }

  lemma ReleaseAlone(s: Runtime, step: ReleaseStep)
    requires LockHeld(s) && OneRelease(s) && ReleaseEnabled(s, step) && Pending(NextRelease(s, step, false)) <= 1
    ensures OneRelease(NextRelease(s, step, false)) && NextRelease(s, step, false).stolen == s.stolen
  {
    if !step.Check? {
      NoReleaser(s.releasers, step.id);
    }
  }

  lemma StepAlone(s: Runtime, step: Step)
    requires Inv(s) && OneRelease(s) && Enabled(s, step) && Pending(Next(s, step, false)) <= 1
    ensures OneRelease(Next(s, step, false)) && Next(s, step, false).stolen == s.stolen
  {
    match step
    case Coroutine(r) => CoroutineAlone(s, r);
    case LaunchThread(t) => ThreadAlone(s, t);
    case Finalize(f) => FinalizerAlone(s, f);
    case Release(l) => ReleaseAlone(s, l);
    case Outside(o) => OutsideAlone(s, o);
  }

  /** At no point of the run are two releases between their look and their act. */
  predicate OneReleaseAtATime(s: Runtime, steps: seq<Step>)
    requires CanRun(s, steps, false)
    decreases |steps|
  {
    Pending(s) <= 1 && (steps == [] || OneReleaseAtATime(Next(s, steps[0], false), steps[1..]))
  }

  /** As the code stands, a run whose releases do not overlap removes no other
    * runtime's lock. */
  lemma {:induction false} SoleReleaseNeverSteals(s: Runtime, steps: seq<Step>)
    requires Inv(s) && OneRelease(s) && CanRun(s, steps, false) && OneReleaseAtATime(s, steps)
    ensures After(s, steps, false).stolen == s.stolen
    decreases |steps|
  {
    if steps != [] {
      StepKeeps(s, steps[0], false);
      StepAlone(s, steps[0]);
      SoleReleaseNeverSteals(Next(s, steps[0], false), steps[1..]);
    }
  }

  /** Once the outcome is published and no finalizer is at work, the row is final. */
  lemma {:induction false} SealedRowStays(s: Runtime, steps: seq<Step>, recheck: bool)
    requires Sealed(s) && Inv(s) && CanRun(s, steps, recheck)
    ensures After(s, steps, recheck).row == s.row
    decreases |steps|
  {
    if steps != [] {
      StepKeeps(s, steps[0], recheck);
      SealedRowStays(Next(s, steps[0], recheck), steps[1..], recheck);
    }
  }

  // ---- when a completed row stays --------------------------------------------------

  /** The steps that write over a row: a finalizer that settles or gives up, and the
    * exception handler. */
  predicate Overwrites(step: Step) {
    step == Finalize(Settle) || step == Finalize(Stop(false)) || step == Coroutine(FailRow)
  }

  /** The coroutine will not write a result any more. */
  predicate PastResult(s: Runtime) { s.run.Publishing? || s.run == Handling || s.run == Ended }

  /** A completed row: the worker is gone and the coroutine is past writing it. */
  predicate CompletedOk(s: Runtime) {
    && (s.row == RowTerminal(Completed) ==> s.thread == Gone && PastResult(s))
    && (s.active.Some? ==> s.active.value.kind == Canceled || s.active.value.kind == Failed)
  }

  /** No writer is left: published, no finalizer at work, and no handler. */
  predicate Published(s: Runtime) { s.finalized && s.active.None? && s.run == Ended }

  /** What a step does to a completed row, to one that will not be completed any
    * more, and to a published one. */
  predicate RowStep(s: Runtime, s': Runtime, overwrites: bool) {
    && CompletedOk(s')
    && (s.row == RowTerminal(Completed) ==> (s'.row == s.row <==> !overwrites))
    && (PastResult(s) ==> PastResult(s'))
    && (PastResult(s) && s.row != RowTerminal(Completed) ==> s'.row != RowTerminal(Completed))
    && (Published(s) ==> Published(s') && !overwrites)
  }

  lemma CoroutineRow(s: Runtime, step: RunStep)
    requires CompletedOk(s) && RunEnabled(s, step)
    ensures RowStep(s, NextRun(s, step), step == FailRow)
  {
  }

  lemma ThreadRow(s: Runtime, step: ThreadStep)
    requires CompletedOk(s) && ThreadEnabled(s, step)
    ensures RowStep(s, NextThread(s, step), false)
  {
  }

  lemma FinalizerRow(s: Runtime, step: FinalStep, recheck: bool)
    requires CompletedOk(s) && FinalEnabled(s, step)
    ensures RowStep(s, NextFinal(s, step, recheck), step == Settle || step == Stop(false))
  {
  }

  lemma ReleaseRow(s: Runtime, step: ReleaseStep, recheck: bool)
    requires CompletedOk(s) && ReleaseEnabled(s, step)
    ensures RowStep(s, NextRelease(s, step, recheck), false)
  {
    var s' := NextRelease(s, step, recheck);
    assert s'.row == s.row && s'.run == s.run && s'.thread == s.thread;
    assert s'.active == s.active && s'.finalized == s.finalized;
  }

  lemma OutsideRow(s: Runtime, step: OutsideStep)
    requires CompletedOk(s) && OutsideEnabled(s, step)
    ensures RowStep(s, NextOutside(s, step), false)
  {
  }

  lemma CompletedStep(s: Runtime, step: Step, recheck: bool)
    requires CompletedOk(s) && Enabled(s, step)
    ensures RowStep(s, Next(s, step, recheck), Overwrites(step))
  {
    match step
    case Coroutine(r) => CoroutineRow(s, r);
    case LaunchThread(t) => ThreadRow(s, t);
    case Finalize(f) => FinalizerRow(s, f, recheck);
    case Release(l) => ReleaseRow(s, l, recheck);
    case Outside(o) => OutsideRow(s, o);
  }

  lemma {:induction false} CompletedRun(s: Runtime, steps: seq<Step>, recheck: bool)
    requires CompletedOk(s) && CanRun(s, steps, recheck)
    ensures CompletedOk(After(s, steps, recheck))
    ensures PastResult(s) && s.row != RowTerminal(Completed) ==> After(s, steps, recheck).row != RowTerminal(Completed)
    decreases |steps|
  {
    if steps != [] {
      CompletedStep(s, steps[0], recheck);
      CompletedRun(Next(s, steps[0], recheck), steps[1..], recheck);
    }
  }

  predicate NoneOverwrites(steps: seq<Step>) { forall i | 0 <= i < |steps| :: !Overwrites(steps[i]) }

  lemma NoneOverwritesTail(steps: seq<Step>)
    requires steps != []
    ensures NoneOverwrites(steps) <==> !Overwrites(steps[0]) && NoneOverwrites(steps[1..])
  {
    assert forall i | 1 <= i < |steps| :: steps[i] == steps[1..][i - 1];
  }

  lemma {:induction false} CompletedStays(s: Runtime, steps: seq<Step>, recheck: bool)
    requires CompletedOk(s) && CanRun(s, steps, recheck) && s.row == RowTerminal(Completed)
    ensures After(s, steps, recheck).row == s.row <==> NoneOverwrites(steps)
    ensures Published(s) ==> NoneOverwrites(steps)
    decreases |steps|
  {
    if steps != [] {
      var s' := Next(s, steps[0], recheck);
      CompletedStep(s, steps[0], recheck);
      NoneOverwritesTail(steps);
      if Overwrites(steps[0]) {
        CompletedRun(s', steps[1..], recheck);
      } else {
        CompletedStays(s', steps[1..], recheck);
      }
    }
  }

  /** Over every run, a completed row stays exactly as long as no finalizer settles
    * or gives up and the exception handler does not write.  Once the outcome is
    * published with no finalizer at work and no handler under way, none of these
    * ever happens: only what had begun before can still overwrite. */
  lemma CompletedStaysExactly(before: seq<Step>, after: seq<Step>, recheck: bool)
    requires CanRun(START, before, recheck) && CanRun(After(START, before, recheck), after, recheck)
    requires After(START, before, recheck).row == RowTerminal(Completed)
    ensures var s := After(START, before, recheck);
            && (After(s, after, recheck).row == RowTerminal(Completed)
                <==> NoneOverwrites(after))
            && (Published(s) ==> After(s, after, recheck).row == RowTerminal(Completed))
  {
    CompletedRun(START, before, recheck);
    CompletedStays(After(START, before, recheck), after, recheck);
  }

  // ---- what a finalizer leaves in the row -----------------------------------------------

  /** The rows a runtime that may still have a worker can have: `failed` only from the
    * exception handler, and never canceled, completed or rejected. */
  predicate LiveRow(row: Row, handled: bool) {
    row == RowRunning || row == RowTerminal(Recovery) || (row == RowTerminal(Failed) && handled)
  }

  /** The row once this finalizer has settled it: its own kind, unless the coroutine has
    * written over it. */
  predicate SettledRow(row: Row, kind: Kind, handled: bool, rejected: bool) {
    || row == RowTerminal(kind)
    || (row == RowTerminal(Failed) && handled)
    || (row == RowTerminal(Rejected) && rejected)
  }

  /** `handled` and `rejected` say whether the exception handler, or a refused start,
    * has written the row. */
  ghost predicate RowsOk(s: Runtime, handled: bool, rejected: bool) {
    && (!Quiet(s) ==> LiveRow(s.row, handled))
    && (ActiveAt(s, Settled) || ActiveAt(s, Leaving) ==> SettledRow(s.row, s.active.value.kind, handled, rejected))
    && (s.run.Publishing? ==> s.run.kind == Completed || s.run.kind == Failed || s.run.kind == Rejected)
    && (s.active.Some? ==> s.closing)
    && (s.finalKind == Some(Recovery) ==>
          && s.finalized && s.active.None? && s.owned && s.blocked
          && (s.row == RowTerminal(Recovery) || (s.row == RowTerminal(Failed) && handled)))
  }

  lemma CoroutineRows(s: Runtime, step: RunStep, handled: bool, rejected: bool)
    requires Inv(s) && RowsOk(s, handled, rejected) && RunEnabled(s, step)
    ensures RowsOk(NextRun(s, step), handled || step == FailRow, rejected || step == Reject)
  {
    RunKeeps(s, step, false);
  }

  lemma ThreadRows(s: Runtime, step: ThreadStep, handled: bool, rejected: bool)
    requires Inv(s) && RowsOk(s, handled, rejected) && ThreadEnabled(s, step)
    ensures RowsOk(NextThread(s, step), handled, rejected)
  {
    ThreadKeeps(s, step, false);
  }

  lemma EnterRows(s: Runtime, step: FinalStep, recheck: bool, handled: bool, rejected: bool)
    requires Inv(s) && RowsOk(s, handled, rejected) && FinalEnabled(s, step) && (step.Enter? || step.CloseGate?)
    ensures RowsOk(NextFinal(s, step, recheck), handled, rejected)
  {
    StepKeeps(s, Finalize(step), recheck);
  }

  lemma StopRows(s: Runtime, step: FinalStep, recheck: bool, handled: bool, rejected: bool)
    requires Inv(s) && RowsOk(s, handled, rejected) && FinalEnabled(s, step) && step.Stop?
    ensures RowsOk(NextFinal(s, step, recheck), handled, rejected)
  {
    StepKeeps(s, Finalize(step), recheck);
  }

  lemma LeaveRows(s: Runtime, step: FinalStep, recheck: bool, handled: bool, rejected: bool)
    requires Inv(s) && RowsOk(s, handled, rejected) && FinalEnabled(s, step) && (step.Settle? || step.CheckLock? || step.LeaveLock?)
    ensures RowsOk(NextFinal(s, step, recheck), handled, rejected)
  {
    StepKeeps(s, Finalize(step), recheck);
  }

  lemma FinalizerRows(s: Runtime, step: FinalStep, recheck: bool, handled: bool, rejected: bool)
    requires Inv(s) && RowsOk(s, handled, rejected) && FinalEnabled(s, step)
    ensures RowsOk(NextFinal(s, step, recheck), handled, rejected)
  {
    if step.Enter? || step.CloseGate? {
      EnterRows(s, step, recheck, handled, rejected);
    } else if step.Stop? {
      StopRows(s, step, recheck, handled, rejected);
    } else {
      LeaveRows(s, step, recheck, handled, rejected);
    }
  }

  lemma ReleaseRows(s: Runtime, step: ReleaseStep, recheck: bool, handled: bool, rejected: bool)
    requires Inv(s) && RowsOk(s, handled, rejected) && ReleaseEnabled(s, step)
    ensures RowsOk(NextRelease(s, step, recheck), handled, rejected)
  {
    ReleaseKeeps(s, step, recheck);
    var s' := NextRelease(s, step, recheck);
    assert s'.row == s.row && s'.active == s.active && s'.finalKind == s.finalKind && s'.closing == s.closing;
  }

  lemma OutsideRows(s: Runtime, step: OutsideStep, handled: bool, rejected: bool)
    requires Inv(s) && RowsOk(s, handled, rejected) && OutsideEnabled(s, step)
    ensures RowsOk(NextOutside(s, step), handled, rejected)
  {
    OutsideKeeps(s, step, false);
  }

  lemma StepRows(s: Runtime, step: Step, recheck: bool, handled: bool, rejected: bool)
    requires Inv(s) && RowsOk(s, handled, rejected) && Enabled(s, step)
    ensures RowsOk(Next(s, step, recheck), handled || step == Coroutine(FailRow), rejected || step == Coroutine(Reject))
  {
    match step
    case Coroutine(r) => CoroutineRows(s, r, handled, rejected);
    case LaunchThread(t) => ThreadRows(s, t, handled, rejected);
    case Finalize(f) => FinalizerRows(s, f, recheck, handled, rejected);
    case Release(l) => ReleaseRows(s, l, recheck, handled, rejected);
    case Outside(o) => OutsideRows(s, o, handled, rejected);
  }

  lemma {:induction false} RunRows(s: Runtime, steps: seq<Step>, recheck: bool, handled: bool, rejected: bool)
    requires Inv(s) && RowsOk(s, handled, rejected) && CanRun(s, steps, recheck)
    ensures Inv(After(s, steps, recheck))
    ensures RowsOk(After(s, steps, recheck), handled || Coroutine(FailRow) in steps, rejected || Coroutine(Reject) in steps)
    decreases |steps|
  {
    if steps != [] {
      var step, rest := steps[0], steps[1..];
      assert forall x :: x in steps <==> x == step || x in rest;
      StepKeeps(s, step, recheck);
      StepRows(s, step, recheck, handled, rejected);
      RunRows(Next(s, step, recheck), rest, recheck, handled || step == Coroutine(FailRow), rejected || step == Coroutine(Reject));
    }
  }

  lemma ReachableRows(steps: seq<Step>, recheck: bool)
    requires CanRun(START, steps, recheck)
    ensures Inv(After(START, steps, recheck))
    ensures RowsOk(After(START, steps, recheck), Coroutine(FailRow) in steps, Coroutine(Reject) in steps)
  {
    StartInv();
    RunRows(START, steps, recheck, false, false);
  }

  /** Over every run: while a worker is alive the registry says running or recovery
    * required, or failed if the exception handler wrote that; so a canceled, completed
    * or rejected row has no live worker. */
  lemma LiveWorkerRow(steps: seq<Step>, recheck: bool)
    requires CanRun(START, steps, recheck) && After(START, steps, recheck).alive
    ensures LiveRow(After(START, steps, recheck).row, Coroutine(FailRow) in steps)
  {
    ReachableRows(steps, recheck);
  }

  /** A finalizer that was at work returns by this step. */
  predicate Returns(s: Runtime, step: Step, recheck: bool)
    requires Enabled(s, step)
  {
    s.active.Some? && Next(s, step, recheck).active.None?
  }

  /** How a finalizer returns.  With a stop that was not confirmed it returns recovery,
    * marks the row so and keeps the lock.  Otherwise it returns the kind it was asked
    * for, with no worker left, that kind in the row unless the coroutine wrote over it,
    * and the lock given back unless a probe still reports the worker's group. */
  lemma FinalizeReturns(steps: seq<Step>, step: Step, recheck: bool)
    requires CanRun(START, steps, recheck) && Enabled(After(START, steps, recheck), step)
    requires Returns(After(START, steps, recheck), step, recheck)
    ensures var s := After(START, steps, recheck);
            var s' := Next(s, step, recheck);
            && s'.finalized && s'.finalKind.Some? && s'.finalKind.value in s'.returned
            && (s'.finalKind == Some(Recovery) <==> step == Finalize(Stop(false)))
            && (s'.finalKind == Some(Recovery) ==>
                  s'.row == RowTerminal(Recovery) && s'.alive == s.alive && s'.lock == s.lock && s'.lockAcquired == s.lockAcquired)
            && (s'.finalKind != Some(Recovery) ==>
                  && s'.finalKind == Some(s.active.value.kind) && Quiet(s')
                  && SettledRow(s'.row, s.active.value.kind, Coroutine(FailRow) in steps, Coroutine(Reject) in steps)
                  && (s'.lockAcquired ==> s'.owned && step == Finalize(LeaveLock(true))))
  {
    var s := After(START, steps, recheck);
    ReachableRows(steps, recheck);
    StepKeeps(s, step, recheck);
    OnlyFinalizersReturn(s, step, recheck);
    EarlierStages(s, step.f, recheck);
    if step == Finalize(Stop(false)) {
      UnconfirmedReturns(s, recheck);
    } else {
      DefiniteReturns(s, step.f, recheck);
    }
  }

  lemma ReleaseActive(s: Runtime, step: ReleaseStep, recheck: bool)
    requires ReleaseEnabled(s, step)
    ensures NextRelease(s, step, recheck).active == s.active
  {
  }

  lemma OnlyFinalizersReturn(s: Runtime, step: Step, recheck: bool)
    requires Enabled(s, step)
    ensures !step.Finalize? ==> Next(s, step, recheck).active == s.active
  {
    match step
    case Coroutine(r) => CoroutineAlone(s, r);
    case LaunchThread(t) => ThreadAlone(s, t);
    case Finalize(f) =>
    case Release(l) => ReleaseActive(s, l, recheck);
    case Outside(o) => OutsideAlone(s, o);
  }

  lemma UnconfirmedReturns(s: Runtime, recheck: bool)
    requires FinalEnabled(s, Stop(false))
    ensures var s' := NextFinal(s, Stop(false), recheck);
            && s'.finalized && s'.finalKind == Some(Recovery) && Recovery in s'.returned
            && s'.row == RowTerminal(Recovery) && s'.alive == s.alive && s'.lock == s.lock && s'.lockAcquired == s.lockAcquired
  {
  }

  lemma DefiniteReturns(s: Runtime, step: FinalStep, recheck: bool)
    requires FinalEnabled(s, step) && (step.CheckLock? || step.LeaveLock?) && NextFinal(s, step, recheck).active.None?
    ensures var s', kind := NextFinal(s, step, recheck), s.active.value.kind;
            && (ActiveAt(s, Settled) || ActiveAt(s, Leaving))
            && s'.finalized && s'.finalKind == Some(kind) && kind in s'.returned && s'.row == s.row
            && (s'.lockAcquired ==> s'.owned && step == LeaveLock(true))
  {
  }

  lemma EarlierStages(s: Runtime, step: FinalStep, recheck: bool)
    requires FinalEnabled(s, step) && s.active.Some? && NextFinal(s, step, recheck).active.None?
    ensures step == Stop(false) || step.CheckLock? || step.LeaveLock?
  {
  }

  /** Whenever finalize answers recovery -- at once, or later to another caller -- the
    * row says so, unless the exception handler wrote failed over it. */
  lemma RecoveryIsMarked(steps: seq<Step>, recheck: bool)
    requires CanRun(START, steps, recheck) && After(START, steps, recheck).finalKind == Some(Recovery)
    ensures var row := After(START, steps, recheck).row;
            row == RowTerminal(Recovery) || (row == RowTerminal(Failed) && Coroutine(FailRow) in steps)
  {
    ReachableRows(steps, recheck);
  }

  /** The outcome under way is the one in the row, unless a finalizer wrote over it. */
  predicate OutcomeInRow(s: Runtime, over: bool) { s.run.Publishing? ==> s.row == RowTerminal(s.run.kind) || over }

  predicate FinalizerWrites(step: Step) { step == Finalize(Settle) || step == Finalize(Stop(false)) }

  lemma FinalizerOutcome(s: Runtime, step: FinalStep, recheck: bool)
    requires FinalEnabled(s, step)
    ensures NextFinal(s, step, recheck).run == s.run
    ensures step != Settle && step != Stop(false) ==> NextFinal(s, step, recheck).row == s.row
  {
    match step
    case Enter(_) =>
    case CloseGate =>
    case Stop(_) =>
    case Settle =>
    case CheckLock =>
    case LeaveLock(probed) =>
      var t := if s.owned && probed then s else Freed(s, recheck);
      assert t.run == s.run && t.row == s.row;
  }

  lemma CoroutineOutcome(s: Runtime, step: RunStep, over: bool)
    requires OutcomeInRow(s, over) && RunEnabled(s, step)
    ensures OutcomeInRow(NextRun(s, step), over)
  {
  }

  lemma ThreadOutcome(s: Runtime, step: ThreadStep, over: bool)
    requires Inv(s) && OutcomeInRow(s, over) && ThreadEnabled(s, step)
    ensures OutcomeInRow(NextThread(s, step), over)
  {
  }

  lemma OutsideOutcome(s: Runtime, step: OutsideStep)
    requires OutsideEnabled(s, step)
    ensures NextOutside(s, step).run == s.run && NextOutside(s, step).row == s.row
  {
    match step
    case WorkerDies =>
    case AcquireOther =>
    case ReleaseOther =>
  }

  lemma StepOutcome(s: Runtime, step: Step, recheck: bool, over: bool)
    requires Inv(s) && OutcomeInRow(s, over) && Enabled(s, step)
    ensures OutcomeInRow(Next(s, step, recheck), over || FinalizerWrites(step))
  {
    match step
    case Coroutine(r) => CoroutineOutcome(s, r, over);
    case LaunchThread(t) => ThreadOutcome(s, t, over);
    case Finalize(f) => FinalizerOutcome(s, f, recheck);
    case Release(l) => ReleaseActive(s, l, recheck);
    case Outside(o) => OutsideOutcome(s, o);
  }

  predicate SomeWrites(steps: seq<Step>) { exists i | 0 <= i < |steps| :: FinalizerWrites(steps[i]) }

  lemma SomeWritesTail(steps: seq<Step>)
    requires steps != []
    ensures SomeWrites(steps) <==> FinalizerWrites(steps[0]) || SomeWrites(steps[1..])
  {
    assert forall i | 1 <= i < |steps| :: steps[i] == steps[1..][i - 1];
    if SomeWrites(steps[1..]) {
      var i :| 0 <= i < |steps[1..]| && FinalizerWrites(steps[1..][i]);
      assert FinalizerWrites(steps[i + 1]);
    }
  }

  lemma {:induction false} RunOutcome(s: Runtime, steps: seq<Step>, recheck: bool, over: bool)
    requires Inv(s) && OutcomeInRow(s, over) && CanRun(s, steps, recheck)
    ensures OutcomeInRow(After(s, steps, recheck), over || SomeWrites(steps))
    decreases |steps|
  {
    if steps != [] {
      StepKeeps(s, steps[0], recheck);
      StepOutcome(s, steps[0], recheck, over);
      RunOutcome(Next(s, steps[0], recheck), steps[1..], recheck, over || FinalizerWrites(steps[0]));
      SomeWritesTail(steps);
    }
  }

  /** Over every run: the outcome that is published, and answered to later finalizers, is
    * the one in the row, unless a finalizer has written over it. */
  lemma PublishedOutcomeIsRow(steps: seq<Step>, recheck: bool)
    requires CanRun(START, steps, recheck) && Enabled(After(START, steps, recheck), Coroutine(Publish))
    ensures var s' := Next(After(START, steps, recheck), Coroutine(Publish), recheck);
            s'.finalized && s'.finalKind.Some? && (s'.row == RowTerminal(s'.finalKind.value) || SomeWrites(steps))
  {
    StartInv();
    RunOutcome(START, steps, recheck, false);
  }

  // ---- failing cases -----------------------------------------------------------

  lemma {:induction false} RunAppend(s: Runtime, a: seq<Step>, b: seq<Step>, recheck: bool)
    requires CanRun(s, a, recheck) && CanRun(After(s, a, recheck), b, recheck)
    ensures CanRun(s, a + b, recheck) && After(s, a + b, recheck) == After(After(s, a, recheck), b, recheck)
    decreases |a|
  {
    if a == [] {
      assert a + b == b;
    } else {
      assert (a + b)[1..] == a[1..] + b;
      RunAppend(Next(s, a[0], recheck), a[1..], b, recheck);
    }
  }

  lemma TwoSteps(s: Runtime, a: Step, b: Step, recheck: bool)
    requires Enabled(s, a) && Enabled(Next(s, a, recheck), b)
    ensures CanRun(s, [a, b], recheck) && After(s, [a, b], recheck) == Next(Next(s, a, recheck), b, recheck)
  {
    RunAppend(s, [a], [b], recheck);
    assert [a] + [b] == [a, b];
  }

  /** Two releases are past the first check and the gate. */
  const TWO_RELEASES := [Coroutine(Acquire), Coroutine(Abandon)] + [Release(Check(0)), Release(Check(1))]
                        + [Release(CloseFirst(0)), Release(CloseFirst(1))]

  /** The first frees the lock, another runtime takes it, and the second frees that. */
  const STALE_RELEASE := TWO_RELEASES + [Release(Act(0, false)), Outside(AcquireOther)] + [Release(Act(1, false))]

  lemma TwoReleases()
    ensures CanRun(START, TWO_RELEASES, false)
    ensures After(START, TWO_RELEASES, false)
            == START.(run := Ended, lockAcquired := true, lock := Mine, blocked := true, releasers := map[0 := true, 1 := true])
  {
    var s2 := START.(run := Ended, lockAcquired := true, lock := Mine);
    var s4 := s2.(releasers := map[0 := false, 1 := false]);
    TwoSteps(START, Coroutine(Acquire), Coroutine(Abandon), false);
    TwoSteps(s2, Release(Check(0)), Release(Check(1)), false);
    TwoSteps(s4, Release(CloseFirst(0)), Release(CloseFirst(1)), false);
    RunAppend(START, [Coroutine(Acquire), Coroutine(Abandon)], [Release(Check(0)), Release(Check(1))], false);
    RunAppend(START, [Coroutine(Acquire), Coroutine(Abandon)] + [Release(Check(0)), Release(Check(1))],
              [Release(CloseFirst(0)), Release(CloseFirst(1))], false);
  }

  /** As the code stands, without the second look, another runtime's lock can go. */
  lemma StaleReleaseSteals()
    ensures CanRun(START, STALE_RELEASE, false) && After(START, STALE_RELEASE, false).stolen
  {
    TwoReleases();
    var s6 := After(START, TWO_RELEASES, false);
    var s8 := s6.(lockAcquired := false, lock := Other, released := true, releasers := map[1 := true]);
    assert map[0 := true, 1 := true] - {0} == map[1 := true];
    TwoSteps(s6, Release(Act(0, false)), Outside(AcquireOther), false);
    RunAppend(START, TWO_RELEASES, [Release(Act(0, false)), Outside(AcquireOther)], false);
    RunAppend(START, TWO_RELEASES + [Release(Act(0, false)), Outside(AcquireOther)], [Release(Act(1, false))], false);
  }

  /** The worker is done and its result registered, but `_finalized` is not yet set. */
  const DELIVERED := [Coroutine(Acquire), Coroutine(StartThread)] + [LaunchThread(EnterGate), LaunchThread(Spawn)]
                     + [LaunchThread(Record), LaunchThread(LeaveGate(true))]
                     + [Outside(WorkerDies), Coroutine(Deliver(Completed))]

  const OVERWRITTEN := DELIVERED + [Finalize(Enter(Failed)), Finalize(CloseGate)]
                       + [Finalize(Stop(true)), Finalize(Settle)]

  lemma DeliveredRun(recheck: bool)
    ensures CanRun(START, DELIVERED, recheck)
    ensures After(START, DELIVERED, recheck)
            == START.(run := Publishing(Completed), thread := Gone, owned := true, lockAcquired := true,
                      lock := Mine, row := RowTerminal(Completed))
  {
    var s2 := START.(run := Launching, thread := Before, lockAcquired := true, lock := Mine);
    var s4 := s2.(thread := Spawned, alive := true);
    var s6 := s4.(thread := Gone, owned := true);
    var ab := [Coroutine(Acquire), Coroutine(StartThread)];
    var cd := [LaunchThread(EnterGate), LaunchThread(Spawn)];
    var ef := [LaunchThread(Record), LaunchThread(LeaveGate(true))];
    var gh := [Outside(WorkerDies), Coroutine(Deliver(Completed))];
    TwoSteps(START, ab[0], ab[1], recheck);
    TwoSteps(s2, cd[0], cd[1], recheck);
    TwoSteps(s4, ef[0], ef[1], recheck);
    TwoSteps(s6, gh[0], gh[1], recheck);
    RunAppend(START, ab, cd, recheck);
    RunAppend(START, ab + cd, ef, recheck);
    RunAppend(START, ab + cd + ef, gh, recheck);
  }

  /** A shutdown that arrives before the outcome is published overwrites a
    * COMPLETED row with FAILED. */
  lemma ShutdownOverwritesCompleted(recheck: bool)
    ensures CanRun(START, DELIVERED, recheck) && CanRun(START, OVERWRITTEN, recheck)
    ensures After(START, DELIVERED, recheck).row == RowTerminal(Completed)
    ensures After(START, OVERWRITTEN, recheck).row == RowTerminal(Failed)
  {
    DeliveredRun(recheck);
    var s := After(START, DELIVERED, recheck);
    var s2 := s.(closing := true, blocked := true, active := Some(Finalizer(Failed, GateClosed)));
    TwoSteps(s, Finalize(Enter(Failed)), Finalize(CloseGate), recheck);
    TwoSteps(s2, Finalize(Stop(true)), Finalize(Settle), recheck);
    RunAppend(START, DELIVERED, [Finalize(Enter(Failed)), Finalize(CloseGate)], recheck);
    RunAppend(START, DELIVERED + [Finalize(Enter(Failed)), Finalize(CloseGate)],
              [Finalize(Stop(true)), Finalize(Settle)], recheck);
  }
}
