/** Executor selection: execute, switch, queue and cancel processes interleaved under
  * service.lock and submit.lock.  Any of them may crash and leave its locks behind.
  */
module Selection {
  import opened Wrappers
  import opened Store

  datatype Choice = Choice(provider: string, model: string, effort: Option<string>)

  /** server.json, as far as the selection goes. */
  datatype Server = Server(choice: Choice, generation: nat)

  /** What an Agent Card advertises and a client verifies. */
  datatype Identity = Identity(provider: string, model: string, generation: nat)

  function IdentityOf(s: Server): Identity { Identity(s.choice.provider, s.choice.model, s.generation) }

  /** A queued request; every request is its own `id`. */
  datatype Request = Request(id: nat, choice: Choice)

  /** pending-selection.json */
  datatype Pending = Queued(request: Request) | FailedChange(request: Request) | Unreadable

  /** The run in outstanding.json and the identity its endpoint was verified to have. */
  datatype Run = Run(execution: Id, identity: Identity)

  /** Who asked for a switch: `handoff model`, or a queued request. */
  datatype Origin = Explicit(wanted: Choice) | FromQueue(request: Request)

  function Wanted(o: Origin): Choice { if o.Explicit? then o.wanted else o.request.choice }

  /** `_candidate_server` */
  function Candidate(s: Server, c: Choice): Server { Server(c, s.generation + 1) }

  /** Where a process stands; the comments say which locks it holds. */
  datatype Pc =
    | PassedGate                                       // none
    | Submitting | Verified(identity: Identity) | Reserved      // submit.lock
    | Wants(origin: Origin)                            // none
    | HasService(origin: Origin)                       // service.lock
    | HasBoth(origin: Origin)                          // both
    | Stopped(origin: Origin, previous: Server)        // both; the old service is stopped
    | Starting(origin: Origin, previous: Server)       // both; the candidate is written
    | Applied(origin: Origin) | Undone(origin: Origin) // both
    | MarkingFailed(request: Request)                  // none
    | Leaving(execute: bool)                           // both
    | Queueing(choice: Choice) | Canceling             // service.lock

  /** What became of server.json, in order; for a published switch also the process
    * and the number of queue requests so far. */
  datatype Event = Published(origin: Origin, previous: Server, server: Server, process: nat, queued: nat) | Restored(server: Server)

  datatype World = World(
    server: Server,
    pending: Option<Pending>,
    serviceLock: Option<nat>,
    submitLock: Option<nat>,
    outstanding: Option<Run>,
    busy: bool,                      // execute.lock, or an unresolved execution in the server
    running: Option<Server>,         // what the live service was started with
    pcs: map<nat, Pc>,
    dead: set<nat>,                  // crashed processes
    requests: seq<Choice>,           // every queue request so far, by id
    log: seq<Event>)

  predicate IsQueued(p: Option<Pending>) { p.Some? && p.value.Queued? }

  /** Nothing is in flight, as seen by a process that holds submit.lock. */
  predicate Quiescent(w: World) { w.outstanding.None? && !w.busy }

  /** The running service advertises the selected identity. */
  predicate ServiceVerified(w: World) { w.running.Some? && IdentityOf(w.running.value) == IdentityOf(w.server) }

  predicate IsIdle(w: World, p: nat) { p !in w.dead && p !in w.pcs }

  function Goto(w: World, p: nat, pc: Pc): World { w.(pcs := w.pcs[p := pc]) }

  /** The process ends, giving back its locks. */
  function Ended(w: World, p: nat): World {
    w.(pcs := w.pcs - {p},
       serviceLock := if w.serviceLock == Some(p) then None else w.serviceLock,
       submitLock := if w.submitLock == Some(p) then None else w.submitLock)
  }

  // ---- execute -------------------------------------------------------------------

  datatype ExecStep = Gate | TakeSubmit | Verify | Reserve(execution: Id) | Release

  predicate ExecEnabled(w: World, p: nat, step: ExecStep) {
    match step
    case Gate => IsIdle(w, p) && w.pending.None?
    case TakeSubmit => p in w.pcs && w.pcs[p].PassedGate? && w.submitLock.None?
    case Verify => p in w.pcs && w.pcs[p].Submitting? && w.outstanding.None? && ServiceVerified(w)
    case Reserve(_) => p in w.pcs && w.pcs[p].Verified?
    case Release => p in w.pcs && (w.pcs[p].Submitting? || w.pcs[p].Verified? || w.pcs[p].Reserved?)
  }

  function NextExec(w: World, p: nat, step: ExecStep): World
    requires ExecEnabled(w, p, step)
  {
    match step
    case Gate => Goto(w, p, PassedGate)
    case TakeSubmit => Goto(w.(submitLock := Some(p)), p, Submitting)
    case Verify => Goto(w, p, Verified(IdentityOf(w.running.value)))
    case Reserve(e) => Goto(w.(outstanding := Some(Run(e, w.pcs[p].identity))), p, Reserved)
    case Release => Ended(w, p)
  }

  // ---- switch, now or from the queue ------------------------------------------------

  datatype SwitchStep =
    | Ask(choice: Choice) | ReadQueue | Invalid
    | TakeService | TakeBoth | Refuse | Unverified
    | AlreadySelected | PublishStopped | StopService | PublishRestart | StartOk | StartFails(restarts: bool)
    | DropPending(execute: bool) | LeaveUndone | MarkFailed | Leave

  predicate QueueUnchanged(w: World, o: Origin) { o.FromQueue? ==> w.pending == Some(Queued(o.request)) }

  /** The checks of `apply_pending` and `switch_locked` under both locks. */
  predicate MaySwitch(w: World, o: Origin) {
    && QueueUnchanged(w, o) && Quiescent(w) && (w.running.None? || ServiceVerified(w))
    && (o.FromQueue? ==> w.server.choice != o.request.choice)
  }

  predicate SwitchEnabled(w: World, p: nat, step: SwitchStep) {
    if step.Ask? then IsIdle(w, p)
    else if step.ReadQueue? then IsIdle(w, p) && w.pending.Some? && w.pending.value.Queued?
    else
      p in w.pcs &&
      var pc := w.pcs[p];
      match step
      case Invalid => pc.Wants? && pc.origin.FromQueue?
      case TakeService => pc.Wants? && w.serviceLock.None?
      case TakeBoth => pc.HasService? && w.submitLock.None?
      case Refuse => pc.HasService? || pc.HasBoth?
      case Unverified => pc.HasBoth? && w.running.Some? && !ServiceVerified(w)
      case AlreadySelected =>
        pc.HasBoth? && pc.origin.FromQueue? && QueueUnchanged(w, pc.origin) && w.server.choice == pc.origin.request.choice
      case PublishStopped => pc.HasBoth? && MaySwitch(w, pc.origin) && w.running.None?
      case StopService => pc.HasBoth? && MaySwitch(w, pc.origin) && w.running.Some?
      case PublishRestart => pc.Stopped?
      case StartOk => pc.Starting?
      case StartFails(_) => pc.Starting?
      case DropPending(_) => pc.Applied?
      case LeaveUndone => pc.Undone?
      case MarkFailed => pc.MarkingFailed?
      case Leave => pc.Leaving?
      case _ => false
  }

  function Publish(w: World, p: nat, o: Origin): World {
    var s := Candidate(w.server, Wanted(o));
    w.(server := s, log := w.log + [Published(o, w.server, s, p, |w.requests|)])
  }

  function NextSwitch(w: World, p: nat, step: SwitchStep): World
    requires SwitchEnabled(w, p, step)
  {
    match step
    case Ask(c) => Goto(w, p, Wants(Explicit(c)))
    case ReadQueue => Goto(w, p, Wants(FromQueue(w.pending.value.request)))
    // The plan constraint or the model check refuses it.
    case Invalid => Goto(w, p, MarkingFailed(w.pcs[p].origin.request))
    case TakeService => Goto(w.(serviceLock := Some(p)), p, HasService(w.pcs[p].origin))
    case TakeBoth => Goto(w.(submitLock := Some(p)), p, HasBoth(w.pcs[p].origin))
    case Refuse => Ended(w, p)
    case Unverified => Goto(w, p, Undone(w.pcs[p].origin))
    case AlreadySelected => Goto(w, p, Applied(w.pcs[p].origin))
    case PublishStopped => Goto(Publish(w, p, w.pcs[p].origin), p, Applied(w.pcs[p].origin))
    case StopService => Goto(w.(running := None), p, Stopped(w.pcs[p].origin, w.server))
    case PublishRestart =>
      Goto(Publish(w, p, w.pcs[p].origin), p, Starting(w.pcs[p].origin, w.pcs[p].previous))
    case StartOk => Goto(w.(running := Some(w.server)), p, Applied(w.pcs[p].origin))
    // The old selection is put back, and its service started again if that works.
    case StartFails(restarts) =>
      var previous := w.pcs[p].previous;
      Goto(w.(server := previous, running := if restarts then Some(previous) else None, log := w.log + [Restored(previous)]), p, Undone(w.pcs[p].origin))
    case DropPending(execute) => Goto(w.(pending := None), p, Leaving(execute))
    // The failed change is written down after both locks are released.
    case LeaveUndone =>
      var o := w.pcs[p].origin;
      if o.FromQueue? then Goto(Ended(w, p), p, MarkingFailed(o.request)) else Ended(w, p)
    case MarkFailed => Ended(w.(pending := Some(FailedChange(w.pcs[p].request))), p)
    case Leave => if w.pcs[p].execute then Goto(Ended(w, p), p, PassedGate) else Ended(w, p)
  }

  // ---- queue, cancel, and the rest ------------------------------------------------------

  datatype QueueStep = BeginQueue(choice: Choice) | WriteQueue | BeginCancel | RemovePending

  predicate QueueEnabled(w: World, p: nat, step: QueueStep) {
    match step
    case BeginQueue(_) => IsIdle(w, p) && w.serviceLock.None?
    case WriteQueue => p in w.pcs && w.pcs[p].Queueing?
    case BeginCancel => IsIdle(w, p) && w.serviceLock.None?
    case RemovePending => p in w.pcs && w.pcs[p].Canceling?
  }

  function NextQueue(w: World, p: nat, step: QueueStep): World
    requires QueueEnabled(w, p, step)
  {
    match step
    case BeginQueue(c) => Goto(w.(serviceLock := Some(p)), p, Queueing(c))
    case WriteQueue =>
      var c := w.pcs[p].choice;
      Ended(w.(pending := Some(Queued(Request(|w.requests|, c))), requests := w.requests + [c]), p)
    case BeginCancel => Goto(w.(serviceLock := Some(p)), p, Canceling)
    case RemovePending => Ended(w.(pending := None), p)
  }

  /** Crashes leave the locks; a human removes a lock whose holder is gone.
    * A reconciliation clears the outstanding run without either lock. */
  datatype OutsideStep =
    | Crash(p: nat) | ClearService | ClearSubmit
    | Reconciled | SetBusy(busy: bool) | ServiceStarts | ServiceDies | PendingDamaged

  predicate OutsideEnabled(w: World, step: OutsideStep) {
    match step
    case Crash(p) => p in w.pcs
    case ClearService => w.serviceLock.Some? && w.serviceLock.value in w.dead
    case ClearSubmit => w.submitLock.Some? && w.submitLock.value in w.dead
    case ServiceStarts => w.serviceLock.None? && w.running.None?
    case _ => true
  }

  function NextOutside(w: World, step: OutsideStep): World {
    match step
    case Crash(p) => w.(pcs := w.pcs - {p}, dead := w.dead + {p})
    case ClearService => w.(serviceLock := None)
    case ClearSubmit => w.(submitLock := None)
    case Reconciled => w.(outstanding := None)
    case SetBusy(busy) => w.(busy := busy)
    case ServiceStarts => w.(running := Some(w.server))
    case ServiceDies => w.(running := None)
    case PendingDamaged => w.(pending := Some(Unreadable))
  }

  datatype Step =
    | Execute(p: nat, e: ExecStep)
    | Switch(p: nat, s: SwitchStep)
    | Queue(p: nat, q: QueueStep)
    | Outside(o: OutsideStep)

  predicate Enabled(w: World, step: Step) {
    match step
    case Execute(p, e) => ExecEnabled(w, p, e)
    case Switch(p, s) => SwitchEnabled(w, p, s)
    case Queue(p, q) => QueueEnabled(w, p, q)
    case Outside(o) => OutsideEnabled(w, o)
  }

  function Next(w: World, step: Step): World
    requires Enabled(w, step)
  {
    match step
    case Execute(p, e) => NextExec(w, p, e)
    case Switch(p, s) => NextSwitch(w, p, s)
    case Queue(p, q) => NextQueue(w, p, q)
    case Outside(o) => NextOutside(w, o)
  }

  // ---- what every step keeps --------------------------------------------------------------

  predicate NeedsService(pc: Pc) {
    pc.HasService? || pc.HasBoth? || pc.Stopped? || pc.Starting? || pc.Applied? || pc.Undone? || pc.Leaving?
    || pc.Queueing? || pc.Canceling?
  }

  predicate NeedsSubmit(pc: Pc) {
    pc.Submitting? || pc.Verified? || pc.Reserved?
    || pc.HasBoth? || pc.Stopped? || pc.Starting? || pc.Applied? || pc.Undone? || pc.Leaving?
  }

  /** A request is the one made under its id. */
  predicate Genuine(w: World, r: Request) { r.id < |w.requests| && w.requests[r.id] == r.choice }

  predicate OriginOk(w: World, o: Origin) { o.FromQueue? ==> Genuine(w, o.request) }

  predicate PcOk(w: World, p: nat) {
    p in w.pcs ==>
      var pc := w.pcs[p];
      && p !in w.dead
      && (NeedsService(pc) ==> w.serviceLock == Some(p))
      && (NeedsSubmit(pc) ==> w.submitLock == Some(p))
      && (pc.Verified? ==> w.outstanding.None? && pc.identity == IdentityOf(w.server))
      && (pc.Wants? || pc.HasService? || pc.HasBoth? || pc.Applied? || pc.Undone? ==> OriginOk(w, pc.origin))
      && (pc.MarkingFailed? ==> Genuine(w, pc.request))
      && (pc.Stopped? ==>
            && OriginOk(w, pc.origin) && w.outstanding.None? && w.server == pc.previous
            && (pc.origin.FromQueue? ==> w.server.choice != pc.origin.request.choice))
      && (pc.Starting? ==>
            && OriginOk(w, pc.origin) && w.outstanding.None?
            && |w.log| > 0 && w.log[|w.log| - 1].Published? && w.log[|w.log| - 1].previous == pc.previous
            && w.log[|w.log| - 1].origin == pc.origin)
  }

  /** server.json before the `k`-th event. */
  function ServerAt(initial: Server, log: seq<Event>, k: nat): Server
    requires k <= |log|
  {
    if k == 0 then initial else log[k - 1].server
  }

  /** A switch raises the generation by one; a failed one is undone exactly; and a
    * queued request is not published twice in a row. */
  predicate EventOk(w: World, initial: Server, k: nat)
    requires k < |w.log|
  {
    match w.log[k]
    case Published(o, previous, s, _, _) =>
      && previous == ServerAt(initial, w.log, k) && s == Candidate(previous, Wanted(o)) && OriginOk(w, o)
      && (k > 0 && o.FromQueue? && w.log[k - 1].Published? && w.log[k - 1].origin.FromQueue? ==>
            w.log[k - 1].origin.request.id != o.request.id)
    case Restored(s) => k > 0 && w.log[k - 1].Published? && s == w.log[k - 1].previous
  }

  ghost predicate SharedOk(w: World, initial: Server) {
    && (w.outstanding.Some? ==> w.outstanding.value.identity == IdentityOf(w.server))
    && (w.pending.Some? && !w.pending.value.Unreadable? ==> Genuine(w, w.pending.value.request))
    && w.server == ServerAt(initial, w.log, |w.log|)
    && (forall k: nat | k < |w.log| :: EventOk(w, initial, k))
  }

  ghost predicate Inv(w: World, initial: Server) { SharedOk(w, initial) && forall p: nat :: PcOk(w, p) }

  /** What the rest of a step's proof needs: the invariant, and that a reserved
    * run's server.json is left alone. */
  ghost predicate Keeps(w: World, w': World, initial: Server) {
    && Inv(w', initial)
    && (w.outstanding.Some? ==> w'.server == w.server && w'.log == w.log)
  }

  lemma EventsStay(w: World, w': World, initial: Server)
    requires SharedOk(w, initial) && w'.log == w.log && w.requests <= w'.requests
    ensures forall k: nat | k < |w'.log| :: EventOk(w', initial, k)
  {
    forall k: nat | k < |w'.log| ensures EventOk(w', initial, k) { assert EventOk(w, initial, k); }
  }

  lemma ExecKeeps(w: World, p: nat, step: ExecStep, initial: Server)
    requires Inv(w, initial) && ExecEnabled(w, p, step)
    ensures Keeps(w, NextExec(w, p, step), initial)
  {
    var w' := NextExec(w, p, step);
    assert PcOk(w, p);
    forall x: nat ensures PcOk(w', x) { assert PcOk(w, x); }
    EventsStay(w, w', initial);
  }

  lemma QueueKeeps(w: World, p: nat, step: QueueStep, initial: Server)
    requires Inv(w, initial) && QueueEnabled(w, p, step)
    ensures Keeps(w, NextQueue(w, p, step), initial)
  {
    var w' := NextQueue(w, p, step);
    assert PcOk(w, p);
    forall x: nat ensures PcOk(w', x) { assert PcOk(w, x); }
    EventsStay(w, w', initial);
  }

  lemma OutsideKeeps(w: World, step: OutsideStep, initial: Server)
    requires Inv(w, initial) && OutsideEnabled(w, step)
    ensures Keeps(w, NextOutside(w, step), initial)
  {
    var w' := NextOutside(w, step);
    forall x: nat ensures PcOk(w', x) { assert PcOk(w, x); }
    EventsStay(w, w', initial);
  }

  predicate WritesServer(step: SwitchStep) { step.PublishStopped? || step.PublishRestart? || step.StartFails? }

  /** The steps up to the decision to switch. */
  predicate Asks(step: SwitchStep) {
    step.Ask? || step.ReadQueue? || step.Invalid? || step.TakeService? || step.TakeBoth? || step.Refuse?
  }

  lemma AskKeeps(w: World, p: nat, step: SwitchStep, initial: Server)
    requires Inv(w, initial) && SwitchEnabled(w, p, step) && Asks(step)
    ensures Keeps(w, NextSwitch(w, p, step), initial)
  {
    var w' := NextSwitch(w, p, step);
    assert PcOk(w, p);
    forall x: nat ensures PcOk(w', x) { assert PcOk(w, x); }
    EventsStay(w, w', initial);
  }

  predicate WritesPending(step: SwitchStep) { step.DropPending? || step.MarkFailed? }

  lemma PendingKeeps(w: World, p: nat, step: SwitchStep, initial: Server)
    requires Inv(w, initial) && SwitchEnabled(w, p, step) && WritesPending(step)
    ensures Keeps(w, NextSwitch(w, p, step), initial)
  {
    var w' := NextSwitch(w, p, step);
    assert PcOk(w, p);
    forall x: nat ensures PcOk(w', x) { assert PcOk(w, x); }
    EventsStay(w, w', initial);
  }

  lemma LeaveKeeps(w: World, p: nat, step: SwitchStep, initial: Server)
    requires Inv(w, initial) && SwitchEnabled(w, p, step) && (step.LeaveUndone? || step.Leave?)
    ensures Keeps(w, NextSwitch(w, p, step), initial)
  {
    var w' := NextSwitch(w, p, step);
    assert PcOk(w, p);
    forall x: nat ensures PcOk(w', x) { assert PcOk(w, x); }
    EventsStay(w, w', initial);
  }

  lemma SwitchKeeps(w: World, p: nat, step: SwitchStep, initial: Server)
    requires Inv(w, initial) && SwitchEnabled(w, p, step) && !WritesServer(step) && !Asks(step)
    requires !WritesPending(step) && !step.LeaveUndone? && !step.Leave?
    ensures Keeps(w, NextSwitch(w, p, step), initial)
  {
    var w' := NextSwitch(w, p, step);
    assert PcOk(w, p);
    forall x: nat ensures PcOk(w', x) { assert PcOk(w, x); }
    EventsStay(w, w', initial);
  }

  lemma PublishKeeps(w: World, p: nat, step: SwitchStep, initial: Server)
    requires Inv(w, initial) && SwitchEnabled(w, p, step) && (step.PublishStopped? || step.PublishRestart?)
    ensures Keeps(w, NextSwitch(w, p, step), initial)
  {
    var w' := NextSwitch(w, p, step);
    assert PcOk(w, p);
    forall x: nat ensures PcOk(w', x) { assert PcOk(w, x); }
    forall k: nat | k < |w'.log| ensures EventOk(w', initial, k) {
      if k < |w.log| { assert EventOk(w, initial, k); }
      if k == |w.log| && k > 0 { assert EventOk(w, initial, k - 1); }
    }
  }

  lemma RestoreKeeps(w: World, p: nat, restarts: bool, initial: Server)
    requires Inv(w, initial) && SwitchEnabled(w, p, StartFails(restarts))
    ensures Keeps(w, NextSwitch(w, p, StartFails(restarts)), initial)
  {
    var w' := NextSwitch(w, p, StartFails(restarts));
    assert PcOk(w, p);
    forall x: nat ensures PcOk(w', x) { assert PcOk(w, x); }
    assert EventOk(w, initial, |w.log| - 1);
    forall k: nat | k < |w'.log| ensures EventOk(w', initial, k) {
      if k < |w.log| { assert EventOk(w, initial, k); }
    }
  }

  lemma StepKeeps(w: World, step: Step, initial: Server)
    requires Inv(w, initial) && Enabled(w, step)
    ensures Keeps(w, Next(w, step), initial)
  {
    match step
    case Execute(p, e) => ExecKeeps(w, p, e, initial);
    case Switch(p, s) =>
      if s.StartFails? {
        RestoreKeeps(w, p, s.restarts, initial);
      } else if WritesServer(s) {
        PublishKeeps(w, p, s, initial);
      } else if Asks(s) {
        AskKeeps(w, p, s, initial);
      } else if WritesPending(s) {
        PendingKeeps(w, p, s, initial);
      } else if s.LeaveUndone? || s.Leave? {
        LeaveKeeps(w, p, s, initial);
      } else {
        SwitchKeeps(w, p, s, initial);
      }
    case Queue(p, q) => QueueKeeps(w, p, q, initial);
    case Outside(o) => OutsideKeeps(w, o, initial);
  }

  // ---- runs ---------------------------------------------------------------------------------

  predicate CanRun(w: World, steps: seq<Step>)
    decreases |steps|
  {
    steps == [] || (Enabled(w, steps[0]) && CanRun(Next(w, steps[0]), steps[1..]))
  }

  function After(w: World, steps: seq<Step>): World
    requires CanRun(w, steps)
    decreases |steps|
  {
    if steps == [] then w else After(Next(w, steps[0]), steps[1..])
  }

  /** No process yet, no lock, no run and nothing queued. */
  function Start(server: Server): World { World(server, None, None, None, None, false, None, map[], {}, [], []) }

  lemma {:induction false} RunKeeps(w: World, steps: seq<Step>, initial: Server)
    requires Inv(w, initial) && CanRun(w, steps)
    ensures Inv(After(w, steps), initial)
    decreases |steps|
  {
    if steps != [] {
      StepKeeps(w, steps[0], initial);
      RunKeeps(Next(w, steps[0]), steps[1..], initial);
    }
  }

  /** The run stays outstanding through these steps. */
  predicate Throughout(w: World, steps: seq<Step>, r: Run)
    requires CanRun(w, steps)
    decreases |steps|
  {
    w.outstanding == Some(r) && (steps == [] || Throughout(Next(w, steps[0]), steps[1..], r))
  }

  /** From the moment a run is saved until it is reconciled, whatever executes,
    * switches, queues, cancels and crashes interleave: server.json does not change,
    * and it has the identity that was verified for the run. */
  lemma {:induction false} RunKeepsItsServer(w: World, steps: seq<Step>, initial: Server, r: Run)
    requires Inv(w, initial) && CanRun(w, steps) && Throughout(w, steps, r)
    ensures After(w, steps).server == w.server && IdentityOf(w.server) == r.identity
    decreases |steps|
  {
    if steps != [] {
      StepKeeps(w, steps[0], initial);
      RunKeepsItsServer(Next(w, steps[0]), steps[1..], initial, r);
    }
  }

  lemma ReachableRun(server: Server, steps: seq<Step>, more: seq<Step>, r: Run)
    requires CanRun(Start(server), steps) && CanRun(After(Start(server), steps), more)
    requires Throughout(After(Start(server), steps), more, r)
    ensures After(After(Start(server), steps), more).server == After(Start(server), steps).server
    ensures IdentityOf(After(Start(server), steps).server) == r.identity
  {
    RunKeeps(Start(server), steps, server);
    RunKeepsItsServer(After(Start(server), steps), more, server, r);
  }

  /** The `k`-th event publishes a queued request. */
  predicate FromQueueAt(log: seq<Event>, k: nat)
    requires k < |log|
  {
    log[k].Published? && log[k].origin.FromQueue?
  }

  /** The whole history of server.json: every published switch raises the generation
    * by one from what was there, every failed start puts back exactly what was there
    * before it, and a queued request published once is not published again until
    * something else has been -- a replay after a crash only removes the file. */
  lemma ServerHistory(server: Server, steps: seq<Step>, k: nat)
    requires CanRun(Start(server), steps) && k < |After(Start(server), steps).log|
    ensures var log := After(Start(server), steps).log;
            && (log[k].Published? ==>
                  && log[k].previous == ServerAt(server, log, k)
                  && log[k].server == Server(Wanted(log[k].origin), ServerAt(server, log, k).generation + 1))
            && (log[k].Restored? ==> k > 0 && log[k].server == ServerAt(server, log, k - 1))
            && (k > 0 && FromQueueAt(log, k) && FromQueueAt(log, k - 1) ==>
                  log[k - 1].origin.request.id != log[k].origin.request.id)
    ensures After(Start(server), steps).server == ServerAt(server, After(Start(server), steps).log, |After(Start(server), steps).log|)
  {
    var w := After(Start(server), steps);
    RunKeeps(Start(server), steps, server);
    assert EventOk(w, server, k);
    if k > 0 {
      assert EventOk(w, server, k - 1);
    }
  }

  // ---- the switch as it runs ---------------------------------------------------------

  datatype SwitchOutcome = Switched | Busy | CannotVerify | CannotStop | StartFailed

  datatype ApplyOutcome = NothingQueued | AppliedNow | Deferred | QueueFailed | Damaged | ServiceStuck

  /** What the caller of a switch finds: whether anything is unresolved, and whether
    * stopping the old service, starting the new one and, if that fails, starting the
    * old one again work. */
  datatype Luck = Luck(unresolved: bool, stops: bool, starts: bool, restarts: bool)

  /** The service is stopped, or advertises what server.json selects. */
  predicate ServiceFits(server: Server, running: Option<Server>) {
    running.Some? ==>
      && running.value.choice.provider == server.choice.provider && running.value.choice.model == server.choice.model
      && running.value.generation == server.generation
  }

  /** A switch that finds the service like this goes through. */
  predicate GoesThrough(server: Server, running: Option<Server>, luck: Luck) {
    !luck.unresolved && ServiceFits(server, running) && (running.Some? ==> luck.stops && luck.starts)
  }

  /** server.json and pending-selection.json, for a process that holds both locks
    * whenever it writes server.json. */
  class ManagedFiles {
    var server: Server
    var pending: Option<Pending>
    var running: Option<Server>

    constructor (server: Server)
      ensures this.server == server && pending == None && running == None
    {
      this.server, pending, running := server, None, None;
    }

    /** `switch_locked`: server.json is the candidate, or exactly what it was. */
    method SwitchLocked(wanted: Choice, luck: Luck) returns (outcome: SwitchOutcome)
      modifies `server, `running
      ensures server == if outcome == Switched then Server(wanted, old(server).generation + 1) else old(server)
      ensures outcome == Switched <==> GoesThrough(old(server), old(running), luck)
      ensures outcome == Busy <==> luck.unresolved
      ensures outcome == CannotVerify <==> !luck.unresolved && !ServiceFits(old(server), old(running))
      ensures outcome == CannotStop <==>
                !luck.unresolved && ServiceFits(old(server), old(running)) && old(running).Some? && !luck.stops
      ensures running == match outcome
                         case Switched => if old(running).Some? then Some(server) else None
                         case StartFailed => if luck.restarts then Some(old(server)) else None
                         case _ => old(running)
    {
      if luck.unresolved {
        return Busy;
      }
      if running.Some? && IdentityOf(running.value) != IdentityOf(server) {
        return CannotVerify;
      }
      var previous := server;
      if running.None? {
        server := Candidate(previous, wanted);
        return Switched;
      }
      if !luck.stops {
        return CannotStop;
      }
      running := None;
      server := Candidate(previous, wanted);
      if !luck.starts {
        server := previous;
        if luck.restarts {
          running := Some(server);
        }
        return StartFailed;
      }
      running := Some(server);
      return Switched;
    }

    /** `apply_pending`, run alone.  It looks for unresolved work before it takes the
      * locks and, when it switches, again under them.  Every outcome has its exact
      * condition: in particular a queued request is applied if and only if nothing is
      * unresolved, it is valid, and it is selected already or the switch goes through. */
    method ApplyPending(valid: bool, unresolved: bool, luck: Luck) returns (outcome: ApplyOutcome)
      modifies this
      ensures outcome == NothingQueued <==> old(pending).None?
      ensures outcome == Damaged <==> old(pending) == Some(Unreadable)
      ensures outcome == AppliedNow <==>
                && IsQueued(old(pending)) && !unresolved && valid
                && (old(server).choice == old(pending).value.request.choice || GoesThrough(old(server), old(running), luck))
      ensures outcome == Deferred <==>
                && IsQueued(old(pending))
                && (unresolved || (valid && old(server).choice != old(pending).value.request.choice && luck.unresolved))
      ensures outcome == ServiceStuck <==>
                && IsQueued(old(pending)) && !unresolved && valid && old(server).choice != old(pending).value.request.choice
                && !luck.unresolved && ServiceFits(old(server), old(running)) && old(running).Some? && !luck.stops
      ensures pending == match outcome
                         case AppliedNow => None
                         case QueueFailed => Some(FailedChange(old(pending).value.request))
                         case _ => old(pending)
      ensures server == if outcome == AppliedNow && old(server).choice != old(pending).value.request.choice
                        then Server(old(pending).value.request.choice, old(server).generation + 1) else old(server)
      ensures outcome == AppliedNow ==> server.choice == old(pending).value.request.choice
    {
      if pending.None? {
        return NothingQueued;
      }
      if pending.value.Unreadable? {
        return Damaged;
      }
      if pending.value.FailedChange? {
        return QueueFailed;
      }
      if unresolved {
        return Deferred;
      }
      var request := pending.value.request;
      if !valid {
        pending := Some(FailedChange(request));
        return QueueFailed;
      }
      if server.choice != request.choice {
        var switched := SwitchLocked(request.choice, luck);
        match switched {
          case Busy => return Deferred;
          case CannotVerify =>
            pending := Some(FailedChange(request));
            return QueueFailed;
          case StartFailed =>
            pending := Some(FailedChange(request));
            return QueueFailed;
          case CannotStop => return ServiceStuck;
          case Switched =>
        }
      }
      pending := None;
      return AppliedNow;
    }
  }

  // ---- a failing case ------------------------------------------------------------------

  lemma {:induction false} RunAppend(w: World, a: seq<Step>, b: seq<Step>)
    requires CanRun(w, a) && CanRun(After(w, a), b)
    ensures CanRun(w, a + b) && After(w, a + b) == After(After(w, a), b)
    decreases |a|
  {
    if a == [] {
      assert a + b == b;
    } else {
      assert (a + b)[1..] == a[1..] + b;
      RunAppend(Next(w, a[0]), a[1..], b);
    }
  }

  lemma TwoSteps(w: World, a: Step, b: Step)
    requires Enabled(w, a) && Enabled(Next(w, a), b)
    ensures CanRun(w, [a, b]) && After(w, [a, b]) == Next(Next(w, a), b)
  {
    RunAppend(w, [a], [b]);
    assert [a] + [b] == [a, b];
  }

  /** Process 0 queues `first`, and 1 picks it up and finds it invalid. */
  function Invalidated(first: Choice): seq<Step> {
    [Queue(0, BeginQueue(first)), Queue(0, WriteQueue)] + [Switch(1, ReadQueue), Switch(1, Invalid)]
  }

  /** Then 2 queues `second`, and 1 writes down, without a lock, that `first` failed. */
  function LateMark(first: Choice, second: Choice): seq<Step> {
    Invalidated(first) + [Queue(2, BeginQueue(second)), Queue(2, WriteQueue)] + [Switch(1, MarkFailed)]
  }

  lemma InvalidatedRun(server: Server, first: Choice)
    ensures CanRun(Start(server), Invalidated(first))
    ensures After(Start(server), Invalidated(first))
            == Start(server).(pending := Some(Queued(Request(0, first))), requests := [first],
                              pcs := map[1 := MarkingFailed(Request(0, first))])
  {
    var w0 := Start(server);
    var w2 := w0.(pending := Some(Queued(Request(0, first))), requests := [first]);
    QueueRun(w0, 0, first);
    assert w0.requests + [first] == [first];
    TwoSteps(w2, Switch(1, ReadQueue), Switch(1, Invalid));
    RunAppend(w0, [Queue(0, BeginQueue(first)), Queue(0, WriteQueue)], [Switch(1, ReadQueue), Switch(1, Invalid)]);
  }

  /** The request queued in between is lost. */
  lemma LateMarkLosesRequest(server: Server, first: Choice, second: Choice)
    ensures CanRun(Start(server), LateMark(first, second))
    ensures var w := After(Start(server), LateMark(first, second));
            w.requests == [first, second] && w.pending == Some(FailedChange(Request(0, first)))
  {
    InvalidatedRun(server, first);
    var w4 := After(Start(server), Invalidated(first));
    var queued := [Queue(2, BeginQueue(second)), Queue(2, WriteQueue)];
    QueueRun(w4, 2, second);
    var w6 := After(w4, queued);
    assert w6.pcs == w4.pcs && w6.requests == [first, second];
    RunAppend(Start(server), Invalidated(first), queued);
    RunAppend(Start(server), Invalidated(first) + queued, [Switch(1, MarkFailed)]);
  }

  lemma QueueRun(w: World, p: nat, c: Choice)
    requires IsIdle(w, p) && w.serviceLock.None? && w.submitLock.None?
    ensures CanRun(w, [Queue(p, BeginQueue(c)), Queue(p, WriteQueue)])
    ensures After(w, [Queue(p, BeginQueue(c)), Queue(p, WriteQueue)])
            == w.(pending := Some(Queued(Request(|w.requests|, c))), requests := w.requests + [c])
  {
    var held := w.(serviceLock := Some(p), pcs := w.pcs[p := Queueing(c)]);
    TwoSteps(w, Queue(p, BeginQueue(c)), Queue(p, WriteQueue));
    assert held.pcs - {p} == w.pcs;
  }
}
