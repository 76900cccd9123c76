/** What becomes of queued executor selections over whole runs: when one takes
  * effect twice, and when one is lost.
  */
module QueueHistory {
  import opened Wrappers
  import opened Store
  import opened Selection

  /** A published switch whose service did not fail to start. */
  predicate TakesEffect(log: seq<Event>, k: nat) {
    k < |log| && log[k].Published? && (k + 1 < |log| ==> log[k + 1].Published?)
  }

  /** The `k`-th event publishes the queued request with this id. */
  predicate Publishes(log: seq<Event>, k: nat, id: nat) {
    k < |log| && log[k].Published? && log[k].origin.FromQueue? && log[k].origin.request.id == id
  }

  /** The newest queue request. */
  predicate Newest(w: World, id: nat) { id + 1 == |w.requests| }

  /** A process that has published and not yet removed the pending file. */
  predicate Working(pc: Pc) { pc.Starting? || pc.Applied? }

  // ---- what every step keeps ----------------------------------------------------

  predicate HolderOk(w: World, p: nat) {
    p in w.pcs && (w.pcs[p].Stopped? || Working(w.pcs[p])) && w.pcs[p].origin.FromQueue? ==>
      Newest(w, w.pcs[p].origin.request.id)
  }

  predicate EventOfQueue(w: World, k: nat) {
    k < |w.log| && w.log[k].Published? ==>
      w.log[k].queued <= |w.requests| && (w.log[k].origin.FromQueue? ==> w.log[k].origin.request.id + 1 == w.log[k].queued)
  }

  predicate InOrder(w: World, k: nat, l: nat) {
    k < l < |w.log| && w.log[k].Published? && w.log[l].Published? ==> w.log[k].queued <= w.log[l].queued
  }

  /** If the request that was queued when event `k` took effect still is, then the
    * process behind the event crashed, or is still at it. */
  predicate LeftOk(w: World, k: nat) {
    TakesEffect(w.log, k) && IsQueued(w.pending) && w.log[k].queued == |w.requests| ==>
      || w.log[k].process in w.dead
      || (k == |w.log| - 1 && w.log[k].process in w.pcs && Working(w.pcs[w.log[k].process]))
  }

  /** Between events `i` and `j` an explicit switch took effect whose process crashed. */
  predicate CrashedSwitch(w: World, i: nat, k: nat, j: nat) {
    && i < k < j <= |w.log| && TakesEffect(w.log, k)
    && w.log[k].origin.Explicit? && w.log[k].process in w.dead
  }

  /** What it takes for the request of event `i` to be published again at `j`. */
  ghost predicate Replayed(w: World, i: nat, j: nat) {
    i < |w.log| && w.log[i].Published? && w.log[i].process in w.dead && exists k :: CrashedSwitch(w, i, k, j)
  }

  ghost predicate MayRepeat(w: World, id: nat) {
    forall i | Publishes(w.log, i, id) && TakesEffect(w.log, i) :: Replayed(w, i, |w.log|)
  }

  ghost predicate StoppedOk(w: World, p: nat) {
    p in w.pcs && w.pcs[p].Stopped? && w.pcs[p].origin.FromQueue? ==> MayRepeat(w, w.pcs[p].origin.request.id)
  }

  ghost predicate RepeatOk(w: World, i: nat, j: nat) {
    i < j < |w.log| && TakesEffect(w.log, i) && w.log[i].origin.FromQueue? && Publishes(w.log, j, w.log[i].origin.request.id) ==>
      Replayed(w, i, j)
  }

  ghost predicate History(w: World) {
    && (IsQueued(w.pending) ==> Newest(w, w.pending.value.request.id))
    && (forall p: nat :: HolderOk(w, p)) && (forall p: nat :: StoppedOk(w, p))
    && (forall k: nat :: EventOfQueue(w, k)) && (forall k: nat :: LeftOk(w, k))
    && (forall k: nat, l: nat :: InOrder(w, k, l))
    && (forall i: nat, j: nat :: RepeatOk(w, i, j))
  }

  // ---- a replay needs a crashed switch in between -----------------------------------

  /** Server.json has another choice after `n` events than after event `i`: an event
    * in between took effect with another choice. */
  lemma {:induction false} ChoiceChanged(w: World, initial: Server, i: nat, n: nat, choice: Choice) returns (k: nat)
    requires forall j: nat | j < |w.log| :: EventOk(w, initial, j)
    requires i < n <= |w.log| && TakesEffect(w.log, i) && w.log[i].server.choice == choice
    requires ServerAt(initial, w.log, n).choice != choice && (n < |w.log| ==> w.log[n].Published?)
    ensures i < k < n && TakesEffect(w.log, k) && Wanted(w.log[k].origin) != choice
    ensures forall m | k < m < n :: !TakesEffect(w.log, m)
    decreases n
  {
    assert EventOk(w, initial, n - 1);
    if w.log[n - 1].Published? {
      k := n - 1;
    } else {
      assert EventOk(w, initial, n - 2);
      k := ChoiceChanged(w, initial, i, n - 2, choice);
    }
  }

  /** The process behind an event that took effect before is not the one that now
    * holds both locks, so it crashed. */
  lemma OtherCrashed(w: World, initial: Server, p: nat, k: nat)
    requires Inv(w, initial) && p in w.pcs && w.pcs[p].HasBoth?
    requires LeftOk(w, k) && TakesEffect(w.log, k) && IsQueued(w.pending) && w.log[k].queued == |w.requests|
    ensures w.log[k].process in w.dead
  {
    assert PcOk(w, p) && PcOk(w, w.log[k].process);
  }

  /** The last switch that took effect. */
  ghost predicate LastEffect(log: seq<Event>, k: nat) {
    TakesEffect(log, k) && forall m | k < m < |log| :: !TakesEffect(log, m)
  }

  /** The request of event `i` is still queued and has another choice than server.json:
    * the last switch that took effect is an explicit one behind event `i`, and both
    * processes crashed. */
  lemma ReplaySwitch(w: World, initial: Server, p: nat, r: Request, i: nat) returns (k: nat)
    requires Inv(w, initial) && History(w) && p in w.pcs && w.pcs[p].HasBoth?
    requires w.pending == Some(Queued(r)) && w.server.choice != r.choice
    requires Publishes(w.log, i, r.id) && TakesEffect(w.log, i)
    ensures w.log[i].process in w.dead && CrashedSwitch(w, i, k, |w.log|)
    ensures LastEffect(w.log, k) && Wanted(w.log[k].origin) != r.choice
  {
    assert EventOk(w, initial, i) && EventOfQueue(w, i) && LeftOk(w, i);
    OtherCrashed(w, initial, p, i);
    k := ChoiceChanged(w, initial, i, |w.log|, r.choice);
    assert EventOk(w, initial, k) && EventOfQueue(w, k) && InOrder(w, i, k) && LeftOk(w, k);
    OtherCrashed(w, initial, p, k);
  }

  lemma ReplayNeedsSwitch(w: World, initial: Server, p: nat, r: Request)
    requires Inv(w, initial) && History(w) && p in w.pcs && w.pcs[p].HasBoth?
    requires w.pending == Some(Queued(r)) && w.server.choice != r.choice
    ensures MayRepeat(w, r.id)
  {
    forall i | Publishes(w.log, i, r.id) && TakesEffect(w.log, i) ensures Replayed(w, i, |w.log|) {
      var k := ReplaySwitch(w, initial, p, r, i);
    }
  }

  // ---- steps that leave server.json alone ----------------------------------------------

  predicate SamePc(w: World, w': World, q: nat) { if q in w.pcs then q in w'.pcs && w'.pcs[q] == w.pcs[q] else q !in w'.pcs }

  /** A step of process `p` that publishes nothing and queues nothing. */
  ghost predicate Framed(w: World, w': World, p: nat) {
    && w'.log == w.log && w'.requests == w.requests && w.dead <= w'.dead
    && (w'.pending == w.pending || !IsQueued(w'.pending))
    && (forall q: nat | q != p :: SamePc(w, w', q))
    && (p in w.pcs && Working(w.pcs[p]) ==> (p in w'.pcs && Working(w'.pcs[p])) || p in w'.dead || !IsQueued(w'.pending))
  }

  lemma ReplayedStays(w: World, w': World, i: nat, j: nat)
    requires w'.log == w.log && w.dead <= w'.dead && Replayed(w, i, j)
    ensures Replayed(w', i, j)
  {
    var k :| CrashedSwitch(w, i, k, j);
    assert CrashedSwitch(w', i, k, j);
  }

  lemma FrameEvents(w: World, w': World, p: nat)
    requires History(w) && Framed(w, w', p)
    ensures forall k: nat :: EventOfQueue(w', k)
    ensures forall k: nat :: LeftOk(w', k)
    ensures forall k: nat, l: nat :: InOrder(w', k, l)
  {
    forall k: nat ensures EventOfQueue(w', k) && LeftOk(w', k) {
      assert EventOfQueue(w, k) && LeftOk(w, k);
      if k < |w.log| && w.log[k].Published? { assert w.log[k].process == p || SamePc(w, w', w.log[k].process); }
    }
    forall k: nat, l: nat ensures InOrder(w', k, l) { assert InOrder(w, k, l); }
  }

  lemma FrameReplays(w: World, w': World, p: nat)
    requires History(w) && Framed(w, w', p)
    ensures forall i: nat, j: nat :: RepeatOk(w', i, j)
    ensures forall q: nat | q != p :: StoppedOk(w', q) && HolderOk(w', q)
    ensures forall id :: MayRepeat(w, id) ==> MayRepeat(w', id)
  {
    forall i: nat, j: nat ensures RepeatOk(w', i, j) {
      assert RepeatOk(w, i, j);
      if Replayed(w, i, j) { ReplayedStays(w, w', i, j); }
    }
    forall id | MayRepeat(w, id) ensures MayRepeat(w', id) {
      forall i | Publishes(w'.log, i, id) && TakesEffect(w'.log, i) ensures Replayed(w', i, |w'.log|) {
        ReplayedStays(w, w', i, |w.log|);
      }
    }
    forall q: nat | q != p ensures StoppedOk(w', q) && HolderOk(w', q) {
      assert StoppedOk(w, q) && HolderOk(w, q) && SamePc(w, w', q);
    }
  }

  lemma FrameHistory(w: World, w': World, p: nat)
    requires History(w) && Framed(w, w', p) && HolderOk(w', p)
    requires p in w'.pcs && w'.pcs[p].Stopped? && w'.pcs[p].origin.FromQueue? ==> MayRepeat(w, w'.pcs[p].origin.request.id)
    ensures History(w')
  {
    FrameEvents(w, w', p);
    FrameReplays(w, w', p);
  }

  lemma ExecHistory(w: World, p: nat, step: ExecStep)
    requires History(w) && ExecEnabled(w, p, step)
    ensures History(NextExec(w, p, step))
  {
    var w' := NextExec(w, p, step);
    assert Framed(w, w', p);
    FrameHistory(w, w', p);
  }

  lemma OutsideHistory(w: World, step: OutsideStep)
    requires History(w) && OutsideEnabled(w, step)
    ensures History(NextOutside(w, step))
  {
    var w' := NextOutside(w, step);
    var p := if step.Crash? then step.p else 0;
    assert HolderOk(w, p) && StoppedOk(w, p);
    assert Framed(w, w', p);
    FrameHistory(w, w', p);
  }

  lemma QueuedHistory(w: World, p: nat, initial: Server)
    requires Inv(w, initial) && History(w) && QueueEnabled(w, p, WriteQueue)
    ensures History(NextQueue(w, p, WriteQueue))
  {
    var w' := NextQueue(w, p, WriteQueue);
    assert PcOk(w, p);
    forall q: nat ensures HolderOk(w', q) && StoppedOk(w', q) {
      assert HolderOk(w, q) && PcOk(w, q);
    }
    forall k: nat ensures EventOfQueue(w', k) && LeftOk(w', k) { assert EventOfQueue(w, k); }
    forall k: nat, l: nat ensures InOrder(w', k, l) { assert InOrder(w, k, l); }
    forall i: nat, j: nat ensures RepeatOk(w', i, j) {
      assert RepeatOk(w, i, j);
      if Replayed(w, i, j) { ReplayedStays(w, w', i, j); }
    }
  }

  lemma QueueHistoryKept(w: World, p: nat, step: QueueStep, initial: Server)
    requires Inv(w, initial) && History(w) && QueueEnabled(w, p, step)
    ensures History(NextQueue(w, p, step))
  {
    if step.WriteQueue? {
      QueuedHistory(w, p, initial);
    } else {
      var w' := NextQueue(w, p, step);
      assert Framed(w, w', p);
      FrameHistory(w, w', p);
    }
  }

  lemma StopHistory(w: World, p: nat, initial: Server)
    requires Inv(w, initial) && History(w) && SwitchEnabled(w, p, StopService)
    ensures History(NextSwitch(w, p, StopService))
  {
    var w' := NextSwitch(w, p, StopService);
    if w.pcs[p].origin.FromQueue? {
      ReplayNeedsSwitch(w, initial, p, w.pcs[p].origin.request);
    }
    assert Framed(w, w', p);
    FrameHistory(w, w', p);
  }

  lemma SwitchHistory(w: World, p: nat, step: SwitchStep)
    requires History(w) && SwitchEnabled(w, p, step) && !WritesServer(step) && !step.StopService?
    ensures History(NextSwitch(w, p, step))
  {
    var w' := NextSwitch(w, p, step);
    assert HolderOk(w, p);
    assert Framed(w, w', p);
    FrameHistory(w, w', p);
  }

  // ---- steps that write server.json -----------------------------------------------------

  /** `w'` has one more event, made by `p` under both locks. */
  ghost predicate Appended(w: World, w': World, p: nat, e: Event) {
    && w'.log == w.log + [e] && w'.requests == w.requests && w'.dead == w.dead && w'.pending == w.pending
    && w.serviceLock == Some(p) && w.submitLock == Some(p) && p in w.pcs && p in w'.pcs && !w'.pcs[p].Stopped?
    && (forall q: nat | q != p :: SamePc(w, w', q))
    && (e.Published? ==> e.process == p && e.queued == |w.requests| && !Working(w.pcs[p]) && Working(w'.pcs[p]))
    && (e.Restored? ==> |w.log| > 0)
  }

  lemma EffectBefore(w: World, w': World, p: nat, e: Event, k: nat)
    requires Appended(w, w', p, e) && k < |w.log|
    ensures w'.log[k] == w.log[k]
    ensures TakesEffect(w'.log, k) <==> TakesEffect(w.log, k) && (e.Restored? ==> k + 1 < |w.log|)
  {
    if k + 1 < |w.log| { assert w'.log[k + 1] == w.log[k + 1]; }
  }

  lemma AppendedLeft(w: World, w': World, p: nat, e: Event, k: nat, initial: Server)
    requires Inv(w, initial) && History(w) && Appended(w, w', p, e)
    ensures LeftOk(w', k)
  {
    if k < |w.log| && TakesEffect(w'.log, k) && IsQueued(w'.pending) && w'.log[k].queued == |w'.requests| {
      EffectBefore(w, w', p, e, k);
      assert LeftOk(w, k) && PcOk(w, w.log[k].process);
      assert w.log[k].process in w.dead;
    }
  }

  lemma AppendedReplayed(w: World, w': World, p: nat, e: Event, i: nat, j: nat)
    requires Appended(w, w', p, e) && j <= |w.log| && Replayed(w, i, j) && (j < |w.log| ==> w.log[j].Published?)
    requires j == |w.log| ==> e.Published?
    ensures Replayed(w', i, j)
  {
    var k :| CrashedSwitch(w, i, k, j);
    EffectBefore(w, w', p, e, k);
    assert w'.log[i] == w.log[i];
    assert CrashedSwitch(w', i, k, j);
  }

  lemma AppendedRepeat(w: World, w': World, p: nat, e: Event, i: nat, j: nat)
    requires History(w) && Appended(w, w', p, e)
    requires e.Published? && e.origin.FromQueue? ==> MayRepeat(w, e.origin.request.id)
    ensures RepeatOk(w', i, j)
  {
    if i < j < |w'.log| && TakesEffect(w'.log, i) && w'.log[i].origin.FromQueue?
       && Publishes(w'.log, j, w'.log[i].origin.request.id) {
      EffectBefore(w, w', p, e, i);
      if j < |w.log| {
        assert w'.log[j] == w.log[j] && RepeatOk(w, i, j);
        assert Replayed(w, i, j);
      } else {
        assert Publishes(w.log, i, e.origin.request.id);
        assert Replayed(w, i, j);
      }
      AppendedReplayed(w, w', p, e, i, j);
    }
  }

  lemma AppendedHistory(w: World, w': World, p: nat, e: Event, initial: Server)
    requires Inv(w, initial) && History(w) && Appended(w, w', p, e) && HolderOk(w', p)
    requires e.Published? && e.origin.FromQueue? ==> MayRepeat(w, e.origin.request.id) && Newest(w, e.origin.request.id)
    ensures History(w')
  {
    forall k: nat ensures EventOfQueue(w', k) && LeftOk(w', k) {
      assert EventOfQueue(w, k);
      if k < |w.log| { assert w'.log[k] == w.log[k]; }
      AppendedLeft(w, w', p, e, k, initial);
    }
    forall k: nat, l: nat ensures InOrder(w', k, l) {
      assert InOrder(w, k, l) && EventOfQueue(w, k);
      if k < |w.log| { assert w'.log[k] == w.log[k]; }
      if l < |w.log| { assert w'.log[l] == w.log[l]; }
    }
    forall i: nat, j: nat ensures RepeatOk(w', i, j) { AppendedRepeat(w, w', p, e, i, j); }
    forall q: nat ensures HolderOk(w', q) && StoppedOk(w', q) {
      assert HolderOk(w, q) && PcOk(w, q) && (q == p || SamePc(w, w', q));
    }
  }

  lemma WriteHistory(w: World, p: nat, step: SwitchStep, initial: Server)
    requires Inv(w, initial) && History(w) && SwitchEnabled(w, p, step) && WritesServer(step)
    ensures History(NextSwitch(w, p, step))
  {
    var w' := NextSwitch(w, p, step);
    var o := w.pcs[p].origin;
    assert PcOk(w, p) && HolderOk(w, p) && StoppedOk(w, p);
    if step.PublishStopped? && o.FromQueue? {
      ReplayNeedsSwitch(w, initial, p, o.request);
    }
    AppendedHistory(w, w', p, w'.log[|w.log|], initial);
  }

  lemma StepHistory(w: World, step: Step, initial: Server)
    requires Inv(w, initial) && History(w) && Enabled(w, step)
    ensures History(Next(w, step))
  {
    match step
    case Execute(p, e) => ExecHistory(w, p, e);
    case Switch(p, s) =>
      if WritesServer(s) {
        WriteHistory(w, p, s, initial);
      } else if s.StopService? {
        StopHistory(w, p, initial);
      } else {
        SwitchHistory(w, p, s);
      }
    case Queue(p, q) => QueueHistoryKept(w, p, q, initial);
    case Outside(o) => OutsideHistory(w, o);
  }

  lemma {:induction false} RunHistory(w: World, steps: seq<Step>, initial: Server)
    requires Inv(w, initial) && History(w) && CanRun(w, steps)
    ensures Inv(After(w, steps), initial) && History(After(w, steps))
    decreases |steps|
  {
    if steps != [] {
      StepKeeps(w, steps[0], initial);
      StepHistory(w, steps[0], initial);
      RunHistory(Next(w, steps[0]), steps[1..], initial);
    }
  }

  /** Over every run: a queued request that took effect is published again only if
    * the process behind the first event crashed before it removed the request, and
    * so did that of an explicit switch that took effect in between. */
  lemma TakesEffectTwiceOnly(server: Server, steps: seq<Step>, i: nat, j: nat, id: nat)
    requires CanRun(Start(server), steps)
    requires var log := After(Start(server), steps).log;
             i < j && TakesEffect(log, i) && Publishes(log, i, id) && Publishes(log, j, id)
    ensures var w := After(Start(server), steps);
            w.log[i].process in w.dead && exists k :: CrashedSwitch(w, i, k, j)
  {
    RunHistory(Start(server), steps, server);
    assert RepeatOk(After(Start(server), steps), i, j);
  }

  // ---- it can happen ---------------------------------------------------------------------------

  /** Process `p` publishes while the service is stopped, and crashes before it
    * removes the pending file; its locks are cleared by hand. */
  function PublishAndCrash(p: nat, begin: SwitchStep): seq<Step> {
    [Switch(p, begin), Switch(p, TakeService)] + [Switch(p, TakeBoth), Switch(p, PublishStopped)]
    + [Outside(Crash(p)), Outside(ClearService)] + [Outside(ClearSubmit)]
  }

  /** Nothing is in flight, no lock is held, and the service is stopped. */
  predicate Calm(w: World) { Quiescent(w) && w.serviceLock.None? && w.submitLock.None? && w.running.None? }

  lemma PublishRun(w: World, p: nat, begin: SwitchStep, o: Origin)
    requires Calm(w) && IsIdle(w, p) && SwitchEnabled(w, p, begin) && NextSwitch(w, p, begin) == Goto(w, p, Wants(o))
    requires MaySwitch(w, o)
    ensures var steps := [Switch(p, begin), Switch(p, TakeService)] + [Switch(p, TakeBoth), Switch(p, PublishStopped)];
            && CanRun(w, steps)
            && After(w, steps)
               == Publish(w, p, o).(serviceLock := Some(p), submitLock := Some(p), pcs := w.pcs[p := Applied(o)])
  {
    var a := [Switch(p, begin), Switch(p, TakeService)];
    var b := [Switch(p, TakeBoth), Switch(p, PublishStopped)];
    TwoSteps(w, a[0], a[1]);
    var w2 := After(w, a);
    assert w2 == w.(serviceLock := Some(p), pcs := w.pcs[p := HasService(o)]);
    TwoSteps(w2, b[0], b[1]);
    RunAppend(w, a, b);
  }

  lemma PublishAndCrashRun(w: World, p: nat, begin: SwitchStep, o: Origin)
    requires Calm(w) && IsIdle(w, p) && SwitchEnabled(w, p, begin) && NextSwitch(w, p, begin) == Goto(w, p, Wants(o))
    requires MaySwitch(w, o)
    ensures CanRun(w, PublishAndCrash(p, begin))
    ensures var s := Candidate(w.server, Wanted(o));
            After(w, PublishAndCrash(p, begin))
            == w.(server := s, log := w.log + [Published(o, w.server, s, p, |w.requests|)], dead := w.dead + {p})
  {
    var publish := [Switch(p, begin), Switch(p, TakeService)] + [Switch(p, TakeBoth), Switch(p, PublishStopped)];
    var crash := [Outside(Crash(p)), Outside(ClearService)];
    PublishRun(w, p, begin, o);
    var w4 := After(w, publish);
    assert w4.pcs - {p} == w.pcs;
    TwoSteps(w4, crash[0], crash[1]);
    RunAppend(w, publish, crash);
    RunAppend(w, publish + crash, [Outside(ClearSubmit)]);
  }

  /** Process 0 queues `first`; 1 publishes it and crashes; 2 switches to `other`
    * and crashes; 3 publishes `first` again. */
  function DoubleEffect(first: Choice, other: Choice): seq<Step> {
    [Queue(0, BeginQueue(first)), Queue(0, WriteQueue)] + PublishAndCrash(1, ReadQueue)
    + PublishAndCrash(2, Ask(other)) + PublishAndCrash(3, ReadQueue)
  }

  lemma FirstEffect(server: Server, first: Choice)
    requires server.choice != first
    ensures var steps := [Queue(0, BeginQueue(first)), Queue(0, WriteQueue)] + PublishAndCrash(1, ReadQueue);
            var s := Candidate(server, first);
            && CanRun(Start(server), steps)
            && After(Start(server), steps)
               == Start(server).(server := s, pending := Some(Queued(Request(0, first))), requests := [first], dead := {1},
                                 log := [Published(FromQueue(Request(0, first)), server, s, 1, 1)])
  {
    var w0 := Start(server);
    var queue := [Queue(0, BeginQueue(first)), Queue(0, WriteQueue)];
    QueueRun(w0, 0, first);
    var w1 := After(w0, queue);
    PublishAndCrashRun(w1, 1, ReadQueue, FromQueue(Request(0, first)));
    RunAppend(w0, queue, PublishAndCrash(1, ReadQueue));
  }

  /** One queued request takes effect twice: three generations for one request and
    * one switch. */
  lemma RequestTakesEffectTwice(server: Server, first: Choice, other: Choice)
    requires server.choice != first && other != first
    ensures CanRun(Start(server), DoubleEffect(first, other))
    ensures var w := After(Start(server), DoubleEffect(first, other));
            && w.requests == [first] && w.server == Server(first, server.generation + 3)
            && TakesEffect(w.log, 0) && Publishes(w.log, 0, 0) && TakesEffect(w.log, 2) && Publishes(w.log, 2, 0)
  {
    var steps := [Queue(0, BeginQueue(first)), Queue(0, WriteQueue)] + PublishAndCrash(1, ReadQueue);
    FirstEffect(server, first);
    var w2 := After(Start(server), steps);
    PublishAndCrashRun(w2, 2, Ask(other), Explicit(other));
    var w3 := After(w2, PublishAndCrash(2, Ask(other)));
    PublishAndCrashRun(w3, 3, ReadQueue, FromQueue(Request(0, first)));
    RunAppend(Start(server), steps, PublishAndCrash(2, Ask(other)));
    RunAppend(Start(server), steps + PublishAndCrash(2, Ask(other)), PublishAndCrash(3, ReadQueue));
  }

  // ---- when a request is published again ------------------------------------------------------

  /** server.json has the choice of the last switch that took effect. */
  lemma {:induction false} LastChoice(w: World, initial: Server, k: nat, n: nat)
    requires forall j: nat | j < |w.log| :: EventOk(w, initial, j)
    requires k < n <= |w.log| && TakesEffect(w.log, k) && (forall m | k < m < n :: !TakesEffect(w.log, m))
    requires n < |w.log| ==> w.log[n].Published?
    ensures ServerAt(initial, w.log, n).choice == Wanted(w.log[k].origin)
    decreases n
  {
    assert EventOk(w, initial, n - 1);
    if k < n - 1 {
      assert !TakesEffect(w.log, n - 1) && w.log[n - 1].Restored?;
      assert EventOk(w, initial, n - 2) && k != n - 2;
      LastChoice(w, initial, k, n - 2);
    }
  }

  /** Process `p` takes the queued request up and gets both locks. */
  function TakeUp(p: nat): seq<Step> { [Switch(p, ReadQueue), Switch(p, TakeService)] + [Switch(p, TakeBoth)] }

  lemma TakeUpRun(w: World, p: nat, r: Request, last: SwitchStep)
    requires Calm(w) && IsIdle(w, p) && w.pending == Some(Queued(r))
    ensures var held := w.(serviceLock := Some(p), submitLock := Some(p), pcs := w.pcs[p := HasBoth(FromQueue(r))]);
            && CanRun(w, TakeUp(p)) && After(w, TakeUp(p)) == held
            && (CanRun(w, TakeUp(p) + [Switch(p, last)]) <==> SwitchEnabled(held, p, last))
  {
    var a := [Switch(p, ReadQueue), Switch(p, TakeService)];
    TwoSteps(w, a[0], a[1]);
    RunAppend(w, a, [Switch(p, TakeBoth)]);
    RunAlso(w, TakeUp(p), Switch(p, last));
  }

  lemma {:induction false} RunAlso(w: World, a: seq<Step>, last: Step)
    requires CanRun(w, a)
    ensures CanRun(w, a + [last]) <==> Enabled(After(w, a), last)
    decreases |a|
  {
    if a == [] {
      assert a + [last] == [last] && [last][1..] == [];
    } else {
      assert (a + [last])[0] == a[0] && (a + [last])[1..] == a[1..] + [last];
      RunAlso(Next(w, a[0]), a[1..], last);
    }
  }

  /** The last switch that took effect, event `k`, is an explicit one to another choice,
    * made after event `i` by a process that crashed before it removed the request. */
  ghost predicate SwitchedAway(w: World, i: nat, k: nat, choice: Choice) {
    CrashedSwitch(w, i, k, |w.log|) && LastEffect(w.log, k) && Wanted(w.log[k].origin) != choice
  }

  lemma ChoiceMoved(w: World, held: World, initial: Server, p: nat, r: Request, i: nat)
    requires Inv(held, initial) && History(held) && p in held.pcs && held.pcs[p].HasBoth?
    requires w.log == held.log && w.dead == held.dead && w.server == held.server
    requires held.pending == Some(Queued(r)) && Publishes(held.log, i, r.id) && TakesEffect(held.log, i)
    ensures w.server.choice != r.choice <==> exists k: nat :: SwitchedAway(w, i, k, r.choice)
  {
    if held.server.choice != r.choice {
      var k := ReplaySwitch(held, initial, p, r, i);
      assert SwitchedAway(w, i, k, r.choice);
    }
    forall k: nat | SwitchedAway(w, i, k, r.choice) ensures w.server.choice == Wanted(w.log[k].origin) {
      LastChoice(held, initial, k, |w.log|);
    }
  }

  /** Over every run: a request that took effect once and is still queued is published
    * again by the next process that takes it up exactly if server.json was switched
    * away since; otherwise the request is only removed. */
  lemma RepeatedExactly(server: Server, steps: seq<Step>, i: nat, r: Request, p: nat)
    requires CanRun(Start(server), steps)
    requires var w := After(Start(server), steps);
             && Publishes(w.log, i, r.id) && TakesEffect(w.log, i) && w.pending == Some(Queued(r))
             && Calm(w) && IsIdle(w, p)
    ensures var w := After(Start(server), steps);
            && (CanRun(w, TakeUp(p) + [Switch(p, PublishStopped)]) <==> exists k: nat :: SwitchedAway(w, i, k, r.choice))
            && (CanRun(w, TakeUp(p) + [Switch(p, AlreadySelected)]) <==> !exists k: nat :: SwitchedAway(w, i, k, r.choice))
  {
    var w := After(Start(server), steps);
    RunHistory(Start(server), steps, server);
    TakeUpRun(w, p, r, PublishStopped);
    TakeUpRun(w, p, r, AlreadySelected);
    RunHistory(w, TakeUp(p), server);
    ChoiceMoved(w, After(w, TakeUp(p)), server, p, r, i);
  }

  // ---- how a queued request leaves the file ---------------------------------------------------

  /** A queued request leaves the file exactly by these steps: its own application,
    * an explicit switch, a failure mark -- its own, or a late one of an older
    * request --, a newer request, a cancel, or damage from outside. */
  predicate Takes(w: World, step: Step, q: Request) {
    match step
    case Switch(p, DropPending(_)) =>
      p in w.pcs && w.pcs[p].Applied? && (w.pcs[p].origin.Explicit? || w.pcs[p].origin.request == q)
    case Switch(p, MarkFailed) => p in w.pcs && w.pcs[p].MarkingFailed? && (w.pcs[p].request == q || w.pcs[p].request.id < q.id)
    case Queue(_, WriteQueue) => true
    case Queue(_, RemovePending) => true
    case Outside(PendingDamaged) => true
    case _ => false
  }

  lemma LeavesExactly(w: World, step: Step, q: Request, initial: Server)
    requires Inv(w, initial) && History(w) && Enabled(w, step) && w.pending == Some(Queued(q))
    ensures Next(w, step).pending != w.pending <==> Takes(w, step, q)
  {
    match step
    case Switch(p, s) => SwitchLeaves(w, p, s, q, initial);
    case Execute(p, e) =>
    case Queue(p, s) =>
    case Outside(o) =>
  }

  lemma SwitchLeaves(w: World, p: nat, s: SwitchStep, q: Request, initial: Server)
    requires Inv(w, initial) && History(w) && SwitchEnabled(w, p, s) && w.pending == Some(Queued(q))
    ensures NextSwitch(w, p, s).pending != w.pending <==> Takes(w, Switch(p, s), q)
  {
    assert PcOk(w, p) && HolderOk(w, p);
  }

  // ---- when a late mark loses a request -----------------------------------------------------------

  lemma {:induction false} NeverAgain(w: World, steps: seq<Step>, r: Request)
    requires CanRun(w, steps) && r.id < |w.requests| && w.pending != Some(Queued(r))
    ensures After(w, steps).pending != Some(Queued(r))
    decreases |steps|
  {
    if steps != [] {
      assert r.id < |Next(w, steps[0]).requests|;
      NeverAgain(Next(w, steps[0]), steps[1..], r);
    }
  }

  lemma {:induction false} RequestsGrow(w: World, steps: seq<Step>)
    requires CanRun(w, steps)
    ensures w.requests <= After(w, steps).requests
    decreases |steps|
  {
    if steps != [] {
      assert w.requests <= Next(w, steps[0]).requests;
      RequestsGrow(Next(w, steps[0]), steps[1..]);
    }
  }

  /** The pending file holds this through all the steps. */
  predicate Stays(w: World, steps: seq<Step>, pending: Option<Pending>)
    requires CanRun(w, steps)
    decreases |steps|
  {
    w.pending == pending && (steps == [] || Stays(Next(w, steps[0]), steps[1..], pending))
  }

  lemma {:induction false} StaysExactly(w: World, steps: seq<Step>, r: Request)
    requires CanRun(w, steps) && r.id < |w.requests| && w.pending == Some(Queued(r))
    ensures After(w, steps).pending == Some(Queued(r)) <==> Stays(w, steps, Some(Queued(r)))
    decreases |steps|
  {
    if steps != [] {
      var w' := Next(w, steps[0]);
      assert r.id < |w'.requests|;
      if w'.pending == Some(Queued(r)) {
        StaysExactly(w', steps[1..], r);
      } else {
        NeverAgain(w', steps[1..], r);
      }
    }
  }

  /** Over every run: a process that read request `r` and now marks it failed finds
    * it still queued exactly if the pending file did not change since; and the mark
    * loses another request exactly if that one was queued since. */
  lemma MarkLosesExactly(server: Server, before: seq<Step>, p: nat, window: seq<Step>, q: Request)
    requires CanRun(Start(server), before) && Enabled(After(Start(server), before), Switch(p, ReadQueue))
    requires CanRun(Next(After(Start(server), before), Switch(p, ReadQueue)), window)
    requires var w := After(Next(After(Start(server), before), Switch(p, ReadQueue)), window);
             p in w.pcs && w.pcs[p] == MarkingFailed(After(Start(server), before).pending.value.request)
    ensures var w1 := After(Start(server), before);
            var w2 := Next(w1, Switch(p, ReadQueue));
            var w3 := After(w2, window);
            var r := w1.pending.value.request;
            && Enabled(w3, Switch(p, MarkFailed)) && Next(w3, Switch(p, MarkFailed)).pending == Some(FailedChange(r))
            && (w3.pending == Some(Queued(r)) <==> Stays(w2, window, Some(Queued(r))))
            && (w3.pending == Some(Queued(q)) ==> (q != r <==> q.id >= |w1.requests|))
  {
    var w1 := After(Start(server), before);
    var w2 := Next(w1, Switch(p, ReadQueue));
    var r := w1.pending.value.request;
    RunHistory(Start(server), before, server);
    StepKeeps(w1, Switch(p, ReadQueue), server);
    StepHistory(w1, Switch(p, ReadQueue), server);
    RunHistory(w2, window, server);
    RequestsGrow(w2, window);
    StaysExactly(w2, window, r);
  }

  // ---- the gate over runs -----------------------------------------------------------------------------

  /** Past the dispatch gate, up to the reservation. */
  predicate PastGate(w: World, p: nat) {
    p in w.pcs &&
    var pc := w.pcs[p];
    pc.PassedGate? || (pc.Leaving? && pc.execute) || pc.Submitting? || pc.Verified? || pc.Reserved?
  }

  /** At some point of the run nothing was queued, failed or unreadable. */
  predicate WasClear(w: World, steps: seq<Step>)
    requires CanRun(w, steps)
    decreases |steps|
  {
    w.pending.None? || (steps != [] && WasClear(Next(w, steps[0]), steps[1..]))
  }

  lemma SwitchPassesClear(w: World, q: nat, s: SwitchStep, p: nat)
    requires SwitchEnabled(w, q, s) && !PastGate(w, p) && PastGate(NextSwitch(w, q, s), p)
    ensures NextSwitch(w, q, s).pending.None?
  {
  }

  lemma QueuePassesNobody(w: World, q: nat, s: QueueStep, p: nat)
    requires QueueEnabled(w, q, s) && !PastGate(w, p)
    ensures !PastGate(NextQueue(w, q, s), p)
  {
  }

  lemma PassesOnlyWhenClear(w: World, step: Step, p: nat)
    requires Enabled(w, step) && !PastGate(w, p) && PastGate(Next(w, step), p)
    ensures Next(w, step).pending.None?
  {
    match step
    case Execute(q, e) => assert q == p && e.Gate?;
    case Switch(q, s) => SwitchPassesClear(w, q, s, p);
    case Queue(q, s) => QueuePassesNobody(w, q, s, p);
    case Outside(o) =>
  }

  lemma {:induction false} PastGateWasClear(w: World, steps: seq<Step>, p: nat)
    requires CanRun(w, steps) && !PastGate(w, p) && PastGate(After(w, steps), p)
    ensures WasClear(w, steps)
    decreases |steps|
  {
    if steps != [] {
      var w' := Next(w, steps[0]);
      if PastGate(w', p) {
        PassesOnlyWhenClear(w, steps[0], p);
      } else {
        PastGateWasClear(w', steps[1..], p);
      }
    }
  }

  /** In every run, a process that reserves a run has, since it began, seen a moment
    * at which no selection was queued, failed or unreadable. */
  lemma ReservesOnlyAfterClear(w: World, steps: seq<Step>, p: nat, e: Id)
    requires CanRun(w, steps) && p !in w.pcs && Enabled(After(w, steps), Execute(p, Reserve(e)))
    ensures WasClear(w, steps)
  {
    PastGateWasClear(w, steps, p);
  }

  // ---- switching over runs --------------------------------------------------------------------------------

  /** Process `p` holds both locks, nothing is in flight, and the service is stopped or
    * has the selected identity. */
  predicate MayTouchService(w: World, p: nat) {
    && w.serviceLock == Some(p) && w.submitLock == Some(p) && w.outstanding.None? && !w.busy
    && (w.running.Some? ==> IdentityOf(w.running.value) == IdentityOf(w.server))
  }

  predicate MightTouchService(w: World, steps: seq<Step>, p: nat)
    requires CanRun(w, steps)
    decreases |steps|
  {
    MayTouchService(w, p) || (steps != [] && MightTouchService(Next(w, steps[0]), steps[1..], p))
  }

  /** Past the checks of a switch: the service stopped, or the candidate written. */
  predicate PastChecks(w: World, p: nat) { p in w.pcs && (w.pcs[p].Stopped? || w.pcs[p].Starting?) }

  lemma ChecksPassed(w: World, step: Step, p: nat, initial: Server)
    requires Inv(w, initial) && Enabled(w, step) && !PastChecks(w, p) && PastChecks(Next(w, step), p)
    ensures MayTouchService(w, p)
  {
    assert PcOk(w, p);
    match step
    case Execute(q, e) =>
    case Switch(q, s) => SwitchPassed(w, q, s, p);
    case Queue(q, s) =>
    case Outside(o) =>
  }

  lemma SwitchPassed(w: World, q: nat, s: SwitchStep, p: nat)
    requires SwitchEnabled(w, q, s) && !PastChecks(w, p) && PastChecks(NextSwitch(w, q, s), p) && PcOk(w, p)
    ensures MayTouchService(w, p)
  {
  }

  lemma {:induction false} PastChecksWasIdle(w: World, steps: seq<Step>, p: nat, initial: Server)
    requires Inv(w, initial) && CanRun(w, steps) && !PastChecks(w, p) && PastChecks(After(w, steps), p)
    ensures MightTouchService(w, steps, p)
    decreases |steps|
  {
    if steps != [] {
      var w' := Next(w, steps[0]);
      if PastChecks(w', p) {
        ChecksPassed(w, steps[0], p, initial);
      } else {
        StepKeeps(w, steps[0], initial);
        PastChecksWasIdle(w', steps[1..], p, initial);
      }
    }
  }

  /** In every run, a process that publishes a selection has, since it began, held both
    * locks at a moment with no run outstanding, none executing, and the service stopped
    * or of the selected identity. */
  lemma PublishesOnlyAfterIdle(server: Server, before: seq<Step>, steps: seq<Step>, p: nat, step: SwitchStep)
    requires CanRun(Start(server), before) && CanRun(After(Start(server), before), steps) && p !in After(Start(server), before).pcs
    requires step.PublishStopped? || step.PublishRestart?
    requires Enabled(After(After(Start(server), before), steps), Switch(p, step))
    ensures MightTouchService(After(Start(server), before), steps, p)
  {
    var w := After(Start(server), before);
    RunKeeps(Start(server), before, server);
    if step.PublishRestart? {
      PastChecksWasIdle(w, steps, p, server);
    } else {
      RunKeeps(w, steps, server);
      assert PcOk(After(w, steps), p);
      IdleAtTheEnd(w, steps, p);
    }
  }

  lemma {:induction false} IdleAtTheEnd(w: World, steps: seq<Step>, p: nat)
    requires CanRun(w, steps) && MayTouchService(After(w, steps), p)
    ensures MightTouchService(w, steps, p)
    decreases |steps|
  {
    if steps != [] {
      IdleAtTheEnd(Next(w, steps[0]), steps[1..], p);
    }
  }

  // ---- what a switch leads to --------------------------------------------------------------------------------

  /** A switch that succeeds leaves the service, if it was running, running with the
    * wanted selection: server.json, the service and the origin agree. */
  lemma SwitchedServiceRuns(server: Server, steps: seq<Step>, p: nat)
    requires CanRun(Start(server), steps) && Enabled(After(Start(server), steps), Switch(p, StartOk))
    ensures var w := After(Start(server), steps);
            var w' := Next(w, Switch(p, StartOk));
            && w'.running == Some(w'.server) && w'.server == w.server && w.server.choice == Wanted(w.pcs[p].origin)
            && ServiceVerified(w')
  {
    var w := After(Start(server), steps);
    RunKeeps(Start(server), steps, server);
    assert PcOk(w, p) && EventOk(w, server, |w.log| - 1);
  }

  /** The process has ended without crashing. */
  predicate IsDone(w: World, p: nat) { p !in w.pcs && p !in w.dead }

  /** Between a failed switch of request `r` and its mark. */
  predicate HasFailed(w: World, p: nat, r: Request) {
    p in w.pcs && (w.pcs[p] == Undone(FromQueue(r)) || w.pcs[p] == MarkingFailed(r))
  }

  lemma FailedStep(w: World, step: Step, p: nat, r: Request)
    requires Enabled(w, step) && HasFailed(w, p, r) && step != Switch(p, MarkFailed)
    ensures HasFailed(Next(w, step), p, r) || p in Next(w, step).dead
  {
    match step
    case Execute(q, e) =>
    case Switch(q, s) =>
    case Queue(q, s) =>
    case Outside(o) =>
  }

  lemma {:induction false} DeadStays(w: World, steps: seq<Step>, p: nat)
    requires CanRun(w, steps) && p in w.dead
    ensures p in After(w, steps).dead
    decreases |steps|
  {
    if steps != [] {
      DeadStays(Next(w, steps[0]), steps[1..], p);
    }
  }

  lemma {:induction false} FailedUntilMarked(w: World, steps: seq<Step>, p: nat, r: Request)
    requires CanRun(w, steps) && HasFailed(w, p, r) && IsDone(After(w, steps), p)
    ensures Switch(p, MarkFailed) in steps
    decreases |steps|
  {
    if steps != [] && steps[0] != Switch(p, MarkFailed) {
      var w' := Next(w, steps[0]);
      FailedStep(w, steps[0], p, r);
      if p in w'.dead {
        DeadStays(w', steps[1..], p);
      } else {
        FailedUntilMarked(w', steps[1..], p, r);
      }
    }
  }

  /** A process that finds its queued request invalid, its service unverified or its new
    * service not starting, and ends without crashing, has marked the request failed. */
  lemma FailedSwitchIsMarked(w: World, step: SwitchStep, steps: seq<Step>, p: nat)
    requires (step.Invalid? || step.Unverified? || step.StartFails?) && SwitchEnabled(w, p, step) && w.pcs[p].origin.FromQueue?
    requires CanRun(NextSwitch(w, p, step), steps) && IsDone(After(NextSwitch(w, p, step), steps), p)
    ensures Switch(p, MarkFailed) in steps
  {
    FailedUntilMarked(NextSwitch(w, p, step), steps, p, w.pcs[p].origin.request);
  }

  predicate Drops(step: Step, p: nat) { step.Switch? && step.p == p && step.s.DropPending? }

  lemma AppliedStep(w: World, step: Step, p: nat)
    requires Enabled(w, step) && p in w.pcs && w.pcs[p].Applied? && !Drops(step, p)
    ensures (p in Next(w, step).pcs && Next(w, step).pcs[p].Applied?) || p in Next(w, step).dead
  {
    match step
    case Execute(q, e) =>
    case Switch(q, s) =>
    case Queue(q, s) =>
    case Outside(o) =>
  }

  lemma {:induction false} AppliedUntilDropped(w: World, steps: seq<Step>, p: nat)
    requires CanRun(w, steps) && p in w.pcs && w.pcs[p].Applied? && IsDone(After(w, steps), p)
    ensures exists step :: step in steps && Drops(step, p)
    decreases |steps|
  {
    if steps != [] {
      var w' := Next(w, steps[0]);
      if Drops(steps[0], p) {
        assert steps[0] in steps;
      } else {
        AppliedStep(w, steps[0], p);
        if p in w'.dead {
          DeadStays(w', steps[1..], p);
        } else {
          AppliedUntilDropped(w', steps[1..], p);
          var step :| step in steps[1..] && Drops(step, p);
          assert step in steps;
        }
      }
    }
  }

  /** A process whose selection is there already, or is published, and ends without
    * crashing, has removed the pending file. */
  lemma AppliedSwitchIsRemoved(w: World, step: SwitchStep, steps: seq<Step>, p: nat)
    requires (step.AlreadySelected? || step.PublishStopped? || step.StartOk?) && SwitchEnabled(w, p, step)
    requires CanRun(NextSwitch(w, p, step), steps) && IsDone(After(NextSwitch(w, p, step), steps), p)
    ensures exists step :: step in steps && Drops(step, p)
  {
    AppliedUntilDropped(NextSwitch(w, p, step), steps, p);
  }
}
