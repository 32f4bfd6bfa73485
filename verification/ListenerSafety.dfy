/** What holds in every run of the listener. */
module ListenerSafety {
  import opened Wrappers
  import opened Dispatches
  import opened Observation
  import opened DispatchLife
  import opened ListenerRuntime

  // -------------------------------------------------------------- the queue

  lemma AtMostOne(ids: set<Id>, id: Id)
    requires |ids| <= 1 && id in ids
    ensures ids == {id}
  {
    assert |ids - {id}| == 0;
  }

  lemma EnqueueOne(shared: Shared, ids: seq<Id>)
    requires shared.queued == {} && |ids| <= 1
    ensures EnqueueAll(shared, ids)
         == if ids == [] then shared else shared.(queued := {ids[0]}, queue := shared.queue + [ids[0]])
  {
    if ids != [] {
      assert ids[..0] == [];
      assert EnqueueAll(shared, ids[..0]) == shared;
      assert shared.queued + {ids[0]} == {ids[0]};
    }
  }

  // ------------------------------------------------ steps that write nothing durable

  predicate QuietDeed(l: WorkerLabel) { !l.StartCommit? && !l.Launch? && !l.FinishCommit? }
  predicate QuietAct(l: MainLabel) { !l.Observe? && !l.GiveUp? }
  predicate QuietWorld(l: WorldLabel) { !l.InstallerCreate? && !l.Boot? }

  lemma QuietWorldStep(s: Runtime, l: WorldLabel)
    requires Inv(s) && WorldEnabled(s, l) && QuietWorld(l)
    ensures Inv(WorldAfter(s, l))
  {
  }

  lemma QuietMainFrame(digest: Digest, s: Runtime, l: MainLabel)
    requires MainEnabled(s, l) && QuietAct(l)
    ensures var s' := MainAfter(digest, s, l); s'.disk == s.disk && s'.clock == s.clock && s'.worker == s.worker
  {
  }

  lemma QuietMainQueue(digest: Digest, s: Runtime, l: MainLabel)
    requires MainEnabled(s, l) && QuietAct(l) && QueueOk(s)
    ensures QueueOk(MainAfter(digest, s, l))
  {
    QuietMainFrame(digest, s, l);
    if l.Enqueue? {
      EnqueueOne(s.shared, s.main.ids);
    }
  }

  lemma QuietMainWaiting(digest: Digest, s: Runtime, l: MainLabel)
    requires MainEnabled(s, l) && QuietAct(l) && QueueOk(s) && WaitingIsRunnable(s)
    ensures WaitingIsRunnable(MainAfter(digest, s, l))
  {
    if l.Enqueue? {
      EnqueueOne(s.shared, s.main.ids);
    } else if l.Select? {
      SelectedAreRunnable(s, l.ids);
    } else {
      ActTakesNothing(digest, s, l);
    }
  }

  lemma SelectedAreRunnable(s: Runtime, ids: seq<Id>)
    requires MainEnabled(s, Select(ids)) && WaitingIsRunnable(s)
    ensures s.clock.steady && ids != [] ==> RunnableIn(s.disk.store.dispatches, ids[0], s.clock.now)
  {
  }

  /** A quiet act that neither selects nor enqueues keeps the queue and reads no later time than the clock's. */
  lemma ActTakesNothing(digest: Digest, s: Runtime, l: MainLabel)
    requires MainEnabled(s, l) && QuietAct(l) && !l.Select? && !l.Enqueue?
    ensures var s' := MainAfter(digest, s, l);
      && s'.disk == s.disk && s'.clock == s.clock && s'.worker == s.worker && s'.shared.queue == s.shared.queue
      && MainNow(s'.main) in {None, MainNow(s.main), Some(s.clock.now)} && !s'.main.Enqueuing?
  {
  }

  lemma QuietMainThreads(digest: Digest, s: Runtime, l: MainLabel)
    requires MainEnabled(s, l) && QuietAct(l) && QueueOk(s) && ThreadsOk(s) && CustodyOk(s)
    ensures ThreadsOk(MainAfter(digest, s, l)) && CustodyOk(MainAfter(digest, s, l))
  {
    QuietMainFrame(digest, s, l);
    if l.Enqueue? {
      EnqueueOne(s.shared, s.main.ids);
    }
  }

  lemma QuietWorkerQueue(s: Runtime, l: WorkerLabel)
    requires WorkerEnabled(s, l) && QuietDeed(l) && QueueOk(s)
    ensures QueueOk(WorkerAfter(s, l))
  {
    if l.Unqueue? {
      AtMostOne(s.shared.queued, s.worker.id);
    } else if !l.Dequeue? {
      DeedKeepsQueued(s, l);
    }
  }

  lemma DeedKeepsQueued(s: Runtime, l: WorkerLabel)
    requires WorkerEnabled(s, l) && QuietDeed(l) && !l.Unqueue? && !l.Dequeue?
    ensures var s' := WorkerAfter(s, l);
      && s'.main == s.main && s'.shared.queue == s.shared.queue && s'.shared.queued == s.shared.queued
      && (Taken(s'.worker).Some? ==> Taken(s'.worker) == Taken(s.worker))
  {
  }

  lemma QuietWorkerWaiting(s: Runtime, l: WorkerLabel)
    requires WorkerEnabled(s, l) && QuietDeed(l) && QueueOk(s) && WaitingIsRunnable(s)
    ensures WaitingIsRunnable(WorkerAfter(s, l))
  {
    DeedTakes(s, l);
  }

  /** A quiet deed takes an id in hand only from the head of the queue. */
  lemma DeedTakes(s: Runtime, l: WorkerLabel)
    requires WorkerEnabled(s, l) && QuietDeed(l)
    ensures var s' := WorkerAfter(s, l);
      && s'.disk == s.disk && s'.clock == s.clock && s'.main == s.main && !s'.worker.Refused?
      && (s'.shared.queue == s.shared.queue || (s.shared.queue != [] && s'.shared.queue == s.shared.queue[1..]))
      && (s'.worker.Held? || s'.worker.Starting? ==>
            || ((s.worker.Held? || s.worker.Starting?) && s'.worker.id == s.worker.id)
            || (s.shared.queue != [] && s'.worker.id == s.shared.queue[0]))
  {
  }

  lemma QuietWorkerThreads(s: Runtime, l: WorkerLabel)
    requires WorkerEnabled(s, l) && QuietDeed(l) && ThreadsOk(s)
    ensures ThreadsOk(WorkerAfter(s, l))
  {
  }

  lemma QuietWorkerCustody(s: Runtime, l: WorkerLabel)
    requires WorkerEnabled(s, l) && QuietDeed(l) && CustodyOk(s)
    ensures CustodyOk(WorkerAfter(s, l))
  {
    var s' := WorkerAfter(s, l);
    assert s'.disk == s.disk && s'.main == s.main;
    assert Custody(s'.worker) == Custody(s.worker);
  }

  lemma QuietWorkerLaunch(s: Runtime, l: WorkerLabel)
    requires WorkerEnabled(s, l) && QuietDeed(l) && LaunchOk(s)
    ensures LaunchOk(WorkerAfter(s, l)) && WorkerAfter(s, l).disk == s.disk
  {
  }

  // ------------------------------------------------------- steps that commit or launch

  /** The rows still tell what the log tells after one row changed with one matching event. */
  lemma LoggedChange(ds: DispatchTable, ds': DispatchTable, log: seq<Event>, e: Event)
    requires Told(ds, log)
    requires forall id: Id :: id != e.id ==> (id in ds <==> id in ds') && (id in ds ==> ds'[id] == ds[id])
    requires Tells(ds', e.id, Step(LifeOf(log, e.id), e))
    ensures Told(ds', log + [e])
  {
    forall id: Id ensures Tells(ds', id, LifeOf(log + [e], id)) {
      LifeOfAppend(log, e, id);
      assert Tells(ds, id, LifeOf(log, id));
    }
  }

  lemma StartStep(s: Runtime)
    requires Inv(s) && WorkerEnabled(s, StartCommit)
    ensures Inv(WorkerAfter(s, StartCommit))
  {
    var ds, id, now := s.disk.store.dispatches, s.worker.id, s.clock.now;
    if RunnableIn(ds, id, now) {
      var ds' := ds[id := StartedRow(ds[id], now)];
      var e := Started(id, ds'[id].attempts, now);
      assert Tells(ds, id, LifeOf(s.disk.log, id));
      LoggedChange(ds, ds', s.disk.log, e);
      LifeOfAppend(s.disk.log, e, id);
    }
  }

  lemma LaunchStep(s: Runtime)
    requires Inv(s) && WorkerEnabled(s, Launch)
    ensures Inv(WorkerAfter(s, Launch))
  {
    var ds, id := s.disk.store.dispatches, s.worker.id;
    var e := Launched(id, ds[id].attempts);
    assert Tells(ds, id, LifeOf(s.disk.log, id));
    LoggedChange(ds, ds, s.disk.log, e);
    LifeOfAppend(s.disk.log, e, id);
  }

  /** Settling a running row with a verdict its attempt allows. */
  lemma SettleRow(ds: DispatchTable, log: seq<Event>, id: Id, d: Dispatch, now: real)
    requires RowsOk(ds) && Told(ds, log) && RunningIn(ds, id)
    requires RowOk(d) && d.attempts == ds[id].attempts
    requires Verdict(d.attempts, d.state, HasLaunched(LifeOf(log, id)))
    requires d.state.Retry? ==> d.nextRetryAt == Some(now + RetryDelay(d.attempts))
    ensures RowsOk(ds[id := d]) && Told(ds[id := d], log + [Settled(id, d.attempts, d.state, now)])
    ensures HasLaunched(LifeOf(log + [Settled(id, d.attempts, d.state, now)], id)) == HasLaunched(LifeOf(log, id))
  {
    var e := Settled(id, d.attempts, d.state, now);
    assert Tells(ds, id, LifeOf(log, id));
    LoggedChange(ds, ds[id := d], log, e);
    LifeOfAppend(log, e, id);
  }

  /** Rows that are not running keep what waits for them. */
  lemma SettleKeepsWaiting(s: Runtime, id: Id, d: Dispatch, s': Runtime)
    requires WaitingIsRunnable(s) && RunningIn(s.disk.store.dispatches, id)
    requires s'.disk.store.dispatches == s.disk.store.dispatches[id := d]
    requires s'.clock == s.clock && s'.shared == s.shared
    requires s'.worker == s.worker || !(s'.worker.Held? || s'.worker.Starting? || s'.worker.Refused?)
    requires s'.main == s.main || MainNow(s'.main).None?
    ensures WaitingIsRunnable(s')
  {
  }

  lemma FinishedRowOk(d: Dispatch, returnCode: Option<int>, error: Option<string>, uncertain: bool, now: real, launched: bool)
    requires RowOk(d) && d.state.Running? && (returnCode.Some? ==> launched)
    ensures var d' := FinishedRow(d, returnCode, error, uncertain, now);
      && RowOk(d') && d'.attempts == d.attempts && !d'.state.Running?
      && Verdict(d'.attempts, d'.state, launched)
      && (d'.state.Retry? ==> d'.nextRetryAt == Some(now + RetryDelay(d'.attempts)))
  {
  }

  lemma ReleaseCustody(s: Runtime, s': Runtime, d: Dispatch)
    requires QueueOk(s) && CustodyOk(s) && ThreadsOk(s) && s.worker.Finishing? && !s.main.Down?
    requires s' == s.(disk := s'.disk, worker := Clearing(s.worker.id, s.worker.processStarted)) && !d.state.Running?
    requires s'.disk.store.dispatches == s.disk.store.dispatches[s.worker.id := d]
    ensures QueueOk(s') && CustodyOk(s') && ThreadsOk(s') && LaunchOk(s')
  {
  }

  lemma FinishStep(s: Runtime)
    requires Inv(s) && WorkerEnabled(s, FinishCommit)
    ensures Inv(WorkerAfter(s, FinishCommit))
  {
    var ds, w, now := s.disk.store.dispatches, s.worker, s.clock.now;
    var s' := WorkerAfter(s, FinishCommit);
    if RunningIn(ds, w.id) {
      var d := FinishedRow(ds[w.id], w.returnCode, w.error, w.uncertain, now);
      FinishedRowOk(ds[w.id], w.returnCode, w.error, w.uncertain, now, HasLaunched(LifeOf(s.disk.log, w.id)));
      SettleRow(ds, s.disk.log, w.id, d, now);
      SettleKeepsWaiting(s, w.id, d, s');
      ReleaseCustody(s, s', d);
    } else {
      assert s' == s.(worker := Dying(Some(w.id)));
    }
  }

  lemma AbandonStep(s: Runtime, s': Runtime, id: Id)
    requires Inv(s) && RunningIn(s.disk.store.dispatches, id) && s.main.GivingUp?
    requires s' == s.(disk := Abandon(s.disk, id, s.clock.now), main := Raised(true))
    ensures Inv(s')
  {
    var ds, now := s.disk.store.dispatches, s.clock.now;
    var d := AbandonedRow(ds[id], "listener shutdown could not prove action custody settlement", now);
    SettleRow(ds, s.disk.log, id, d, now);
    SettleKeepsWaiting(s, id, d, s');
    assert Custody(s.worker) == Some(id);
  }

  lemma GiveUpStep(digest: Digest, s: Runtime, marked: bool)
    requires Inv(s) && s.main.GivingUp?
    ensures Inv(MainAfter(digest, s, GiveUp(marked)))
  {
    if marked && s.main.sampled.Some? && RunningIn(s.disk.store.dispatches, s.main.sampled.value) {
      AbandonStep(s, MainAfter(digest, s, GiveUp(marked)), s.main.sampled.value);
    } else {
      RaiseStep(s, MainAfter(digest, s, GiveUp(marked)));
    }
  }

  lemma RaiseStep(s: Runtime, s': Runtime)
    requires Inv(s) && s.main.GivingUp? && s' == s.(main := Raised(true))
    ensures Inv(s')
  {
  }

  /** `create` settles the one running row there can be. */
  lemma RecoverDisk(d: Disk, c: Option<Id>, now: real)
    requires RowsOk(d.store.dispatches) && Told(d.store.dispatches, d.log)
    requires forall id :: RunningIn(d.store.dispatches, id) ==> c == Some(id)
    ensures var d' := Recover(d, c, now); RowsOk(d'.store.dispatches) && Told(d'.store.dispatches, d'.log)
    ensures c.Some? ==> HasLaunched(LifeOf(Recover(d, c, now).log, c.value)) == HasLaunched(LifeOf(d.log, c.value))
  {
    var ds := d.store.dispatches;
    assert forall id :: id in ds && c != Some(id) ==> !RunningIn(ds, id);
    if c.Some? && RunningIn(ds, c.value) {
      SettleRow(ds, d.log, c.value, RecoveredRow(ds[c.value]), now);
      assert RecoverRunning(ds) == ds[c.value := RecoveredRow(ds[c.value])];
    } else {
      assert RecoverRunning(ds) == ds;
    }
  }

  lemma BootStep(s: Runtime)
    requires Inv(s) && WorldEnabled(s, Boot)
    ensures Inv(WorldAfter(s, Boot))
  {
    RecoverDisk(s.disk, Custody(s.worker), s.clock.now);
    RecoverLeavesNoneRunning(s.disk, Custody(s.worker), s.clock.now);
    FreshThreads(WorldAfter(s, Boot));
  }

  /** The installer's `create` takes the worker's row away and leaves everything else alone. */
  lemma InstallerCreateStep(s: Runtime)
    requires Inv(s)
    ensures Inv(WorldAfter(s, InstallerCreate))
  {
    RecoverDisk(s.disk, Custody(s.worker), s.clock.now);
    RecoverLeavesNoneRunning(s.disk, Custody(s.worker), s.clock.now);
    RecoverKeepsWaiting(s);
    RecoverKeepsLaunch(s);
  }

  lemma RecoverKeepsWaiting(s: Runtime)
    requires WaitingIsRunnable(s)
    ensures WaitingIsRunnable(WorldAfter(s, InstallerCreate))
  {
  }

  lemma RecoverKeepsLaunch(s: Runtime)
    requires LaunchOk(s)
    requires Custody(s.worker).Some? ==>
      var c := Custody(s.worker);
      HasLaunched(LifeOf(Recover(s.disk, c, s.clock.now).log, c.value)) == HasLaunched(LifeOf(s.disk.log, c.value))
    ensures LaunchOk(WorldAfter(s, InstallerCreate))
  {
  }

  lemma RecoverLeavesNoneRunning(d: Disk, c: Option<Id>, now: real)
    ensures forall id :: !RunningIn(Recover(d, c, now).store.dispatches, id)
  {
  }

  /** Threads that have not begun keep the invariant of any settled disk. */
  lemma FreshThreads(s: Runtime)
    requires RowsOk(s.disk.store.dispatches) && LogOk(s)
    requires forall id :: !RunningIn(s.disk.store.dispatches, id)
    requires s.shared.queue == [] && s.shared.queued == {}
    requires s.main == Looping && s.worker == Idle
    ensures Inv(s)
  {
  }

  /** An observation keeps old rows and adds only queued ones. */
  lemma ObserveRows(digest: Digest, s: Store, ms: seq<Mount>, planner: Mount -> Plan, now: real, id: Id)
    requires Distinct(ms)
    ensures var ds, ds' := s.dispatches, Observed(digest, s, ms, planner, now).dispatches;
      && (id in ds ==> id in ds' && ds'[id] == ds[id])
      && (id in ds' && id !in ds ==> ds'[id].state.Queued? && RowOk(ds'[id]))
  {
    var departed := Store(Depart(s.mounts, ms), s.dispatches);
    if id in s.dispatches {
      ArriveAllKeepsRows(digest, departed, ms, planner, now, id);
    } else if id in Observed(digest, s, ms, planner, now).dispatches {
      ArriveAllNewRows(digest, departed, ms, planner, now, id);
    }
  }

  lemma ObserveStep(digest: Digest, s: Runtime, found: seq<Mount>, planner: Mount -> Plan)
    requires Inv(s) && MainEnabled(s, Observe(found, planner))
    ensures Inv(MainAfter(digest, s, Observe(found, planner)))
  {
    var s' := MainAfter(digest, s, Observe(found, planner));
    var ds, ds' := s.disk.store.dispatches, s'.disk.store.dispatches;
    forall id: Id
      ensures id in ds ==> id in ds' && ds'[id] == ds[id]
      ensures id in ds' && id !in ds ==> ds'[id].state.Queued? && RowOk(ds'[id])
    {
      ObserveRows(digest, s.disk.store, Dedup(found), planner, s.main.now, id);
    }
    NewRowsStep(s, s');
  }

  /** Adding queued rows to the store keeps everything. */
  lemma NewRowsStep(s: Runtime, s': Runtime)
    requires Inv(s) && s.main.Discovering? && s' == s.(disk := s.disk.(store := s'.disk.store), main := s'.main)
    requires s'.main == SamplingActive(s.main.now)
    requires var ds, ds' := s.disk.store.dispatches, s'.disk.store.dispatches;
      && (forall id :: id in ds ==> id in ds' && ds'[id] == ds[id])
      && (forall id :: id in ds' && id !in ds ==> ds'[id].state.Queued? && RowOk(ds'[id]))
    ensures Inv(s')
  {
    var ds, ds' := s.disk.store.dispatches, s'.disk.store.dispatches;
    forall id: Id ensures Tells(ds', id, LifeOf(s'.disk.log, id)) {
      assert Tells(ds, id, LifeOf(s.disk.log, id));
    }
    assert forall id :: RunningIn(ds', id) ==> RunningIn(ds, id);
  }

  // --------------------------------------------------------------------- every run

  lemma StepKeepsInv(digest: Digest, s: Runtime, l: Label)
    requires Inv(s) && Enabled(s, l)
    ensures Inv(After(digest, s, l))
  {
    match l
    case World(w) =>
      if QuietWorld(w) { QuietWorldStep(s, w); } else if w.Boot? { BootStep(s); } else { InstallerCreateStep(s); }
    case MainDoes(m) =>
      if m.Observe? {
        ObserveStep(digest, s, m.found, m.planner);
      } else if m.GiveUp? {
        GiveUpStep(digest, s, m.marked);
      } else {
        QuietMainFrame(digest, s, m);
        QuietMainQueue(digest, s, m);
        QuietMainWaiting(digest, s, m);
        QuietMainThreads(digest, s, m);
      }
    case WorkerDoes(w) =>
      if w.StartCommit? {
        StartStep(s);
      } else if w.Launch? {
        LaunchStep(s);
      } else if w.FinishCommit? {
        FinishStep(s);
      } else {
        QuietWorkerQueue(s, w);
        QuietWorkerWaiting(s, w);
        QuietWorkerThreads(s, w);
        QuietWorkerCustody(s, w);
        QuietWorkerLaunch(s, w);
      }
  }

  /** The invariant holds at the end of every run, and so at every moment of every run. */
  lemma {:induction false} EveryRunIsSafe(digest: Digest, labels: seq<Label>)
    ensures Inv(Run(digest, labels))
  {
    if labels == [] {
      InitialIsSafe();
    } else {
      EveryRunIsSafe(digest, labels[..|labels| - 1]);
      var s, l := Run(digest, labels[..|labels| - 1]), labels[|labels| - 1];
      if Enabled(s, l) {
        StepKeepsInv(digest, s, l);
      }
    }
  }

  lemma InitialIsSafe()
    ensures Inv(INITIAL)
  {
  }

  /** The log of every run follows the life cycle of a dispatch, for every dispatch. */
  lemma EveryLogIsLegal(digest: Digest, labels: seq<Label>)
    ensures Legal(Run(digest, labels).disk.log)
  {
    var s := Run(digest, labels);
    EveryRunIsSafe(digest, labels);
    forall id: Id ensures !LifeOf(s.disk.log, id).Broken? {
      assert Tells(s.disk.store.dispatches, id, LifeOf(s.disk.log, id));
    }
  }
}
