/** Runs in which an action is launched after its dispatch was recorded as `uncertain`. */
module LateLaunchRuns {
  import opened Wrappers
  import opened Dispatches
  import opened Observation
  import opened DispatchLife
  import opened ListenerRuntime
  import opened ListenerSafety

  ghost predicate Reaches(digest: Digest, s: Runtime)
  {
    exists labels :: Run(digest, labels) == s
  }

  lemma Go(digest: Digest, s: Runtime, l: Label, s': Runtime)
    requires Reaches(digest, s) && Enabled(s, l) && After(digest, s, l) == s'
    ensures Reaches(digest, s')
  {
    var labels :| Run(digest, labels) == s;
    assert (labels + [l])[..|labels + [l]| - 1] == labels;
    assert Run(digest, labels + [l]) == s';
  }

  const VOLUME: Mount := "/m"
  const READY := Ready("k", "r", "{}")

  function OnlyId(digest: Digest): Id { DispatchId(digest, VOLUME, 1, "k") }

  function OnlyRow(): Dispatch { NewDispatch(VOLUME, 1, READY, 0.0) }

  type Mounts = map<Mount, ObservedMount>

  /** A listener whose store has one row, as given. */
  function Saw(ms: Mounts, id: Id, d: Dispatch, log: seq<Event>, shared: Shared, main: Main, worker: Worker): Runtime
  {
    Runtime(Disk(Store(ms, map[id := d]), log), Clock(0.0, true), shared, main, worker)
  }

  /** The listener has just observed its one mount. */
  ghost predicate Observing(digest: Digest, ms: Mounts, id: Id, d: Dispatch)
  {
    d.state.Queued? && d.attempts == 0 &&
    Reaches(digest, Saw(ms, id, d, [], NOTHING_SHARED, SamplingActive(0.0), Idle))
  }

  lemma ObserveOne(digest: Digest, planner: Mount -> Plan)
    requires planner(VOLUME) == READY
    ensures Observed(digest, EMPTY, Dedup([VOLUME]), planner, 0.0)
         == Store(map[VOLUME := ObservedMount(true, 1, Some("k"))],
                  map[DispatchId(digest, VOLUME, 1, "k") := NewDispatch(VOLUME, 1, READY, 0.0)])
  {
    assert [VOLUME][..0] == [];
    assert Dedup([VOLUME]) == [VOLUME];
    assert Depart(map[], [VOLUME]) == map[];
    assert ArriveAll(digest, EMPTY, [VOLUME][..0], planner, 0.0) == EMPTY;
  }

  lemma SawOne(digest: Digest) returns (ms: Mounts)
    ensures Observing(digest, ms, OnlyId(digest), OnlyRow())
  {
    var planner := (m: Mount) => READY;
    ms := map[VOLUME := ObservedMount(true, 1, Some("k"))];
    assert RecoverRunning(map[]) == map[];
    assert Run(digest, []) == INITIAL;
    var booted := INITIAL.(main := Looping, worker := Idle);
    Go(digest, INITIAL, World(Boot), booted);
    Go(digest, booted, MainDoes(EnterOnce), booted.(main := Polled(0.0)));
    Go(digest, booted.(main := Polled(0.0)), MainDoes(CheckConfig(true)), booted.(main := Discovering(0.0)));
    ObserveOne(digest, planner);
    Go(digest, booted.(main := Discovering(0.0)), MainDoes(Observe([VOLUME], planner)),
       Saw(ms, OnlyId(digest), OnlyRow(), [], NOTHING_SHARED, SamplingActive(0.0), Idle));
  }

  lemma SelectedOne(digest: Digest, ms: Mounts, id: Id, d: Dispatch)
    requires Observing(digest, ms, id, d)
    ensures Reaches(digest, Saw(ms, id, d, [], NOTHING_SHARED, Enqueuing(0.0, [id]), Idle))
  {
    var sh := NOTHING_SHARED;
    Go(digest, Saw(ms, id, d, [], sh, SamplingActive(0.0), Idle), MainDoes(SampleActive),
       Saw(ms, id, d, [], sh, SamplingQueued(0.0, false), Idle));
    Go(digest, Saw(ms, id, d, [], sh, SamplingQueued(0.0, false), Idle), MainDoes(SampleQueued),
       Saw(ms, id, d, [], sh, Selecting(0.0, 1), Idle));
    assert IsSelection(map[id := d], 0.0, 1, [id]);
    Go(digest, Saw(ms, id, d, [], sh, Selecting(0.0, 1), Idle), MainDoes(Select([id])),
       Saw(ms, id, d, [], sh, Enqueuing(0.0, [id]), Idle));
  }

  lemma QueuedOne(digest: Digest, ms: Mounts, id: Id, d: Dispatch)
    requires Observing(digest, ms, id, d)
    ensures Reaches(digest, Saw(ms, id, d, [], NOTHING_SHARED.(queue := [id], queued := {id}), Beating, Idle))
  {
    var sh := NOTHING_SHARED;
    SelectedOne(digest, ms, id, d);
    EnqueueOne(sh, [id]);
    Go(digest, Saw(ms, id, d, [], sh, Enqueuing(0.0, [id]), Idle), MainDoes(Enqueue),
       Saw(ms, id, d, [], sh.(queue := [id], queued := {id}), Beating, Idle));
  }

  lemma AboutToStart(digest: Digest, ms: Mounts, id: Id, d: Dispatch)
    requires Observing(digest, ms, id, d)
    ensures Reaches(digest, Saw(ms, id, StartedRow(d, 0.0), [Started(id, 1, 0.0)],
              NOTHING_SHARED.(queued := {id}), Beating, Begun(id)))
  {
    var d', sh := StartedRow(d, 0.0), NOTHING_SHARED.(queued := {id});
    QueuedOne(digest, ms, id, d);
    Go(digest, Saw(ms, id, d, [], sh.(queue := [id]), Beating, Idle), WorkerDoes(Dequeue),
       Saw(ms, id, d, [], sh, Beating, Held(id)));
    Go(digest, Saw(ms, id, d, [], sh, Beating, Held(id)), WorkerDoes(Proceed),
       Saw(ms, id, d, [], sh, Beating, Starting(id)));
    assert map[id := d][id := d'] == map[id := d'];
    Go(digest, Saw(ms, id, d, [], sh, Beating, Starting(id)), WorkerDoes(StartCommit),
       Saw(ms, id, d', [Started(id, 1, 0.0)], sh, Beating, Begun(id)));
  }

  lemma AboutToLaunch(digest: Digest, ms: Mounts, id: Id, d: Dispatch)
    requires Observing(digest, ms, id, d)
    ensures Reaches(digest, Saw(ms, id, StartedRow(d, 0.0), [Started(id, 1, 0.0)],
              NOTHING_SHARED.(active := Some(id)), Beating, Launching(id)))
  {
    var d', log, sh := StartedRow(d, 0.0), [Started(id, 1, 0.0)], NOTHING_SHARED;
    AboutToStart(digest, ms, id, d);
    Go(digest, Saw(ms, id, d', log, sh.(queued := {id}), Beating, Begun(id)), WorkerDoes(Unqueue),
       Saw(ms, id, d', log, sh, Beating, Claiming(id)));
    Go(digest, Saw(ms, id, d', log, sh, Beating, Claiming(id)), WorkerDoes(SetActive),
       Saw(ms, id, d', log, sh.(active := Some(id)), Beating, Publishing(id)));
    Go(digest, Saw(ms, id, d', log, sh.(active := Some(id)), Beating, Publishing(id)), WorkerDoes(WorkerBeats),
       Saw(ms, id, d', log, sh.(active := Some(id)), Beating, Deciding(id)));
    Go(digest, Saw(ms, id, d', log, sh.(active := Some(id)), Beating, Deciding(id)), WorkerDoes(Decide),
       Saw(ms, id, d', log, sh.(active := Some(id)), Beating, Launching(id)));
  }

  lemma AboutToGiveUp(digest: Digest, ms: Mounts, id: Id, d: Dispatch)
    requires Observing(digest, ms, id, d)
    ensures Reaches(digest, Saw(ms, id, StartedRow(d, 0.0), [Started(id, 1, 0.0)],
              NOTHING_SHARED.(active := Some(id), stop := true), GivingUp(Some(id)), Launching(id)))
  {
    var d', log := StartedRow(d, 0.0), [Started(id, 1, 0.0)];
    var sh := NOTHING_SHARED.(active := Some(id));
    var sh' := sh.(stop := true);
    AboutToLaunch(digest, ms, id, d);
    Go(digest, Saw(ms, id, d', log, sh, Beating, Launching(id)), MainDoes(MainRaises),
       Saw(ms, id, d', log, sh, Stopping(true), Launching(id)));
    Go(digest, Saw(ms, id, d', log, sh, Stopping(true), Launching(id)), MainDoes(RequestStop),
       Saw(ms, id, d', log, sh', Settling(true), Launching(id)));
    Go(digest, Saw(ms, id, d', log, sh', Settling(true), Launching(id)), MainDoes(SampleCustody),
       Saw(ms, id, d', log, sh', Judging(true, Some(id), false), Launching(id)));
    Go(digest, Saw(ms, id, d', log, sh', Judging(true, Some(id), false), Launching(id)), MainDoes(Judge),
       Saw(ms, id, d', log, sh', GivingUp(Some(id)), Launching(id)));
  }

  lemma LaunchAfterGivingUp(digest: Digest, ms: Mounts, id: Id, d: Dispatch) returns (s: Runtime)
    requires Observing(digest, ms, id, d)
    ensures Reaches(digest, s)
    ensures s.disk.log == [Started(id, 1, 0.0), Settled(id, 1, Uncertain, 0.0), Launched(id, 1)]
  {
    var before := Saw(ms, id, StartedRow(d, 0.0), [Started(id, 1, 0.0)],
                      NOTHING_SHARED.(active := Some(id), stop := true), GivingUp(Some(id)), Launching(id));
    AboutToGiveUp(digest, ms, id, d);
    var given := MainAfter(digest, before, GiveUp(true));
    assert given == before.(disk := Abandon(before.disk, id, 0.0), main := Raised(true));
    Go(digest, before, MainDoes(GiveUp(true)), given);
    s := WorkerAfter(given, Launch);
    Go(digest, given, WorkerDoes(Launch), s);
  }

  /** While the worker is between its stop check and the creation of the process, the main thread can give up
      and record `uncertain`, and the action is launched afterwards. */
  lemma AbandonedLaunchHappens(digest: Digest) returns (s: Runtime)
    ensures Reaches(digest, s)
    ensures s.disk.log == [Started(OnlyId(digest), 1, 0.0), Settled(OnlyId(digest), 1, Uncertain, 0.0),
                           Launched(OnlyId(digest), 1)]
  {
    var ms := SawOne(digest);
    s := LaunchAfterGivingUp(digest, ms, OnlyId(digest), OnlyRow());
  }

  lemma LaunchAfterCreate(digest: Digest, ms: Mounts, id: Id, d: Dispatch) returns (s: Runtime)
    requires Observing(digest, ms, id, d)
    ensures Reaches(digest, s) && InTry(s.main)
    ensures s.disk.log == [Started(id, 1, 0.0), Settled(id, 1, Uncertain, 0.0), Launched(id, 1)]
  {
    var before := Saw(ms, id, StartedRow(d, 0.0), [Started(id, 1, 0.0)],
                      NOTHING_SHARED.(active := Some(id)), Beating, Launching(id));
    AboutToLaunch(digest, ms, id, d);
    var log := [Started(id, 1, 0.0), Settled(id, 1, Uncertain, 0.0)];
    RecoverOne(ms, id, StartedRow(d, 0.0), [Started(id, 1, 0.0)], log);
    var created := Saw(ms, id, RecoveredRow(StartedRow(d, 0.0)), log, NOTHING_SHARED.(active := Some(id)), Beating, Launching(id));
    Go(digest, before, World(InstallerCreate), created);
    s := WorkerAfter(created, Launch);
    Go(digest, created, WorkerDoes(Launch), s);
  }

  lemma RecoverOne(ms: Mounts, id: Id, d: Dispatch, log: seq<Event>, log': seq<Event>)
    requires d.state.Running? && log' == log + [Settled(id, d.attempts, Uncertain, 0.0)]
    ensures Recover(Disk(Store(ms, map[id := d]), log), Some(id), 0.0) == Disk(Store(ms, map[id := RecoveredRow(d)]), log')
  {
    assert RecoverRunning(map[id := d]) == map[id := RecoveredRow(d)];
  }

  /** The installer's `create` beside a live process does the same, with no thread of it stopping. */
  lemma RevokedByCreateHappens(digest: Digest) returns (s: Runtime)
    ensures Reaches(digest, s) && InTry(s.main)
    ensures s.disk.log == [Started(OnlyId(digest), 1, 0.0), Settled(OnlyId(digest), 1, Uncertain, 0.0),
                           Launched(OnlyId(digest), 1)]
  {
    var ms := SawOne(digest);
    s := LaunchAfterCreate(digest, ms, OnlyId(digest), OnlyRow());
  }
}
