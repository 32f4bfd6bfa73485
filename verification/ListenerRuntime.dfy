/** The running listener: a main thread, a worker thread and the state they share, as a labelled
    transition system. Every access to shared state is one step, so a run is any interleaving of the
    two threads with clock changes, stop signals, process exits, crashes and restarts. Outcomes the
    listener does not control are chosen by the label. */
module ListenerRuntime {
  import opened Wrappers
  import opened Dispatches
  import opened Observation
  import StoreHistory
  import opened DispatchLife

  /** Where the worker thread is. A phase names the next thing it will do. */
  datatype Worker =
    | Idle
    | Held(id: Id)
    | Starting(id: Id)
    | Refused(id: Id)
    | Begun(id: Id)
    | Claiming(id: Id)
    | Publishing(id: Id)
    | Deciding(id: Id)
    | Launching(id: Id)
    | Registering(id: Id)
    | Waiting(id: Id)
    | Reporting(id: Id, returnCode: Option<int>, error: Option<string>, processStarted: bool)
    | Finishing(id: Id, returnCode: Option<int>, error: Option<string>, uncertain: bool, processStarted: bool)
    | Clearing(id: Id, processStarted: bool)
    | Announcing
    | Dying(custody: Option<Id>)
    | Alarming(custody: Option<Id>)
    | Dead(custody: Option<Id>)
    | Done

  /** Where the main thread is. `raised` says an exception is travelling through the `finally`. */
  datatype Main =
    | Down
    | Looping
    | Polled(now: real)
    | Discovering(now: real)
    | SamplingActive(now: real)
    | SamplingQueued(now: real, active: bool)
    | Selecting(now: real, limit: int)
    | Enqueuing(now: real, ids: seq<Id>)
    | Beating
    | Pausing
    | Stopping(raised: bool)
    | Settling(raised: bool)
    | Judging(raised: bool, sampled: Option<Id>, processLive: bool)
    | GivingUp(sampled: Option<Id>)
    | Concluding(raised: bool)
    | Returned
    | Raised(gaveUp: bool)

  datatype Process = NoProcess | Live | Exited

  /** What survives a crash: the database, and with it the history of the run. */
  datatype Disk = Disk(store: Store, log: seq<Event>)

  /** `steady` remembers that the clock never went backwards. */
  datatype Clock = Clock(now: real, steady: bool)

  /** The fields the two threads share. */
  datatype Shared = Shared(
    queue: seq<Id>,
    queued: set<Id>,
    active: Option<Id>,
    process: Process,
    stop: bool,
    failure: bool,
    configValid: bool)

  datatype Runtime = Runtime(disk: Disk, clock: Clock, shared: Shared, main: Main, worker: Worker)

  const NOTHING_SHARED := Shared([], {}, None, NoProcess, false, false, true)
  const INITIAL := Runtime(Disk(EMPTY, []), Clock(0.0, true), NOTHING_SHARED, Down, Dead(None))

  datatype Label = World(world: WorldLabel) | MainDoes(act: MainLabel) | WorkerDoes(deed: WorkerLabel)

  datatype WorldLabel =
    | Tick(t: real)
    | Signal
    | ProcessExits
    | Crash
    | InstallerCreate
    | Boot

  datatype MainLabel =
    | EnterOnce
    | LeaveLoop
    | CheckConfig(valid: bool)
    | DiscoveryFails
    | Observe(found: seq<Mount>, planner: Mount -> Plan)
    | SampleActive
    | SampleQueued
    | Select(ids: seq<Id>)
    | Enqueue
    | MainBeats
    | Wake(stopFile: bool)
    | MainRaises
    | RequestStop
    | SampleCustody
    | Judge
    | GiveUp(marked: bool)
    | Conclude(beatOk: bool)

  datatype WorkerLabel =
    | Dequeue
    | Quit
    | Proceed
    | DropHeld
    | StartCommit
    | Unqueue
    | SetActive
    | WorkerBeats
    | Decide
    | LaunchFails(message: string)
    | Launch
    | Register
    | WaitFails(message: string)
    | WaitReturns(code: int)
    | Classify
    | FinishCommit
    | ClearActive
    | Announce
    | WorkerRaises
    | RecordFailure
    | Alarm

  // ------------------------------------------------------------- the threads

  /** The thread has not ended. */
  predicate Alive(w: Worker) { !w.Dead? && !w.Done? }

  /** The worker is inside `_worker`, where an exception can start. */
  predicate Working(w: Worker) { Alive(w) && !w.Dying? && !w.Alarming? }

  /** The dispatch whose running row this worker answers for. */
  function Custody(w: Worker): Option<Id>
  {
    match w
    case Begun(id) => Some(id)
    case Claiming(id) => Some(id)
    case Publishing(id) => Some(id)
    case Deciding(id) => Some(id)
    case Launching(id) => Some(id)
    case Registering(id) => Some(id)
    case Waiting(id) => Some(id)
    case Reporting(id, _, _, _) => Some(id)
    case Finishing(id, _, _, _, _) => Some(id)
    case Dying(c) => c
    case Alarming(c) => c
    case Dead(c) => c
    case _ => None
  }

  /** The dispatch taken from the queue but not yet removed from `_queued`. */
  function Taken(w: Worker): Option<Id>
  {
    match w
    case Held(id) => Some(id)
    case Starting(id) => Some(id)
    case Refused(id) => Some(id)
    case Begun(id) => Some(id)
    case _ => None
  }

  /** Inside the `try` of `run`, where an exception leads to the `finally`. */
  predicate InTry(m: Main)
  {
    m.Looping? || m.Polled? || m.Discovering? || m.SamplingActive? || m.SamplingQueued? || m.Selecting?
    || m.Enqueuing? || m.Beating? || m.Pausing?
  }

  // --------------------------------------------------------------- the world

  predicate WorldEnabled(s: Runtime, l: WorldLabel)
  {
    match l
    case Tick(_) => true
    case Signal => !s.main.Down?
    case ProcessExits => s.shared.process.Live?
    case Crash => !s.main.Down?
    case InstallerCreate => true
    case Boot => s.main.Down?
  }

  /** `create`: every running row becomes uncertain. */
  function Recover(d: Disk, custody: Option<Id>, now: real): Disk
  {
    var ds := d.store.dispatches;
    Disk(d.store.(dispatches := RecoverRunning(ds)),
         if custody.Some? && RunningIn(ds, custody.value)
         then d.log + [Settled(custody.value, ds[custody.value].attempts, Uncertain, now)] else d.log)
  }

  /** A new process starts only after the old one is gone, because it takes the lock. The installer creates the
      store without the lock, so its `create` may run beside a live process. */
  function WorldAfter(s: Runtime, l: WorldLabel): Runtime
    requires WorldEnabled(s, l)
  {
    match l
    case Tick(t) => s.(clock := Clock(t, s.clock.steady && s.clock.now <= t))
    case Signal => s.(shared := s.shared.(stop := true))
    case ProcessExits => s.(shared := s.shared.(process := Exited))
    case Crash => Runtime(s.disk, s.clock, NOTHING_SHARED, Down, Dead(Custody(s.worker)))
    case InstallerCreate => s.(disk := Recover(s.disk, Custody(s.worker), s.clock.now))
    case Boot =>
      Runtime(Recover(s.disk, Custody(s.worker), s.clock.now), s.clock, NOTHING_SHARED, Looping, Idle)
  }

  // --------------------------------------------------------- the main thread

  function Available(shared: Shared, active: bool): int
  {
    1 - |shared.queued| - if active then 1 else 0
  }

  ghost predicate MainEnabled(s: Runtime, l: MainLabel)
  {
    match l
    case EnterOnce => s.main.Looping? && !s.shared.stop
    case LeaveLoop => s.main.Looping? && s.shared.stop
    case CheckConfig(_) => s.main.Polled?
    case DiscoveryFails => s.main.Discovering?
    case Observe(found, planner) => s.main.Discovering? && StoreHistory.Commits(found, planner)
    case SampleActive => s.main.SamplingActive?
    case SampleQueued => s.main.SamplingQueued?
    case Select(ids) => s.main.Selecting? && IsSelection(s.disk.store.dispatches, s.main.now, s.main.limit, ids)
    case Enqueue => s.main.Enqueuing?
    case MainBeats => s.main.Beating?
    case Wake(_) => s.main.Pausing?
    case MainRaises => InTry(s.main)
    case RequestStop => s.main.Stopping?
    case SampleCustody => s.main.Settling?
    case Judge => s.main.Judging?
    case GiveUp(_) => s.main.GivingUp?
    case Conclude(_) => s.main.Concluding?
  }

  function EnqueueAll(shared: Shared, ids: seq<Id>): Shared
  {
    if ids == [] then shared
    else
      var r, id := EnqueueAll(shared, ids[..|ids| - 1]), ids[|ids| - 1];
      if id in r.queued then r else r.(queued := r.queued + {id}, queue := r.queue + [id])
  }

  /** `mark_running_uncertain`. */
  function Abandon(d: Disk, id: Id, now: real): Disk
  {
    var ds := d.store.dispatches;
    Disk(d.store.(dispatches := MarkRunningUncertain(ds, id,
           "listener shutdown could not prove action custody settlement", now)),
         if RunningIn(ds, id) then d.log + [Settled(id, ds[id].attempts, Uncertain, now)] else d.log)
  }

  ghost function MainAfter(digest: Digest, s: Runtime, l: MainLabel): Runtime
    requires MainEnabled(s, l)
  {
    match l
    case EnterOnce => s.(main := Polled(s.clock.now))
    case LeaveLoop => s.(main := Stopping(false))
    case CheckConfig(valid) =>
      s.(shared := s.shared.(configValid := valid), main := if valid then Discovering(s.main.now) else Beating)
    case DiscoveryFails => s.(main := SamplingActive(s.main.now))
    case Observe(found, planner) =>
      s.(disk := s.disk.(store := Observed(digest, s.disk.store, Dedup(found), planner, s.main.now)),
         main := SamplingActive(s.main.now))
    case SampleActive => s.(main := SamplingQueued(s.main.now, s.shared.active.Some?))
    case SampleQueued =>
      var available := Available(s.shared, s.main.active);
      s.(main := if available > 0 then Selecting(s.main.now, available) else Beating)
    case Select(ids) => s.(main := Enqueuing(s.main.now, ids))
    case Enqueue => s.(shared := EnqueueAll(s.shared, s.main.ids), main := Beating)
    case MainBeats => s.(main := Pausing)
    case Wake(stopFile) => s.(shared := s.shared.(stop := s.shared.stop || stopFile), main := Looping)
    case MainRaises => s.(main := Stopping(true))
    case RequestStop => s.(shared := s.shared.(stop := true), main := Settling(s.main.raised))
    case SampleCustody => s.(main := Judging(s.main.raised, s.shared.active, s.shared.process.Live?))
    case Judge =>
      s.(main := if Alive(s.worker) || s.main.processLive then GivingUp(s.main.sampled) else Concluding(s.main.raised))
    case GiveUp(marked) =>
      s.(disk := if marked && s.main.sampled.Some? then Abandon(s.disk, s.main.sampled.value, s.clock.now) else s.disk,
         main := Raised(true))
    case Conclude(beatOk) =>
      s.(main := if beatOk && !s.main.raised && !s.shared.failure then Returned else Raised(false))
  }

  // ------------------------------------------------------- the worker thread

  predicate WorkerEnabled(s: Runtime, l: WorkerLabel)
  {
    !s.main.Down? &&
    match l
    case Dequeue => s.worker.Idle? && !s.shared.stop && s.shared.queue != []
    case Quit => s.worker.Idle? && s.shared.stop
    case Proceed => s.worker.Held? && s.shared.configValid && !s.shared.stop
    case DropHeld => s.worker.Held? && s.shared.stop
    case StartCommit => s.worker.Starting?
    case Unqueue => s.worker.Begun? || s.worker.Refused?
    case SetActive => s.worker.Claiming?
    case WorkerBeats => s.worker.Publishing?
    case Decide => s.worker.Deciding?
    case LaunchFails(_) => s.worker.Launching?
    case Launch => s.worker.Launching? && s.worker.id in s.disk.store.dispatches
    case Register => s.worker.Registering?
    case WaitFails(_) => s.worker.Waiting?
    case WaitReturns(_) => s.worker.Waiting?
    case Classify => s.worker.Reporting?
    case FinishCommit => s.worker.Finishing?
    case ClearActive => s.worker.Clearing?
    case Announce => s.worker.Announcing?
    case WorkerRaises => Working(s.worker)
    case RecordFailure => s.worker.Dying?
    case Alarm => s.worker.Alarming?
  }

  /** The worker's next phase and what it does to the shared fields, store apart. */
  function Deed(w: Worker, shared: Shared, l: WorkerLabel): (Worker, Shared)
    requires !l.StartCommit? && !l.Launch? && !l.FinishCommit?
    requires WorkerEnabled(Runtime(Disk(EMPTY, []), Clock(0.0, true), shared, Looping, w), l)
  {
    match l
    case Dequeue => (Held(shared.queue[0]), shared.(queue := shared.queue[1..]))
    case Quit => (Done, shared)
    case Proceed => (Starting(w.id), shared)
    case DropHeld => (Idle, shared)
    case Unqueue => (if w.Begun? then Claiming(w.id) else Idle, shared.(queued := shared.queued - {w.id}))
    case SetActive => (Publishing(w.id), shared.(active := Some(w.id)))
    case WorkerBeats => (Deciding(w.id), shared)
    case Decide =>
      (if shared.stop
       then Reporting(w.id, None, Some("listener stopped before the action process acquired custody"), false)
       else Launching(w.id), shared)
    case LaunchFails(message) => (Reporting(w.id, None, Some(message), false), shared)
    case Register => (Waiting(w.id), shared.(process := Live))
    case WaitFails(message) => (Reporting(w.id, None, Some(message), true), shared)
    case WaitReturns(code) => (Reporting(w.id, Some(code), None, true), shared.(process := Exited))
    case Classify =>
      (Finishing(w.id, w.returnCode, w.error,
         w.processStarted && shared.stop && (w.returnCode != Some(0) || w.error.Some?), w.processStarted), shared)
    case ClearActive =>
      (Announcing,
       shared.(active := None, process := if w.processStarted && shared.process.Live? then Live else NoProcess))
    case Announce => (Idle, shared)
    case WorkerRaises => (Dying(Custody(w)), shared)
    case RecordFailure => (Alarming(w.custody), shared.(failure := true))
    case Alarm => (Dead(w.custody), shared.(stop := true))
  }

  function WorkerAfter(s: Runtime, l: WorkerLabel): Runtime
    requires WorkerEnabled(s, l)
  {
    var ds, now := s.disk.store.dispatches, s.clock.now;
    if l.StartCommit? then
      var id := s.worker.id;
      var started := StartDispatch(ds, id, now);
      if started.None? then s.(worker := Refused(id))
      else s.(disk := Disk(s.disk.store.(dispatches := started.value),
                           s.disk.log + [Started(id, started.value[id].attempts, now)]),
              worker := Begun(id))
    else if l.Launch? then
      var id := s.worker.id;
      s.(disk := s.disk.(log := s.disk.log + [Launched(id, ds[id].attempts)]),
         worker := Registering(id))
    else if l.FinishCommit? then
      var w := s.worker;
      var finished := FinishDispatch(ds, w.id, w.returnCode, w.error, w.uncertain, now);
      if finished.None? then s.(worker := Dying(Some(w.id)))
      else s.(disk := Disk(s.disk.store.(dispatches := finished.value),
                           s.disk.log + [Settled(w.id, finished.value[w.id].attempts, finished.value[w.id].state, now)]),
              worker := Clearing(w.id, w.processStarted))
    else
      var (worker, shared) := Deed(s.worker, s.shared, l);
      s.(worker := worker, shared := shared)
  }

  // -------------------------------------------------------------------- runs

  ghost predicate Enabled(s: Runtime, l: Label)
  {
    match l
    case World(w) => WorldEnabled(s, w)
    case MainDoes(m) => MainEnabled(s, m)
    case WorkerDoes(w) => WorkerEnabled(s, w)
  }

  ghost function After(digest: Digest, s: Runtime, l: Label): Runtime
    requires Enabled(s, l)
  {
    match l
    case World(w) => WorldAfter(s, w)
    case MainDoes(m) => MainAfter(digest, s, m)
    case WorkerDoes(w) => WorkerAfter(s, w)
  }

  /** The state a run reaches: labels are taken in order, and one that is not enabled is skipped. */
  ghost function Run(digest: Digest, labels: seq<Label>): Runtime
  {
    if labels == [] then INITIAL
    else
      var s, l := Run(digest, labels[..|labels| - 1]), labels[|labels| - 1];
      if Enabled(s, l) then After(digest, s, l) else s
  }

  // --------------------------------------------------------------- invariant

  /** At most one id is queued, the queue lists it once, and the worker's is not listed again. */
  ghost predicate QueueOk(s: Runtime)
  {
    && |s.shared.queued| <= 1
    && |s.shared.queue| <= 1
    && (s.shared.queue != [] ==> s.shared.queue[0] in s.shared.queued)
    && (Taken(s.worker).Some? ==> Taken(s.worker).value in s.shared.queued && s.shared.queue == [])
    && (s.main.Selecting? ==> s.shared.queued == {} && s.main.limit == 1)
    && (s.main.Enqueuing? ==> s.shared.queued == {} && |s.main.ids| <= 1)
  }

  function MainNow(m: Main): Option<real>
  {
    match m
    case Polled(now) => Some(now)
    case Discovering(now) => Some(now)
    case SamplingActive(now) => Some(now)
    case SamplingQueued(now, _) => Some(now)
    case Selecting(now, _) => Some(now)
    case Enqueuing(now, _) => Some(now)
    case _ => None
  }

  /** While the clock never went back, whatever waits to be started can be started. */
  ghost predicate WaitingIsRunnable(s: Runtime)
  {
    s.clock.steady ==>
      && (MainNow(s.main).Some? ==> MainNow(s.main).value <= s.clock.now)
      && (s.shared.queue != [] ==> RunnableIn(s.disk.store.dispatches, s.shared.queue[0], s.clock.now))
      && (s.worker.Held? || s.worker.Starting? ==> RunnableIn(s.disk.store.dispatches, s.worker.id, s.clock.now))
      && (s.main.Enqueuing? && s.main.ids != [] ==> RunnableIn(s.disk.store.dispatches, s.main.ids[0], s.clock.now))
      && !s.worker.Refused?
  }

  /** The only running row is the worker's; the worker's row is running or was taken from it as uncertain. */
  ghost predicate CustodyOk(s: Runtime)
  {
    && (forall id :: RunningIn(s.disk.store.dispatches, id) ==> Custody(s.worker) == Some(id))
    && (Custody(s.worker).Some? ==>
          && Custody(s.worker).value in s.disk.store.dispatches
          && var row := s.disk.store.dispatches[Custody(s.worker).value];
          row.state.Running? || row.state.Uncertain?)
  }

  /** A row tells the same story as the log. */
  predicate Tells(ds: DispatchTable, id: Id, l: Life)
  {
    if id !in ds then l.Fresh?
    else
      var d := ds[id];
      match d.state
      case Queued => l.Fresh?
      case Running => l.Open? && l.attempt == d.attempts
      case Retry => l.Closed? && l.attempt == d.attempts && l.state == Retry && d.nextRetryAt == Some(l.due)
      case _ => l.Closed? && l.attempt == d.attempts && l.state == d.state
  }

  ghost predicate Told(ds: DispatchTable, log: seq<Event>)
  {
    forall id: Id :: Tells(ds, id, LifeOf(log, id))
  }

  ghost predicate LogOk(s: Runtime)
  {
    Told(s.disk.store.dispatches, s.disk.log)
  }

  predicate HasLaunched(l: Life) { (l.Open? || l.Closed?) && l.launched }

  /** Before the launch the attempt has none; a return code exists only after it. */
  ghost predicate LaunchOk(s: Runtime)
  {
    match s.worker
    case Begun(id) => !HasLaunched(LifeOf(s.disk.log, id))
    case Claiming(id) => !HasLaunched(LifeOf(s.disk.log, id))
    case Publishing(id) => !HasLaunched(LifeOf(s.disk.log, id))
    case Deciding(id) => !HasLaunched(LifeOf(s.disk.log, id))
    case Launching(id) => !HasLaunched(LifeOf(s.disk.log, id))
    case Registering(id) => HasLaunched(LifeOf(s.disk.log, id))
    case Waiting(id) => HasLaunched(LifeOf(s.disk.log, id))
    case Reporting(id, rc, _, started) => (rc.Some? ==> started) && (started ==> HasLaunched(LifeOf(s.disk.log, id)))
    case Finishing(id, rc, _, _, _) => rc.Some? ==> HasLaunched(LifeOf(s.disk.log, id))
    case _ => true
  }

  predicate PastStop(m: Main)
  {
    m.Settling? || m.Judging? || m.GivingUp? || m.Concluding? || m.Returned? || m.Raised?
  }

  /** How far each thread is tells what the other has done. */
  ghost predicate ThreadsOk(s: Runtime)
  {
    && (s.main.Down? ==> s.worker.Dead? && s.shared.queue == [] && s.shared.queued == {})
    && (PastStop(s.main) ==> s.shared.stop)
    && (s.worker.Done? ==> s.shared.stop)
    && (!s.main.Down? && (s.worker.Alarming? || s.worker.Dead?) ==> s.shared.failure)
    && (s.main.Concluding? || s.main.Returned? || s.main == Raised(false) ==> !Alive(s.worker))
    && (s.main.Returned? ==> !s.shared.failure)
  }

  ghost predicate Inv(s: Runtime)
  {
    && RowsOk(s.disk.store.dispatches)
    && QueueOk(s)
    && WaitingIsRunnable(s)
    && CustodyOk(s)
    && LogOk(s)
    && LaunchOk(s)
    && ThreadsOk(s)
  }
}
