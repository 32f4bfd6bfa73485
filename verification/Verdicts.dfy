/** Why an attempt was settled as it was: the recorded verdict against what an observer of the run saw the
    process of the attempt do. */
module Verdicts {
  import opened Wrappers
  import opened Dispatches
  import opened Observation
  import opened DispatchLife
  import opened ListenerRuntime
  import opened ListenerSafety

  /** How the process of an attempt ended, as far as anyone saw. */
  datatype End = Unended | NotLaunched | NeverReturned | Exit(code: int)

  /** `stopped` says that the stop flag was up when the end was classified. */
  datatype Attempt = Attempt(end: End, stopped: bool)

  /** What the steps of a run show of the attempt that was started last. */
  ghost function Seen(digest: Digest, labels: seq<Label>): Attempt
  {
    if labels == [] then Attempt(Unended, false)
    else
      var rest, l := labels[..|labels| - 1], labels[|labels| - 1];
      var a, s := Seen(digest, rest), Run(digest, rest);
      if Enabled(s, l) && l.WorkerDoes? then SeenNext(a, s.shared.stop, l.deed) else a
  }

  function SeenNext(a: Attempt, stop: bool, l: WorkerLabel): Attempt
  {
    match l
    case StartCommit => Attempt(Unended, false)
    case Decide => if stop then a.(end := NotLaunched) else a
    case LaunchFails(_) => a.(end := NotLaunched)
    case WaitFails(_) => a.(end := NeverReturned)
    case WaitReturns(code) => a.(end := Exit(code))
    case Classify => a.(stopped := stop)
    case _ => a
  }

  /** The process was running when the listener was asked to stop, and did not end well. */
  predicate CutShort(a: Attempt)
  {
    a.stopped && (a.end.NeverReturned? || (a.end.Exit? && a.end.code != 0))
  }

  /** The verdict such an attempt deserves: done if the process returned 0; in doubt if it was cut short by a
      stop; otherwise to be tried again, three times in all. */
  function Deserved(a: Attempt, attempt: nat): State
  {
    if a.end == Exit(0) then Completed
    else if CutShort(a) then Uncertain
    else if attempt < 3 then Retry
    else Failed
  }

  // ---------------------------------------------------- the worker reports what was seen

  predicate Reports(a: Attempt, returnCode: Option<int>, error: Option<string>, processStarted: bool)
  {
    match a.end
    case Unended => false
    case NotLaunched => returnCode.None? && error.Some? && !processStarted
    case NeverReturned => returnCode.None? && error.Some? && processStarted
    case Exit(code) => returnCode == Some(code) && error.None? && processStarted
  }

  predicate SeenByWorker(a: Attempt, w: Worker)
  {
    match w
    case Reporting(_, returnCode, error, processStarted) => Reports(a, returnCode, error, processStarted)
    case Finishing(_, returnCode, error, uncertain, processStarted) =>
      Reports(a, returnCode, error, processStarted) && uncertain == (processStarted && a.stopped && returnCode != Some(0))
    case _ => true
  }

  lemma DeedIsSeen(a: Attempt, s: Runtime, l: WorkerLabel)
    requires WorkerEnabled(s, l) && SeenByWorker(a, s.worker)
    ensures SeenByWorker(SeenNext(a, s.shared.stop, l), WorkerAfter(s, l).worker)
  {
  }

  lemma OthersAreNotSeen(digest: Digest, a: Attempt, s: Runtime, l: Label)
    requires Enabled(s, l) && !l.WorkerDoes? && SeenByWorker(a, s.worker)
    ensures SeenByWorker(a, After(digest, s, l).worker)
  {
  }

  lemma {:induction false} WorkerKnows(digest: Digest, labels: seq<Label>)
    ensures SeenByWorker(Seen(digest, labels), Run(digest, labels).worker)
  {
    if labels != [] {
      var rest, l := labels[..|labels| - 1], labels[|labels| - 1];
      var a, s := Seen(digest, rest), Run(digest, rest);
      WorkerKnows(digest, rest);
      if Enabled(s, l) {
        if l.WorkerDoes? {
          DeedIsSeen(a, s, l.deed);
        } else {
          OthersAreNotSeen(digest, a, s, l);
        }
      }
    }
  }

  // ------------------------------------------------------------------- settling

  /** What `finish_dispatch` writes into a running row for an attempt that was seen. */
  lemma FinishedAsDeserved(a: Attempt, w: Worker, d: Dispatch, now: real)
    requires w.Finishing? && SeenByWorker(a, w)
    ensures var d' := FinishedRow(d, w.returnCode, w.error, w.uncertain, now);
      && d'.state == Deserved(a, d.attempts)
      && d'.exitCode == (if a.end.Exit? then Some(a.end.code) else None)
      && (a.end.Exit? ==>
            d'.error == if d'.state.Uncertain? then Some("listener stopped while the action process had custody") else None)
      && (!a.end.Exit? && w.error.value != "" ==> d'.error == w.error)
      && d'.nextRetryAt == (if d'.state.Retry? then Some(now + if d.attempts == 1 then 5.0 else 30.0) else None)
      && d' == d.(state := d'.state, completedAt := Some(now), nextRetryAt := d'.nextRetryAt,
                  exitCode := d'.exitCode, error := d'.error)
  {
  }

  /** A commit of the worker settles the attempt it has in hand as it deserves. */
  lemma SettlesAsDeserved(digest: Digest, labels: seq<Label>)
    requires var s := Run(digest, labels);
      WorkerEnabled(s, FinishCommit) && RunningIn(s.disk.store.dispatches, s.worker.id)
    ensures var s := Run(digest, labels); var s' := WorkerAfter(s, FinishCommit); var id := s.worker.id;
      var d, d', a := s.disk.store.dispatches[id], s'.disk.store.dispatches[id], Seen(digest, labels);
      && d'.state == Deserved(a, d.attempts) && d'.completedAt == Some(s.clock.now)
      && d'.exitCode == (if a.end.Exit? then Some(a.end.code) else None)
      && d'.nextRetryAt == (if d'.state.Retry? then Some(s.clock.now + if d.attempts == 1 then 5.0 else 30.0) else None)
      && s'.disk.log == s.disk.log + [Settled(id, d.attempts, d'.state, s.clock.now)]
  {
    var s := Run(digest, labels);
    WorkerKnows(digest, labels);
    FinishedAsDeserved(Seen(digest, labels), s.worker, s.disk.store.dispatches[s.worker.id], s.clock.now);
  }

  /** Position i of the log was written by step n. */
  ghost predicate WrittenBy(digest: Digest, labels: seq<Label>, n: nat, i: nat)
  {
    && n < |labels| && Enabled(Run(digest, labels[..n]), labels[n])
    && |Run(digest, labels[..n]).disk.log| == i < |Run(digest, labels[..n + 1]).disk.log|
  }

  /** The steps that take a running attempt away from its worker: giving up on it, and creating the store. */
  predicate TakesAway(s: Runtime, l: Label, id: Id)
  {
    || l == World(Boot) || l == World(InstallerCreate)
    || (l == MainDoes(GiveUp(true)) && s.main.GivingUp? && s.main.sampled == Some(id))
  }

  /** The last event of a log was settled by this step. */
  predicate SettledBy(s: Runtime, l: Label, e: Event)
  {
    e.Settled? ==>
      if l == WorkerDoes(FinishCommit)
      then s.worker.Finishing? && e.id == s.worker.id && RunningIn(s.disk.store.dispatches, e.id)
        && e.attempt == s.disk.store.dispatches[e.id].attempts
      else e.state.Uncertain? && TakesAway(s, l, e.id)
  }

  predicate LogGoesOn(s: Runtime, l: Label, s': Runtime)
  {
    var log, log' := s.disk.log, s'.disk.log;
    log' == log || (|log'| == |log| + 1 && log'[..|log|] == log && SettledBy(s, l, log'[|log|]))
  }

  lemma MainLogStep(digest: Digest, s: Runtime, m: MainLabel)
    requires MainEnabled(s, m)
    ensures LogGoesOn(s, MainDoes(m), MainAfter(digest, s, m))
  {
    if QuietAct(m) {
      QuietMainFrame(digest, s, m);
    }
  }

  lemma WorkerLogStep(s: Runtime, w: WorkerLabel)
    requires WorkerEnabled(s, w)
    ensures LogGoesOn(s, WorkerDoes(w), WorkerAfter(s, w))
  {
    if QuietDeed(w) {
      DeedTakes(s, w);
    }
  }

  lemma LogStep(digest: Digest, s: Runtime, l: Label)
    requires Enabled(s, l)
    ensures LogGoesOn(s, l, After(digest, s, l))
  {
    match l
    case World(w) =>
    case MainDoes(m) => MainLogStep(digest, s, m);
    case WorkerDoes(w) => WorkerLogStep(s, w);
  }

  lemma WrittenBefore(digest: Digest, labels: seq<Label>, n: nat, i: nat)
    requires labels != [] && WrittenBy(digest, labels[..|labels| - 1], n, i)
    ensures WrittenBy(digest, labels, n, i) && labels[..|labels| - 1][..n] == labels[..n]
  {
    assert labels[..|labels| - 1][..n] == labels[..n];
    assert labels[..|labels| - 1][..n + 1] == labels[..n + 1];
  }

  /** Every settlement in the log of every run is the one its attempt deserves, or the attempt was taken away
      from its worker, and then it is in doubt. */
  lemma {:induction false} EverySettlementIsDeserved(digest: Digest, labels: seq<Label>, i: nat) returns (n: nat)
    requires i < |Run(digest, labels).disk.log| && Run(digest, labels).disk.log[i].Settled?
    ensures WrittenBy(digest, labels, n, i)
    ensures var s, e := Run(digest, labels[..n]), Run(digest, labels).disk.log[i];
      if labels[n] == WorkerDoes(FinishCommit)
      then s.worker.id == e.id && e.state == Deserved(Seen(digest, labels[..n]), e.attempt)
      else e.state.Uncertain? && TakesAway(s, labels[n], e.id)
  {
    var rest, l := labels[..|labels| - 1], labels[|labels| - 1];
    var s := Run(digest, rest);
    if Enabled(s, l) {
      LogStep(digest, s, l);
    }
    if i < |s.disk.log| {
      assert s.disk.log[i] == Run(digest, labels).disk.log[i];
      n := EverySettlementIsDeserved(digest, rest, i);
      WrittenBefore(digest, labels, n, i);
    } else {
      n := |rest|;
      assert labels[..n] == rest && labels[..n + 1] == labels;
      if l == WorkerDoes(FinishCommit) {
        SettlesAsDeserved(digest, rest);
      }
    }
  }

  /** An attempt is completed if and only if its worker settled it and its process returned 0. It is in doubt if
      and only if it was taken away or cut short. Otherwise it is tried again, and fails for good the third time. */
  lemma CompletedIffReturnedZero(digest: Digest, labels: seq<Label>, i: nat) returns (n: nat)
    requires i < |Run(digest, labels).disk.log| && Run(digest, labels).disk.log[i].Settled?
    ensures WrittenBy(digest, labels, n, i)
    ensures var e, a := Run(digest, labels).disk.log[i], Seen(digest, labels[..n]);
      var own := labels[n] == WorkerDoes(FinishCommit);
      && (e.state.Completed? <==> own && a.end == Exit(0))
      && (e.state.Uncertain? <==> !own || CutShort(a))
      && (e.state.Retry? <==> own && a.end != Exit(0) && !CutShort(a) && e.attempt < 3)
      && (e.state.Failed? <==> own && a.end != Exit(0) && !CutShort(a) && e.attempt >= 3)
  {
    n := EverySettlementIsDeserved(digest, labels, i);
    WorkerKnows(digest, labels[..n]);
  }

  // --------------------------------------------------------- stopped before the launch

  /** The attempt that the worker has begun and not yet launched. */
  function BeforeLaunch(w: Worker): Option<Id>
  {
    match w
    case Begun(id) => Some(id)
    case Claiming(id) => Some(id)
    case Publishing(id) => Some(id)
    case Deciding(id) => Some(id)
    case Launching(id) => Some(id)
    case _ => None
  }

  predicate NoLaunchOf(log: seq<Event>, id: Id, n: nat)
  {
    forall i :: 0 <= i < |log| ==> !(log[i].Launched? && log[i].id == id && log[i].attempt == n)
  }

  /** The log has no launch of the attempt, and the worker is past it. */
  predicate PassedOver(s: Runtime, id: Id, n: nat)
  {
    && id in s.disk.store.dispatches && n <= s.disk.store.dispatches[id].attempts
    && (BeforeLaunch(s.worker) == Some(id) ==> n < s.disk.store.dispatches[id].attempts)
    && NoLaunchOf(s.disk.log, id, n)
  }

  /** A log launches no attempt beyond the current one, and that only if its life says so. */
  lemma {:induction false} LaunchesAreOfLife(log: seq<Event>, id: Id, n: nat)
    requires var l := LifeOf(log, id);
      l.Fresh? || ((l.Open? || l.Closed?) && (n > l.attempt || (n == l.attempt && !l.launched)))
    ensures NoLaunchOf(log, id, n)
  {
    if log != [] {
      LaunchesAreOfLife(log[..|log| - 1], id, n);
      assert log == log[..|log| - 1] + [log[|log| - 1]];
    }
  }

  lemma WorldPassesOver(s: Runtime, w: WorldLabel, id: Id, n: nat)
    requires WorldEnabled(s, w) && PassedOver(s, id, n)
    ensures PassedOver(WorldAfter(s, w), id, n)
  {
  }

  lemma MainPassesOver(digest: Digest, s: Runtime, m: MainLabel, id: Id, n: nat)
    requires MainEnabled(s, m) && PassedOver(s, id, n)
    ensures PassedOver(MainAfter(digest, s, m), id, n)
  {
    if m.Observe? {
      ObserveRows(digest, s.disk.store, Dedup(m.found), m.planner, s.main.now, id);
    } else if !m.GiveUp? {
      QuietMainFrame(digest, s, m);
    }
  }

  lemma WorkerPassesOver(s: Runtime, w: WorkerLabel, id: Id, n: nat)
    requires WorkerEnabled(s, w) && PassedOver(s, id, n)
    ensures PassedOver(WorkerAfter(s, w), id, n)
  {
  }

  lemma StepPassesOver(digest: Digest, s: Runtime, l: Label, id: Id, n: nat)
    requires Enabled(s, l) && PassedOver(s, id, n)
    ensures PassedOver(After(digest, s, l), id, n)
  {
    match l
    case World(w) => WorldPassesOver(s, w, id, n);
    case MainDoes(m) => MainPassesOver(digest, s, m, id, n);
    case WorkerDoes(w) => WorkerPassesOver(s, w, id, n);
  }

  lemma {:induction false} PassedOverStays(digest: Digest, labels: seq<Label>, more: seq<Label>, id: Id, n: nat)
    requires PassedOver(Run(digest, labels), id, n)
    ensures PassedOver(Run(digest, labels + more), id, n)
  {
    var all := labels + more;
    if more == [] {
      assert all == labels;
    } else {
      assert all[..|all| - 1] == labels + more[..|more| - 1];
      PassedOverStays(digest, labels, more[..|more| - 1], id, n);
      var s, l := Run(digest, all[..|all| - 1]), all[|all| - 1];
      if Enabled(s, l) {
        StepPassesOver(digest, s, l, id, n);
      }
    }
  }

  lemma DecidedNotTo(s: Runtime)
    requires Inv(s) && WorkerEnabled(s, Decide) && s.shared.stop
    ensures var id := s.worker.id; var ds := s.disk.store.dispatches;
      id in ds && PassedOver(WorkerAfter(s, Decide), id, ds[id].attempts)
  {
    var id, log := s.worker.id, s.disk.log;
    assert Custody(s.worker) == Some(id);
    assert Tells(s.disk.store.dispatches, id, LifeOf(log, id));
    LaunchesAreOfLife(log, id, s.disk.store.dispatches[id].attempts);
  }

  /** A worker that sees the stop flag before the launch never launches that attempt, whatever happens after. */
  lemma StopPreventsLaunch(digest: Digest, labels: seq<Label>, more: seq<Label>, id: Id, n: nat)
    requires var s := Run(digest, labels);
      && WorkerEnabled(s, Decide) && s.shared.stop && s.worker.id == id
      && id in s.disk.store.dispatches && s.disk.store.dispatches[id].attempts == n
    ensures NoLaunchOf(Run(digest, labels + [WorkerDoes(Decide)] + more).disk.log, id, n)
  {
    EveryRunIsSafe(digest, labels);
    DecidedNotTo(Run(digest, labels));
    RunsOn(digest, labels, WorkerDoes(Decide));
    PassedOverStays(digest, labels + [WorkerDoes(Decide)], more, id, n);
  }

  lemma RunsOn(digest: Digest, labels: seq<Label>, l: Label)
    requires Enabled(Run(digest, labels), l)
    ensures Run(digest, labels + [l]) == After(digest, Run(digest, labels), l)
  {
    assert (labels + [l])[..|labels + [l]| - 1] == labels;
  }
}
