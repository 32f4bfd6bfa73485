/** The listener's promises, each stated of every run. */
module ListenerTheorems {
  import opened Wrappers
  import opened Dispatches
  import opened Observation
  import opened DispatchLife
  import opened ListenerRuntime
  import opened ListenerSafety

  /** `_queued` holds at most one id, the queue lists only queued ids and none twice, and the store
      has at most one running row, which is the one the worker answers for. */
  lemma OneAtATime(digest: Digest, labels: seq<Label>)
    ensures var s := Run(digest, labels); var ds := s.disk.store.dispatches;
      && |s.shared.queued| <= 1
      && (forall k :: 0 <= k < |s.shared.queue| ==> s.shared.queue[k] in s.shared.queued)
      && (forall j, k :: 0 <= j < k < |s.shared.queue| ==> s.shared.queue[j] != s.shared.queue[k])
      && (forall id :: RunningIn(ds, id) ==> Custody(s.worker) == Some(id))
  {
    EveryRunIsSafe(digest, labels);
    QueueIsShort(Run(digest, labels));
  }

  lemma QueueIsShort(s: Runtime)
    requires QueueOk(s)
    ensures forall k :: 0 <= k < |s.shared.queue| ==> s.shared.queue[k] in s.shared.queued
  {
  }

  /** While the clock never goes back, `start_dispatch` always accepts an id taken from the queue. */
  lemma StartIsNeverRefused(digest: Digest, labels: seq<Label>)
    requires Run(digest, labels).clock.steady && Run(digest, labels).worker.Starting?
    ensures var s := Run(digest, labels);
      StartDispatch(s.disk.store.dispatches, s.worker.id, s.clock.now).Some?
  {
    EveryRunIsSafe(digest, labels);
  }

  /** A dispatch may be selected and started if and only if it never was, or its last attempt is to be tried
      again and the wait is over. */
  lemma RunnableIffDue(digest: Digest, labels: seq<Label>, id: Id, now: real)
    ensures var s := Run(digest, labels); var l := LifeOf(s.disk.log, id);
      RunnableIn(s.disk.store.dispatches, id, now) <==>
        id in s.disk.store.dispatches && (l.Fresh? || (l.Closed? && l.state.Retry? && l.due <= now))
  {
    var s := Run(digest, labels);
    EveryRunIsSafe(digest, labels);
    assert Tells(s.disk.store.dispatches, id, LifeOf(s.disk.log, id));
  }

  /** When `run` returns normally the worker ended normally, no exception was recorded, no row is
      running, and every attempt in the log was settled. */
  lemma ReturnMeansSettled(digest: Digest, labels: seq<Label>, id: Id)
    requires Run(digest, labels).main.Returned?
    ensures var s := Run(digest, labels);
      s.worker.Done? && !s.shared.failure && !RunningIn(s.disk.store.dispatches, id) && !LifeOf(s.disk.log, id).Open?
  {
    var s := Run(digest, labels);
    EveryRunIsSafe(digest, labels);
    assert Tells(s.disk.store.dispatches, id, LifeOf(s.disk.log, id));
  }

  /** In a live process the worker has raised, or the main thread could not settle it. */
  predicate Doomed(s: Runtime)
  {
    !s.main.Down? && (s.worker.Dying? || s.worker.Alarming? || s.worker.Dead? || s.main.GivingUp? || s.main == Raised(true))
  }

  lemma DoomedStays(digest: Digest, s: Runtime, l: Label)
    requires Doomed(s) && Enabled(s, l) && l != World(Crash)
    ensures Doomed(After(digest, s, l))
  {
    if l.MainDoes? && QuietAct(l.act) {
      QuietMainFrame(digest, s, l.act);
    }
  }

  /** Once the worker has raised or could not be settled, `run` can only raise: no continuation of the run
      without a crash and restart makes it return. */
  lemma {:induction false} DeadWorkerMakesRunRaise(digest: Digest, labels: seq<Label>, more: seq<Label>)
    requires Doomed(Run(digest, labels))
    requires World(Crash) !in more
    ensures var s := Run(digest, labels + more); Doomed(s) && !s.main.Returned?
  {
    EveryRunIsSafe(digest, labels + more);
    var all := labels + more;
    if more == [] {
      assert all == labels;
    } else {
      assert all[..|all| - 1] == labels + more[..|more| - 1];
      DeadWorkerMakesRunRaise(digest, labels, more[..|more| - 1]);
      var s, l := Run(digest, all[..|all| - 1]), all[|all| - 1];
      if Enabled(s, l) {
        DoomedStays(digest, s, l);
      }
    }
  }

  // ------------------------------------------------------------------ launches

  /** An action is launched again only after its earlier attempt was durably recorded as `retry`. */
  lemma NoRelaunchWithoutRetry(digest: Digest, labels: seq<Label>, i: nat, j: nat)
    requires var log := Run(digest, labels).disk.log;
      i < j < |log| && log[i].Launched? && log[j].Launched? && log[i].id == log[j].id
    ensures var log := Run(digest, labels).disk.log;
      exists k :: i < k < j && log[k].Settled? && log[k].id == log[i].id && log[k].state.Retry?
  {
    EveryLogIsLegal(digest, labels);
    RelaunchNeedsRetry(Run(digest, labels).disk.log, i, j, Run(digest, labels).disk.log[i].id);
  }

  /** After `uncertain`, `completed` or `failed` nothing more happens to a dispatch, except that an
      attempt recorded as `uncertain` may still be launched, by the worker that has it in hand. */
  lemma NothingAfterVerdict(digest: Digest, labels: seq<Label>, i: nat, j: nat)
    requires var log := Run(digest, labels).disk.log;
      i < j < |log| && log[i].Settled? && !log[i].state.Retry? && log[i].id == log[j].id
    ensures var log := Run(digest, labels).disk.log;
      log[i].state.Uncertain? && log[j].Launched? && log[j].attempt == log[i].attempt
  {
    EveryLogIsLegal(digest, labels);
    VerdictIsFinal(Run(digest, labels).disk.log, i, j, Run(digest, labels).disk.log[i].id);
  }

  /** At most three starts per dispatch, at most one launch per start, and waits of 5 and then 30
      seconds between a settled attempt and the next start. */
  lemma StartsAreBoundedAndSpaced(digest: Digest, labels: seq<Label>, id: Id, j: nat)
    requires var log := Run(digest, labels).disk.log; j < |log| && log[j].Started? && log[j].id == id
    ensures var log := Run(digest, labels).disk.log;
      && Launches(log, id) <= Starts(log, id) <= 3
      && (log[j].attempt != 1 ==>
            exists i :: 0 <= i < j && log[i].Settled? && log[i].id == id && log[i].state.Retry?
                     && log[i].attempt == log[j].attempt - 1
                     && log[j].at >= log[i].at + (if log[j].attempt == 2 then 5.0 else 30.0))
  {
    var log := Run(digest, labels).disk.log;
    EveryLogIsLegal(digest, labels);
    AtMostThreeStarts(log, id);
    if log[j].attempt != 1 {
      RestartWaits(log, j, id);
    }
  }

  // ------------------------------------------------------------------- crashes

  lemma UncertainStays(digest: Digest, s: Runtime, l: Label, id: Id)
    requires Inv(s) && Enabled(s, l)
    requires id in s.disk.store.dispatches && s.disk.store.dispatches[id].state.Uncertain?
    ensures var ds := After(digest, s, l).disk.store.dispatches; id in ds && ds[id].state.Uncertain?
  {
    match l
    case World(w) =>
    case MainDoes(m) =>
      UncertainStaysInMain(digest, s, m, id);
    case WorkerDoes(w) =>
      UncertainStaysInWorker(s, w, id);
  }

  lemma UncertainStaysInMain(digest: Digest, s: Runtime, m: MainLabel, id: Id)
    requires MainEnabled(s, m) && id in s.disk.store.dispatches && s.disk.store.dispatches[id].state.Uncertain?
    ensures var ds := MainAfter(digest, s, m).disk.store.dispatches; id in ds && ds[id].state.Uncertain?
  {
    if m.Observe? {
      ObserveRows(digest, s.disk.store, Dedup(m.found), m.planner, s.main.now, id);
    } else if !m.GiveUp? {
      QuietMainFrame(digest, s, m);
    }
  }

  lemma UncertainStaysInWorker(s: Runtime, w: WorkerLabel, id: Id)
    requires WorkerEnabled(s, w) && id in s.disk.store.dispatches && s.disk.store.dispatches[id].state.Uncertain?
    ensures var ds := WorkerAfter(s, w).disk.store.dispatches; id in ds && ds[id].state.Uncertain?
  {
  }

  /** The row is still held by a worker that will never run again, or it is uncertain. */
  ghost predicate CutOff(s: Runtime, id: Id)
  {
    && id in s.disk.store.dispatches
    && (s.disk.store.dispatches[id].state.Uncertain?
        || (s.main.Down? && RunningIn(s.disk.store.dispatches, id)))
  }

  lemma CutOffStays(digest: Digest, s: Runtime, l: Label, id: Id)
    requires Inv(s) && Enabled(s, l) && CutOff(s, id)
    ensures CutOff(After(digest, s, l), id)
    ensures l == World(Boot) ==> After(digest, s, l).disk.store.dispatches[id].state.Uncertain?
  {
    if s.disk.store.dispatches[id].state.Uncertain? {
      UncertainStays(digest, s, l, id);
    }
  }

  /** An attempt cut off by a crash at any point becomes `uncertain` at the next start of the
      listener and stays so for the rest of the run. */
  lemma {:induction false} CrashedAttemptBecomesUncertain(digest: Digest, labels: seq<Label>, more: seq<Label>, id: Id)
    requires RunningIn(Run(digest, labels).disk.store.dispatches, id)
    requires !Run(digest, labels).main.Down?
    ensures var s := Run(digest, labels + [World(Crash)] + more);
      CutOff(s, id) && (!s.main.Down? ==> s.disk.store.dispatches[id].state.Uncertain?)
  {
    var all := labels + [World(Crash)] + more;
    if more == [] {
      assert all[..|all| - 1] == labels;
    } else {
      assert all[..|all| - 1] == labels + [World(Crash)] + more[..|more| - 1];
      CrashedAttemptBecomesUncertain(digest, labels, more[..|more| - 1], id);
      var s, l := Run(digest, all[..|all| - 1]), all[|all| - 1];
      EveryRunIsSafe(digest, all[..|all| - 1]);
      if Enabled(s, l) {
        CutOffStays(digest, s, l, id);
      }
    }
  }
}
