/** When an action is launched although its dispatch is already recorded as `uncertain`: exactly when the
    row was taken from the worker while the worker had it in hand. */
module LateLaunches {
  import opened Wrappers
  import opened Dispatches
  import opened Observation
  import opened DispatchLife
  import opened ListenerRuntime
  import opened ListenerSafety

  /** The worker is between its `start_dispatch` and its `finish_dispatch` of this dispatch. */
  predicate InHand(s: Runtime, id: Id)
  {
    Working(s.worker) && Custody(s.worker) == Some(id)
  }

  /** A step that writes `uncertain` over the head of the worker: the main thread gives up on the dispatch it
      sampled, or the installer creates the store beside the live process. */
  predicate Revokes(s: Runtime, l: Label, id: Id)
  {
    l == World(InstallerCreate) || (l == MainDoes(GiveUp(true)) && s.main == GivingUp(Some(id)))
  }

  ghost predicate HeldFrom(digest: Digest, labels: seq<Label>, k: nat, id: Id)
  {
    forall j :: k <= j <= |labels| ==> InHand(Run(digest, labels[..j]), id)
  }

  /** Step k revokes the attempt that the worker has in hand from then to the end of the run. */
  ghost predicate RevokedAt(digest: Digest, labels: seq<Label>, k: nat, id: Id)
  {
    k < |labels| && Enabled(Run(digest, labels[..k]), labels[k]) && Revokes(Run(digest, labels[..k]), labels[k], id) &&
    HeldFrom(digest, labels, k, id)
  }

  predicate IsUncertain(s: Runtime, id: Id)
  {
    id in s.disk.store.dispatches && s.disk.store.dispatches[id].state.Uncertain?
  }

  lemma RevokeInMain(digest: Digest, s: Runtime, m: MainLabel, id: Id)
    requires Inv(s) && MainEnabled(s, m) && InHand(s, id)
    ensures IsUncertain(MainAfter(digest, s, m), id) <==> IsUncertain(s, id) || Revokes(s, MainDoes(m), id)
  {
    if m.Observe? {
      ObserveRows(digest, s.disk.store, Dedup(m.found), m.planner, s.main.now, id);
    } else if !m.GiveUp? {
      QuietMainFrame(digest, s, m);
    }
  }

  lemma RevokeInWorld(s: Runtime, w: WorldLabel, id: Id)
    requires Inv(s) && WorldEnabled(s, w) && InHand(s, id) && InHand(WorldAfter(s, w), id)
    ensures IsUncertain(WorldAfter(s, w), id) <==> IsUncertain(s, id) || Revokes(s, World(w), id)
  {
  }

  lemma RevokeInWorker(s: Runtime, w: WorkerLabel, id: Id)
    requires Inv(s) && WorkerEnabled(s, w) && InHand(s, id) && InHand(WorkerAfter(s, w), id)
    ensures IsUncertain(WorkerAfter(s, w), id) <==> IsUncertain(s, id)
  {
  }

  /** While the worker has an attempt in hand, its row becomes uncertain by a revoking step and by no other. */
  lemma RevokeStep(digest: Digest, s: Runtime, l: Label, id: Id)
    requires Inv(s) && Enabled(s, l) && InHand(s, id) && InHand(After(digest, s, l), id)
    ensures IsUncertain(After(digest, s, l), id) <==> IsUncertain(s, id) || Revokes(s, l, id)
  {
    match l
    case World(w) => RevokeInWorld(s, w, id);
    case MainDoes(m) => RevokeInMain(digest, s, m, id);
    case WorkerDoes(w) => RevokeInWorker(s, w, id);
  }

  /** An attempt is taken in hand only by starting it. */
  lemma TakenInHand(digest: Digest, s: Runtime, l: Label, id: Id)
    requires Inv(s) && Enabled(s, l) && !InHand(s, id) && InHand(After(digest, s, l), id)
    ensures !IsUncertain(After(digest, s, l), id)
  {
    match l
    case World(w) =>
    case MainDoes(m) =>
      MainLeavesWorker(digest, s, m);
    case WorkerDoes(w) =>
      TakenByWorker(s, w, id);
  }

  lemma MainLeavesWorker(digest: Digest, s: Runtime, m: MainLabel)
    requires MainEnabled(s, m)
    ensures MainAfter(digest, s, m).worker == s.worker
  {
  }

  lemma TakenByWorker(s: Runtime, w: WorkerLabel, id: Id)
    requires WorkerEnabled(s, w) && !InHand(s, id) && InHand(WorkerAfter(s, w), id)
    ensures !IsUncertain(WorkerAfter(s, w), id)
  {
  }

  lemma RevokedExtends(digest: Digest, labels: seq<Label>, k: nat, id: Id)
    requires labels != [] && InHand(Run(digest, labels), id) && RevokedAt(digest, labels[..|labels| - 1], k, id)
    ensures RevokedAt(digest, labels, k, id)
  {
    var rest := labels[..|labels| - 1];
    assert rest[..k] == labels[..k];
    HeldExtends(digest, labels, k, id);
  }

  lemma HeldExtends(digest: Digest, labels: seq<Label>, k: nat, id: Id)
    requires labels != [] && InHand(Run(digest, labels), id) && HeldFrom(digest, labels[..|labels| - 1], k, id)
    ensures HeldFrom(digest, labels, k, id)
  {
    var rest := labels[..|labels| - 1];
    forall j | k <= j <= |labels|
      ensures InHand(Run(digest, labels[..j]), id)
    {
      if j < |labels| {
        assert rest[..j] == labels[..j];
      } else {
        assert labels[..j] == labels;
      }
    }
  }

  lemma RevokedBefore(digest: Digest, labels: seq<Label>, k: nat, id: Id)
    requires RevokedAt(digest, labels, k, id)
    ensures InHand(Run(digest, labels[..|labels| - 1]), id)
    ensures k < |labels| - 1 ==> RevokedAt(digest, labels[..|labels| - 1], k, id)
  {
    var rest := labels[..|labels| - 1];
    if k < |labels| - 1 {
      assert rest[..k] == labels[..k];
      forall j | k <= j <= |rest|
        ensures InHand(Run(digest, rest[..j]), id)
      {
        assert rest[..j] == labels[..j];
      }
    }
  }

  lemma RevokedNow(digest: Digest, labels: seq<Label>, s: Runtime, id: Id)
    requires labels != [] && s == Run(digest, labels[..|labels| - 1])
    requires InHand(s, id) && InHand(Run(digest, labels), id)
    requires Enabled(s, labels[|labels| - 1]) && Revokes(s, labels[|labels| - 1], id)
    ensures RevokedAt(digest, labels, |labels| - 1, id)
  {
    forall j | |labels| - 1 <= j <= |labels|
      ensures InHand(Run(digest, labels[..j]), id)
    {
      if j == |labels| {
        assert labels[..j] == labels;
      }
    }
  }

  /** The row of an attempt in hand is uncertain if and only if a step revoked it. */
  lemma {:induction false} UncertainIffRevoked(digest: Digest, labels: seq<Label>, id: Id)
    requires InHand(Run(digest, labels), id)
    ensures IsUncertain(Run(digest, labels), id) <==> exists k :: RevokedAt(digest, labels, k, id)
  {
    var rest, l := labels[..|labels| - 1], labels[|labels| - 1];
    var s := Run(digest, rest);
    EveryRunIsSafe(digest, rest);
    if !InHand(s, id) {
      TakenInHand(digest, s, l, id);
      if k :| RevokedAt(digest, labels, k, id) {
        RevokedBefore(digest, labels, k, id);
        assert false;
      }
    } else {
      UncertainIffRevoked(digest, rest, id);
      if Enabled(s, l) {
        RevokeStep(digest, s, l, id);
        if Revokes(s, l, id) {
          RevokedNow(digest, labels, s, id);
        }
      }
      if k :| RevokedAt(digest, rest, k, id) {
        RevokedExtends(digest, labels, k, id);
      }
      if k :| RevokedAt(digest, labels, k, id) {
        RevokedBefore(digest, labels, k, id);
      }
    }
  }

  // -------------------------------------------------------------------- launches

  /** The dispatch has a verdict in the log. */
  predicate HasVerdict(log: seq<Event>, id: Id)
  {
    exists i :: 0 <= i < |log| && log[i].Settled? && log[i].id == id && !log[i].state.Retry?
  }

  lemma VerdictIsUncertain(s: Runtime, id: Id)
    requires LogOk(s) && CustodyOk(s) && Custody(s.worker) == Some(id)
    ensures HasVerdict(s.disk.log, id) <==> IsUncertain(s, id)
  {
    var log := s.disk.log;
    assert Tells(s.disk.store.dispatches, id, LifeOf(log, id));
    assert log[..|log|] == log;
    if i :| 0 <= i < |log| && log[i].Settled? && log[i].id == id && !log[i].state.Retry? {
      VerdictStays(log, i, |log|, id);
    }
    if IsUncertain(s, id) {
      ClosedWasSettled(log, id);
    }
  }

  /** Every launch is the first of its attempt. It comes after a verdict on its dispatch if and only if, since
      the attempt was started, the main thread gave up on it or the installer created the store; otherwise the
      row is running. */
  lemma LateLaunchIff(digest: Digest, labels: seq<Label>)
    requires Enabled(Run(digest, labels), WorkerDoes(Launch))
    ensures var s := Run(digest, labels); var id := s.worker.id;
      && !HasLaunched(LifeOf(s.disk.log, id))
      && (HasVerdict(s.disk.log, id) <==> exists k :: RevokedAt(digest, labels, k, id))
      && (RunningIn(s.disk.store.dispatches, id) <==> !exists k :: RevokedAt(digest, labels, k, id))
  {
    EveryRunIsSafe(digest, labels);
    VerdictIsUncertain(Run(digest, labels), Run(digest, labels).worker.id);
    UncertainIffRevoked(digest, labels, Run(digest, labels).worker.id);
  }

  /** A launch of the dispatch follows a verdict on it. */
  predicate LaunchedAfterVerdict(log: seq<Event>, id: Id)
  {
    exists j :: 0 <= j < |log| && log[j].Launched? && log[j].id == id && HasVerdict(log[..j], id)
  }

  /** Step n launches the dispatch after step k revoked it. */
  ghost predicate LateAt(digest: Digest, labels: seq<Label>, n: nat, k: nat, id: Id)
  {
    n < |labels| && labels[n] == WorkerDoes(Launch) && Enabled(Run(digest, labels[..n]), labels[n]) &&
    Run(digest, labels[..n]).worker.id == id && RevokedAt(digest, labels[..n], k, id)
  }

  /** A step adds at most one event, and a launch only where the worker launches. */
  lemma LogGrows(digest: Digest, s: Runtime, l: Label)
    requires Enabled(s, l)
    ensures var log, log' := s.disk.log, After(digest, s, l).disk.log;
      if l == WorkerDoes(Launch)
      then |log'| == |log| + 1 && log'[..|log|] == log && log'[|log|].Launched? && log'[|log|].id == s.worker.id
      else log' == log || (|log'| == |log| + 1 && log'[..|log|] == log && !log'[|log|].Launched?)
  {
    if l.MainDoes? && QuietAct(l.act) {
      QuietMainFrame(digest, s, l.act);
    }
  }

  lemma LaunchedAfterVerdictGrows(log: seq<Event>, e: Event, id: Id)
    ensures LaunchedAfterVerdict(log + [e], id) <==>
            LaunchedAfterVerdict(log, id) || (e.Launched? && e.id == id && HasVerdict(log, id))
  {
    var more := log + [e];
    assert more[..|log|] == log && more[|log|] == e;
    if j :| 0 <= j < |log| && log[j].Launched? && log[j].id == id && HasVerdict(log[..j], id) {
      assert more[j] == log[j] && more[..j] == log[..j];
    }
    if j :| 0 <= j < |more| && more[j].Launched? && more[j].id == id && HasVerdict(more[..j], id) {
      if j < |log| {
        assert more[j] == log[j] && more[..j] == log[..j];
      }
    }
  }

  lemma LateExtends(digest: Digest, labels: seq<Label>, n: nat, k: nat, id: Id)
    requires labels != []
    ensures LateAt(digest, labels[..|labels| - 1], n, k, id) <==> n < |labels| - 1 && LateAt(digest, labels, n, k, id)
  {
    if n < |labels| - 1 {
      assert labels[..|labels| - 1][..n] == labels[..n];
    }
  }

  /** The last step is a launch of the dispatch. */
  ghost predicate Launches(s: Runtime, l: Label, id: Id)
  {
    l == WorkerDoes(Launch) && Enabled(s, l) && s.worker.id == id
  }

  lemma LogOfLast(digest: Digest, s: Runtime, l: Label, id: Id)
    ensures LaunchedAfterVerdict((if Enabled(s, l) then After(digest, s, l) else s).disk.log, id) <==>
            LaunchedAfterVerdict(s.disk.log, id) || (Launches(s, l, id) && HasVerdict(s.disk.log, id))
  {
    if Enabled(s, l) {
      LogGrows(digest, s, l);
      var log, log' := s.disk.log, After(digest, s, l).disk.log;
      if log' != log {
        assert log' == log + [log'[|log|]];
        LaunchedAfterVerdictGrows(log, log'[|log|], id);
      }
    }
  }

  ghost predicate LateIn(digest: Digest, labels: seq<Label>, n: nat, id: Id)
  {
    exists k :: LateAt(digest, labels, n, k, id)
  }

  ghost predicate Late(digest: Digest, labels: seq<Label>, id: Id)
  {
    exists n, k :: LateAt(digest, labels, n, k, id)
  }

  lemma LateGrows(digest: Digest, labels: seq<Label>, id: Id)
    requires labels != []
    ensures Late(digest, labels, id) <==>
            Late(digest, labels[..|labels| - 1], id) || LateIn(digest, labels, |labels| - 1, id)
  {
    var rest := labels[..|labels| - 1];
    if n: nat, k: nat :| LateAt(digest, rest, n, k, id) {
      LateExtends(digest, labels, n, k, id);
      assert LateAt(digest, labels, n, k, id);
    }
    if n: nat, k: nat :| LateAt(digest, labels, n, k, id) {
      LateExtends(digest, labels, n, k, id);
      assert n == |rest| ==> LateIn(digest, labels, |rest|, id);
      assert n < |rest| ==> LateAt(digest, rest, n, k, id);
    }
  }

  lemma LastIsLateIff(digest: Digest, labels: seq<Label>, id: Id)
    requires labels != []
    ensures var s, l := Run(digest, labels[..|labels| - 1]), labels[|labels| - 1];
      LateIn(digest, labels, |labels| - 1, id) <==> Launches(s, l, id) && HasVerdict(s.disk.log, id)
  {
    var rest := labels[..|labels| - 1];
    if Launches(Run(digest, rest), labels[|labels| - 1], id) {
      LateLaunchIff(digest, rest);
      assert forall k :: RevokedAt(digest, rest, k, id) <==> LateAt(digest, labels, |rest|, k, id);
    }
  }

  /** Over whole runs: a dispatch is launched after a verdict if and only if some launch was revoked first. */
  lemma {:induction false} LaunchedAfterVerdictIff(digest: Digest, labels: seq<Label>, id: Id)
    ensures LaunchedAfterVerdict(Run(digest, labels).disk.log, id) <==> exists n, k :: LateAt(digest, labels, n, k, id)
  {
    if labels != [] {
      var rest := labels[..|labels| - 1];
      LaunchedAfterVerdictIff(digest, rest, id);
      LateGrows(digest, labels, id);
      LogOfLast(digest, Run(digest, rest), labels[|labels| - 1], id);
      LastIsLateIff(digest, labels, id);
    }
  }
}
