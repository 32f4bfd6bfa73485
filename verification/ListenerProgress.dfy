/** What a listener at rest can do next: take the first runnable dispatch, run its action, settle it and come to
    rest again. */
module ListenerProgress {
  import opened Wrappers
  import opened Dispatches
  import opened Observation
  import opened DispatchLife
  import opened ListenerRuntime
  import opened ListenerSafety

  /** Nothing is queued or active and nobody asked to stop. */
  predicate Resting(s: Runtime)
  {
    && s.main == Looping && s.worker == Idle && !s.shared.stop
    && s.shared.queue == [] && s.shared.queued == {} && s.shared.active.None?
  }

  ghost function RunFrom(digest: Digest, s: Runtime, more: seq<Label>): Runtime
  {
    if more == [] then s
    else
      var t, l := RunFrom(digest, s, more[..|more| - 1]), more[|more| - 1];
      if Enabled(t, l) then After(digest, t, l) else t
  }

  lemma {:induction false} RunThen(digest: Digest, labels: seq<Label>, more: seq<Label>)
    ensures Run(digest, labels + more) == RunFrom(digest, Run(digest, labels), more)
  {
    var all := labels + more;
    if more == [] {
      assert all == labels;
    } else {
      assert all[..|all| - 1] == labels + more[..|more| - 1] && all[|all| - 1] == more[|more| - 1];
      RunThen(digest, labels, more[..|more| - 1]);
    }
  }

  /** The two threads alone can take one state to another. */
  ghost predicate Reaches(digest: Digest, s: Runtime, t: Runtime)
  {
    exists more :: RunFrom(digest, s, more) == t && ByThreads(more)
  }

  predicate ByThreads(more: seq<Label>)
  {
    forall i :: 0 <= i < |more| ==> !more[i].World?
  }

  lemma Go(digest: Digest, s: Runtime, t: Runtime, l: Label, u: Runtime)
    requires Reaches(digest, s, t) && !l.World? && Enabled(t, l) && After(digest, t, l) == u
    ensures Reaches(digest, s, u)
  {
    var more :| RunFrom(digest, s, more) == t && ByThreads(more);
    var longer := more + [l];
    assert longer[..|longer| - 1] == more && longer[|longer| - 1] == l;
    assert RunFrom(digest, s, longer) == u && ByThreads(longer);
  }

  lemma Stay(digest: Digest, s: Runtime)
    ensures Reaches(digest, s, s)
  {
    assert RunFrom(digest, s, []) == s;
  }

  // ------------------------------------------------------------------ choosing the first

  ghost predicate IsFirst(ds: DispatchTable, now: real, id: Id)
  {
    RunnableIn(ds, id, now) && forall x :: RunnableIn(ds, x, now) ==> Before(ds, id, x)
  }

  lemma {:induction false} FirstOf(ds: DispatchTable, left: set<Id>) returns (first: Id)
    requires left != {} && left <= ds.Keys
    ensures first in left && forall x :: x in left ==> Before(ds, first, x)
    decreases |left|
  {
    var some :| some in left;
    BeforeTotal(ds, some, some);
    var rest := left - {some};
    if rest == {} {
      assert left == {some};
      first := some;
    } else {
      var other := FirstOf(ds, rest);
      BeforeTotal(ds, some, other);
      first := if Before(ds, some, other) then some else other;
      forall x | x in left
        ensures Before(ds, first, x)
      {
        if x != some {
          assert x in rest;
          if first == some {
            BeforeTransitive(ds, some, other, x);
          }
        }
      }
    }
  }

  lemma FirstExists(ds: DispatchTable, now: real, id: Id) returns (first: Id)
    requires RunnableIn(ds, id, now)
    ensures IsFirst(ds, now, first)
  {
    var left := set x | x in ds && RunnableIn(ds, x, now);
    assert id in left;
    first := FirstOf(ds, left);
  }

  lemma FirstIsSelection(ds: DispatchTable, now: real, first: Id)
    requires IsFirst(ds, now, first)
    ensures IsSelection(ds, now, 1, [first])
  {
  }

  // -------------------------------------------------------------------------- the main thread

  lemma Polls(digest: Digest, s: Runtime)
    requires Resting(s)
    ensures Reaches(digest, s, s.(shared := s.shared.(configValid := true), main := Selecting(s.clock.now, 1)))
  {
    var now, sh := s.clock.now, s.shared.(configValid := true);
    Stay(digest, s);
    Go(digest, s, s, MainDoes(EnterOnce), s.(main := Polled(now)));
    Go(digest, s, s.(main := Polled(now)), MainDoes(CheckConfig(true)), s.(shared := sh, main := Discovering(now)));
    Go(digest, s, s.(shared := sh, main := Discovering(now)), MainDoes(DiscoveryFails), s.(shared := sh, main := SamplingActive(now)));
    Go(digest, s, s.(shared := sh, main := SamplingActive(now)), MainDoes(SampleActive),
       s.(shared := sh, main := SamplingQueued(now, false)));
    Go(digest, s, s.(shared := sh, main := SamplingQueued(now, false)), MainDoes(SampleQueued),
       s.(shared := sh, main := Selecting(now, 1)));
  }

  /** The selected dispatch is queued, and the main thread is back at the top of its loop. */
  lemma Enqueues(digest: Digest, s: Runtime, id: Id)
    requires Resting(s) && IsFirst(s.disk.store.dispatches, s.clock.now, id)
    ensures Reaches(digest, s, s.(shared := s.shared.(configValid := true, queue := [id], queued := {id})))
  {
    var now, sh := s.clock.now, s.shared.(configValid := true);
    var queued := sh.(queue := [id], queued := {id});
    Polls(digest, s);
    FirstIsSelection(s.disk.store.dispatches, now, id);
    Go(digest, s, s.(shared := sh, main := Selecting(now, 1)), MainDoes(Select([id])), s.(shared := sh, main := Enqueuing(now, [id])));
    EnqueueOne(sh, [id]);
    Go(digest, s, s.(shared := sh, main := Enqueuing(now, [id])), MainDoes(Enqueue), s.(shared := queued, main := Beating));
    Go(digest, s, s.(shared := queued, main := Beating), MainDoes(MainBeats), s.(shared := queued, main := Pausing));
    Go(digest, s, s.(shared := queued, main := Pausing), MainDoes(Wake(false)), s.(shared := queued));
  }

  // ------------------------------------------------------------------------------ the worker

  /** The disk once an attempt has begun. */
  function DiskBegun(d: Disk, id: Id, now: real): Disk
    requires id in d.store.dispatches
  {
    var row := StartedRow(d.store.dispatches[id], now);
    Disk(d.store.(dispatches := d.store.dispatches[id := row]), d.log + [Started(id, row.attempts, now)])
  }

  lemma Begins(digest: Digest, s: Runtime, id: Id, disk: Disk)
    requires Resting(s) && IsFirst(s.disk.store.dispatches, s.clock.now, id) && disk == DiskBegun(s.disk, id, s.clock.now)
    ensures Reaches(digest, s, s.(disk := disk, shared := s.shared.(configValid := true, active := Some(id)), worker := Deciding(id)))
  {
    var sh := s.shared.(configValid := true);
    var taken := sh.(queued := {id});
    Enqueues(digest, s, id);
    Go(digest, s, s.(shared := sh.(queue := [id], queued := {id})), WorkerDoes(Dequeue), s.(shared := taken, worker := Held(id)));
    Go(digest, s, s.(shared := taken, worker := Held(id)), WorkerDoes(Proceed), s.(shared := taken, worker := Starting(id)));
    Go(digest, s, s.(shared := taken, worker := Starting(id)), WorkerDoes(StartCommit),
       s.(disk := disk, shared := taken, worker := Begun(id)));
    assert taken.queued - {id} == {};
    Go(digest, s, s.(disk := disk, shared := taken, worker := Begun(id)), WorkerDoes(Unqueue),
       s.(disk := disk, shared := sh, worker := Claiming(id)));
    Go(digest, s, s.(disk := disk, shared := sh, worker := Claiming(id)), WorkerDoes(SetActive),
       s.(disk := disk, shared := sh.(active := Some(id)), worker := Publishing(id)));
    Go(digest, s, s.(disk := disk, shared := sh.(active := Some(id)), worker := Publishing(id)), WorkerDoes(WorkerBeats),
       s.(disk := disk, shared := sh.(active := Some(id)), worker := Deciding(id)));
  }

  /** The action is launched and returns. */
  lemma Runs(digest: Digest, s: Runtime, t: Runtime, id: Id, code: int)
    requires Reaches(digest, s, t) && t.worker == Deciding(id) && !t.main.Down? && !t.shared.stop && id in t.disk.store.dispatches
    ensures var disk := t.disk.(log := t.disk.log + [Launched(id, t.disk.store.dispatches[id].attempts)]);
      Reaches(digest, s, t.(disk := disk, shared := t.shared.(process := Exited), worker := Reporting(id, Some(code), None, true)))
  {
    var disk := t.disk.(log := t.disk.log + [Launched(id, t.disk.store.dispatches[id].attempts)]);
    Go(digest, s, t, WorkerDoes(Decide), t.(worker := Launching(id)));
    Go(digest, s, t.(worker := Launching(id)), WorkerDoes(Launch), t.(disk := disk, worker := Registering(id)));
    var live := t.shared.(process := Live);
    Go(digest, s, t.(disk := disk, worker := Registering(id)), WorkerDoes(Register),
       t.(disk := disk, shared := live, worker := Waiting(id)));
    Go(digest, s, t.(disk := disk, shared := live, worker := Waiting(id)), WorkerDoes(WaitReturns(code)),
       t.(disk := disk, shared := t.shared.(process := Exited), worker := Reporting(id, Some(code), None, true)));
  }

  /** The verdict is recorded, and the worker waits for the next dispatch. */
  lemma Settles(digest: Digest, s: Runtime, t: Runtime, id: Id, code: int, row: Dispatch)
    requires Reaches(digest, s, t) && t.worker == Reporting(id, Some(code), None, true) && !t.main.Down? && !t.shared.stop
    requires RunningIn(t.disk.store.dispatches, id) && t.shared.process.Exited?
    requires row == FinishedRow(t.disk.store.dispatches[id], Some(code), None, false, t.clock.now)
    ensures var disk := Disk(t.disk.store.(dispatches := t.disk.store.dispatches[id := row]),
                             t.disk.log + [Settled(id, row.attempts, row.state, t.clock.now)]);
      Reaches(digest, s, t.(disk := disk, shared := t.shared.(active := None, process := NoProcess), worker := Idle))
  {
    var disk := Disk(t.disk.store.(dispatches := t.disk.store.dispatches[id := row]),
                     t.disk.log + [Settled(id, row.attempts, row.state, t.clock.now)]);
    Go(digest, s, t, WorkerDoes(Classify), t.(worker := Finishing(id, Some(code), None, false, true)));
    Go(digest, s, t.(worker := Finishing(id, Some(code), None, false, true)), WorkerDoes(FinishCommit),
       t.(disk := disk, worker := Clearing(id, true)));
    var free := t.shared.(active := None, process := NoProcess);
    Go(digest, s, t.(disk := disk, worker := Clearing(id, true)), WorkerDoes(ClearActive),
       t.(disk := disk, shared := free, worker := Announcing));
    Go(digest, s, t.(disk := disk, shared := free, worker := Announcing), WorkerDoes(Announce),
       t.(disk := disk, shared := free, worker := Idle));
  }

  // ------------------------------------------------------------------------------- a round

  /** The row of an attempt that was started and whose process returned a code. */
  predicate SettledRow(d: Dispatch, d': Dispatch, code: int, now: real)
  {
    && d'.state == (if code == 0 then Completed else if d.attempts < 2 then Retry else Failed)
    && d'.attempts == d.attempts + 1 && d'.exitCode == Some(code) && d'.error.None?
    && d'.startedAt == Some(now) && d'.completedAt == Some(now)
    && d'.nextRetryAt == (if d'.state.Retry? then Some(now + if d.attempts == 0 then 5.0 else 30.0) else None)
    && d' == d.(state := d'.state, attempts := d'.attempts, startedAt := d'.startedAt, completedAt := d'.completedAt,
                nextRetryAt := d'.nextRetryAt, exitCode := d'.exitCode, error := d'.error)
  }

  lemma RowIsSettled(d: Dispatch, code: int, now: real)
    requires d.attempts < 3
    ensures SettledRow(d, FinishedRow(StartedRow(d, now), Some(code), None, false, now), code, now)
  {
  }

  /** The state after one round with a dispatch. */
  ghost predicate Rounded(s: Runtime, t: Runtime, id: Id, code: int)
  {
    var ds, ds' := s.disk.store.dispatches, t.disk.store.dispatches;
    && Resting(t) && id in ds && id in ds' && SettledRow(ds[id], ds'[id], code, s.clock.now)
    && t.disk.store == s.disk.store.(dispatches := ds[id := ds'[id]])
    && t.disk.log == s.disk.log + [Started(id, ds'[id].attempts, s.clock.now), Launched(id, ds'[id].attempts),
                                   Settled(id, ds'[id].attempts, ds'[id].state, s.clock.now)]
  }

  /** Launching and settling an attempt that has begun. */
  lemma Finishes(digest: Digest, s: Runtime, a: Runtime, id: Id, code: int, row: Dispatch) returns (t: Runtime)
    requires Reaches(digest, s, a) && a.worker == Deciding(id) && a.main == Looping && !a.shared.stop
    requires RunningIn(a.disk.store.dispatches, id)
    requires row == FinishedRow(a.disk.store.dispatches[id], Some(code), None, false, a.clock.now)
    ensures Reaches(digest, s, t)
    ensures t == a.(disk := t.disk, shared := a.shared.(active := None, process := NoProcess), worker := Idle)
    ensures t.disk.store == a.disk.store.(dispatches := a.disk.store.dispatches[id := row])
    ensures t.disk.log == a.disk.log + [Launched(id, row.attempts), Settled(id, row.attempts, row.state, a.clock.now)]
  {
    Runs(digest, s, a, id, code);
    var b := a.(disk := a.disk.(log := a.disk.log + [Launched(id, row.attempts)]), shared := a.shared.(process := Exited),
                worker := Reporting(id, Some(code), None, true));
    Settles(digest, s, b, id, code, row);
    t := b.(disk := Disk(b.disk.store.(dispatches := b.disk.store.dispatches[id := row]),
                         b.disk.log + [Settled(id, row.attempts, row.state, a.clock.now)]),
            shared := b.shared.(active := None, process := NoProcess), worker := Idle);
  }

  lemma RoundFrom(digest: Digest, s: Runtime, id: Id, code: int) returns (t: Runtime)
    requires Inv(s) && Resting(s) && IsFirst(s.disk.store.dispatches, s.clock.now, id)
    ensures Reaches(digest, s, t) && Rounded(s, t, id, code)
  {
    var now, ds := s.clock.now, s.disk.store.dispatches;
    var begun := DiskBegun(s.disk, id, now);
    Begins(digest, s, id, begun);
    var a := s.(disk := begun, shared := s.shared.(configValid := true, active := Some(id)), worker := Deciding(id));
    var row := FinishedRow(StartedRow(ds[id], now), Some(code), None, false, now);
    t := Finishes(digest, s, a, id, code, row);
    assert RowOk(ds[id]);
    RowIsSettled(ds[id], code, now);
    assert begun.store.dispatches[id := row] == ds[id := row];
  }

  /** A listener at rest with something to do can take the first runnable dispatch, launch its action, record what
      the action returned and come to rest again, with nothing else changed. */
  lemma RunnableIsServed(digest: Digest, labels: seq<Label>, id: Id, code: int) returns (more: seq<Label>, first: Id)
    requires Resting(Run(digest, labels)) && RunnableIn(Run(digest, labels).disk.store.dispatches, id, Run(digest, labels).clock.now)
    ensures var s, t := Run(digest, labels), Run(digest, labels + more);
      ByThreads(more) && IsFirst(s.disk.store.dispatches, s.clock.now, first) && Rounded(s, t, first, code)
  {
    var s := Run(digest, labels);
    EveryRunIsSafe(digest, labels);
    first := FirstExists(s.disk.store.dispatches, s.clock.now, id);
    var t := RoundFrom(digest, s, first, code);
    more :| RunFrom(digest, s, more) == t && ByThreads(more);
    RunThen(digest, labels, more);
  }
}
