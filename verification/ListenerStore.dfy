/** The listener database as an object. Each method is one SQLite transaction: it works on local
    copies of the tables and assigns the fields only where the source commits. */
module ListenerStore {
  import opened Wrappers
  import opened Dispatches
  import opened Observation
  import opened StoreHistory

  datatype StoreError = InvalidPlanStatus | InvalidPlan | PlannerFailed | DispatchAbsent

  /** The ids an observation reports, in visiting order. */
  function QueuedIds(digest: Digest, s: Store, ms: seq<Mount>, planner: Mount -> Plan): seq<Id>
  {
    if ms == [] then []
    else
      var last := ms[|ms| - 1];
      QueuedIds(digest, s, ms[..|ms| - 1], planner)
      + if Wanted(s.mounts, last, planner(last)) then [SeenId(digest, s.mounts, last, planner(last))] else []
  }

  /** One mount whose plan was accepted: its row, the dispatch it may need, and the ids it reports. */
  method Visit(digest: Digest, ms: map<Mount, ObservedMount>, ds: DispatchTable, m: Mount, plan: Plan, now: real)
    returns (ms': map<Mount, ObservedMount>, ds': DispatchTable, ids: seq<Id>)
    requires Accepted(plan)
    ensures Store(ms', ds') == Arrive(digest, Store(ms, ds), m, plan, now)
    ensures ids == if Wanted(ms, m, plan) then [SeenId(digest, ms, m, plan)] else []
  {
    var seen := Seen(ms, m);
    ms', ds', ids := ms[m := seen], ds, [];
    if plan.Ready? && seen.marker != Some(plan.marker) {
      var id := DispatchId(digest, m, seen.generation, plan.marker);
      if id !in ds {
        ds' := ds[id := NewDispatch(m, seen.generation, plan, now)];
      }
      ms' := ms[m := seen.(marker := Some(plan.marker))];
      ids := [id];
    }
  }

  ghost predicate AllAccepted(ms: seq<Mount>, planner: Mount -> Plan, n: nat)
    requires n <= |ms|
  {
    forall k :: 0 <= k < n ==> Accepted(planner(ms[k]))
  }

  /** One more mount: the store arrives at it, and what it saw of the mount is what was there before. */
  lemma VisitNext(digest: Digest, s: Store, current: seq<Mount>, planner: Mount -> Plan, now: real, i: nat)
    requires Distinct(current) && i < |current|
    ensures var departed := Store(Depart(s.mounts, current), s.dispatches);
            var here := ArriveAll(digest, departed, current[..i], planner, now);
            && ArriveAll(digest, departed, current[..i + 1], planner, now) == Arrive(digest, here, current[i], planner(current[i]), now)
            && Seen(here.mounts, current[i]) == Seen(s.mounts, current[i])
  {
    var next := current[..i + 1];
    assert next[..|next| - 1] == current[..i] && next[|next| - 1] == current[i] && current[i] !in current[..i];
    ArriveAllMounts(digest, Store(Depart(s.mounts, current), s.dispatches), current[..i], planner, now, current[i]);
  }

  lemma QueuedNext(digest: Digest, s: Store, current: seq<Mount>, planner: Mount -> Plan, i: nat)
    requires i < |current|
    ensures QueuedIds(digest, s, current[..i + 1], planner) ==
            QueuedIds(digest, s, current[..i], planner) +
            if Wanted(s.mounts, current[i], planner(current[i]))
            then [SeenId(digest, s.mounts, current[i], planner(current[i]))] else []
  {
    var next := current[..i + 1];
    assert next[..|next| - 1] == current[..i] && next[|next| - 1] == current[i];
  }

  /** The loop of `observe` over the mounts that are there. */
  method VisitAll(digest: Digest, s: Store, current: seq<Mount>, planner: Mount -> Plan, now: real)
    returns (r: Result<(Store, seq<Id>), StoreError>)
    requires Distinct(current)
    ensures r.Ok? <==> AllAccepted(current, planner, |current|)
    ensures r.Ok? ==> r.value.0 == Observed(digest, s, current, planner, now)
    ensures r.Ok? ==> r.value.1 == QueuedIds(digest, s, current, planner)
  {
    ghost var departed := Store(Depart(s.mounts, current), s.dispatches);
    var ms, ds := Depart(s.mounts, current), s.dispatches;
    var queued: seq<Id> := [];
    for i := 0 to |current|
      invariant AllAccepted(current, planner, i)
      invariant Store(ms, ds) == ArriveAll(digest, departed, current[..i], planner, now)
      invariant queued == QueuedIds(digest, s, current[..i], planner)
    {
      var m := current[i];
      var plan := planner(m);
      match plan
      case BadStatus => return Err(InvalidPlanStatus);
      case BadFields => return Err(InvalidPlan);
      case PlannerRaised => return Err(PlannerFailed);
      case _ =>
        VisitNext(digest, s, current, planner, now, i);
        QueuedNext(digest, s, current, planner, i);
        var ids;
        ms, ds, ids := Visit(digest, ms, ds, m, plan, now);
        queued := queued + ids;
    }
    assert current[..|current|] == current;
    return Ok((Store(ms, ds), queued));
  }

  class ListenerStore {
    const digest: Digest
    var mounts: map<Mount, ObservedMount>
    var dispatches: DispatchTable

    function Value(): Store
      reads this
    {
      Store(mounts, dispatches)
    }

    constructor (digest: Digest)
      ensures this.digest == digest && Value() == EMPTY
    {
      this.digest := digest;
      mounts, dispatches := map[], map[];
    }

    method Create()
      modifies this
      ensures Value() == Apply(digest, old(Value()), Op.Create)
    {
      dispatches := RecoverRunning(dispatches);
    }

    method Observe(found: seq<Mount>, planner: Mount -> Plan, now: real) returns (r: Result<seq<Id>, StoreError>)
      modifies this
      ensures Value() == Apply(digest, old(Value()), Op.Observe(found, planner, now))
      ensures r.Ok? <==> Commits(found, planner)
      ensures r.Ok? ==> r.value == QueuedIds(digest, old(Value()), Dedup(found), planner)
    {
      var current := Dedup(found);
      assert Commits(found, planner) <==> AllAccepted(current, planner, |current|);
      var seen :- VisitAll(digest, Store(mounts, dispatches), current, planner, now);
      mounts, dispatches := seen.0.mounts, seen.0.dispatches;
      r := Ok(seen.1);
    }

    /** The query behind `runnable`: repeatedly takes the first remaining row in order. */
    method Runnable(now: real, limit: int) returns (ids: seq<Id>)
      ensures IsSelection(dispatches, now, limit, ids)
    {
      ids := [];
      if limit < 1 {
        return;
      }
      var left := set id | id in dispatches && Dispatches.Runnable(dispatches[id], now);
      while |ids| < limit && left != {}
        invariant |ids| <= limit
        invariant forall id :: RunnableIn(dispatches, id, now) <==> id in left || id in ids
        invariant forall k :: 0 <= k < |ids| ==> ids[k] !in left
        invariant forall j, k :: 0 <= j < k < |ids| ==> ids[j] != ids[k] && Before(dispatches, ids[j], ids[k])
        invariant forall id, k :: id in left && 0 <= k < |ids| ==> Before(dispatches, ids[k], id)
        decreases limit - |ids|
      {
        var first := First(left);
        ids, left := ids + [first], left - {first};
      }
    }

    method First(left: set<Id>) returns (first: Id)
      requires left != {} && forall id :: id in left ==> id in dispatches
      ensures first in left && forall id :: id in left ==> Before(dispatches, first, id)
    {
      first :| first in left;
      var rest := left - {first};
      BeforeTotal(dispatches, first, first);
      while rest != {}
        invariant first in left && rest <= left
        invariant forall id :: id in left && id !in rest ==> Before(dispatches, first, id)
        decreases rest
      {
        var next :| next in rest;
        BeforeTotal(dispatches, first, next);
        BeforeTotal(dispatches, next, next);
        if !Before(dispatches, first, next) {
          forall id | id in left && id !in rest ensures Before(dispatches, next, id) {
            BeforeTransitive(dispatches, next, first, id);
          }
          first := next;
        }
        rest := rest - {next};
      }
    }

    method StartDispatch(id: Id, now: real) returns (plan: Option<string>)
      modifies this
      ensures Value() == Apply(digest, old(Value()), Op.Start(id, now))
      ensures plan.Some? <==> RunnableIn(old(dispatches), id, now)
      ensures plan.Some? ==> plan.value == old(dispatches)[id].plan
    {
      if id !in dispatches || !Dispatches.Runnable(dispatches[id], now) {
        return None;
      }
      plan := Some(dispatches[id].plan);
      dispatches := dispatches[id := StartedRow(dispatches[id], now)];
    }

    method FinishDispatch(id: Id, returnCode: Option<int>, error: Option<string>, uncertain: bool, now: real)
      returns (r: Result<State, StoreError>)
      modifies this
      ensures Value() == Apply(digest, old(Value()), Op.Finish(id, returnCode, error, uncertain, now))
      ensures r.Ok? <==> RunningIn(old(dispatches), id)
      ensures r.Ok? ==> r.value == dispatches[id].state
    {
      if id !in dispatches || dispatches[id].state != Running {
        return Err(DispatchAbsent);
      }
      var row := dispatches[id];
      var state, nextRetry, note := Failed, None, error;
      if uncertain {
        state := Uncertain;
        if error.None? || error.value == "" {
          note := Some("listener stopped while the action process had custody");
        }
      } else if returnCode == Some(0) && error.None? {
        state := Completed;
      } else if row.attempts < MAX_ATTEMPTS {
        state := Retry;
        nextRetry := Some(now + if row.attempts == 1 then 5.0 else 30.0);
      }
      dispatches := dispatches[id := row.(state := state, completedAt := Some(now), nextRetryAt := nextRetry,
                                          exitCode := returnCode, error := note)];
      r := Ok(state);
    }

    method MarkRunningUncertain(id: Id, reason: string, now: real)
      modifies this
      ensures Value() == Apply(digest, old(Value()), Op.MarkUncertain(id, reason, now))
    {
      if id in dispatches && dispatches[id].state == Running {
        dispatches := dispatches[id := AbandonedRow(dispatches[id], reason, now)];
      }
    }
  }
}
