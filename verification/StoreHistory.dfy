/** Every store state reachable by any sequence of the store's transactions. */
module StoreHistory {
  import opened Wrappers
  import opened Dispatches
  import opened Observation

  datatype Op =
    | Observe(found: seq<Mount>, planner: Mount -> Plan, now: real)
    | Start(id: Id, now: real)
    | Finish(id: Id, returnCode: Option<int>, error: Option<string>, uncertain: bool, now: real)
    | MarkUncertain(id: Id, reason: string, now: real)
    | Create

  /** An observation commits when the planner accepts every current mount. */
  ghost predicate Commits(found: seq<Mount>, planner: Mount -> Plan)
  {
    forall m :: m in found ==> Accepted(planner(m))
  }

  /** The durable effect of one call; a call that raises has none. */
  ghost function Apply(digest: Digest, s: Store, op: Op): Store
  {
    match op
    case Observe(found, planner, now) =>
      if Commits(found, planner) then Observed(digest, s, Dedup(found), planner, now) else s
    case Start(id, now) =>
      var ds := StartDispatch(s.dispatches, id, now);
      if ds.Some? then s.(dispatches := ds.value) else s
    case Finish(id, returnCode, error, uncertain, now) =>
      var ds := FinishDispatch(s.dispatches, id, returnCode, error, uncertain, now);
      if ds.Some? then s.(dispatches := ds.value) else s
    case MarkUncertain(id, reason, now) =>
      s.(dispatches := MarkRunningUncertain(s.dispatches, id, reason, now))
    case Create =>
      s.(dispatches := RecoverRunning(s.dispatches))
  }

  ghost function Replay(digest: Digest, ops: seq<Op>): Store
  {
    if ops == [] then EMPTY
    else Apply(digest, Replay(digest, ops[..|ops| - 1]), ops[|ops| - 1])
  }

  // --------------------------------------------------------------- invariant

  /** A row is filed under the digest of its own mount, generation and marker. */
  ghost predicate Keyed(digest: Digest, s: Store)
  {
    forall id :: id in s.dispatches ==>
      id == DispatchId(digest, s.dispatches[id].mount, s.dispatches[id].generation, s.dispatches[id].marker)
  }

  /** A recorded marker always has its dispatch. */
  ghost predicate Marked(digest: Digest, s: Store)
  {
    forall m :: m in s.mounts && s.mounts[m].marker.Some? ==>
      DispatchId(digest, m, s.mounts[m].generation, s.mounts[m].marker.value) in s.dispatches
  }

  ghost predicate StoreOk(digest: Digest, s: Store)
  {
    RowsOk(s.dispatches) && Keyed(digest, s) && Marked(digest, s)
  }

  lemma ObserveKeepsStoreOk(digest: Digest, s: Store, ms: seq<Mount>, planner: Mount -> Plan, now: real)
    requires StoreOk(digest, s) && Distinct(ms)
    ensures StoreOk(digest, Observed(digest, s, ms, planner, now))
  {
    var departed := Store(Depart(s.mounts, ms), s.dispatches);
    var after := Observed(digest, s, ms, planner, now);
    forall id | id in after.dispatches
      ensures RowOk(after.dispatches[id])
      ensures id == DispatchId(digest, after.dispatches[id].mount, after.dispatches[id].generation, after.dispatches[id].marker)
    {
      if id in s.dispatches {
        ArriveAllKeepsRows(digest, departed, ms, planner, now, id);
      } else {
        ArriveAllNewRows(digest, departed, ms, planner, now, id);
      }
    }
    forall m | m in after.mounts && after.mounts[m].marker.Some?
      ensures DispatchId(digest, m, after.mounts[m].generation, after.mounts[m].marker.value) in after.dispatches
    {
      ObservedMounts(digest, s, ms, planner, now, m);
      if m in ms && Wanted(departed.mounts, m, planner(m)) {
        ArriveAllHasRow(digest, departed, ms, planner, now, m);
      } else {
        var id := DispatchId(digest, m, s.mounts[m].generation, s.mounts[m].marker.value);
        ArriveAllKeepsRows(digest, departed, ms, planner, now, id);
      }
    }
  }

  lemma ApplyKeepsStoreOk(digest: Digest, s: Store, op: Op)
    requires StoreOk(digest, s)
    ensures StoreOk(digest, Apply(digest, s, op))
  {
    match op
    case Observe(found, planner, now) => ObserveKeepsStoreOk(digest, s, Dedup(found), planner, now);
    case Start(id, now) => StartKeepsStoreOk(digest, s, id, now);
    case Finish(id, returnCode, error, uncertain, now) => FinishKeepsStoreOk(digest, s, id, returnCode, error, uncertain, now);
    case MarkUncertain(id, reason, now) =>
    case Create =>
  }

  lemma StartKeepsStoreOk(digest: Digest, s: Store, id: Id, now: real)
    requires StoreOk(digest, s)
    ensures StoreOk(digest, Apply(digest, s, Start(id, now)))
  {
    if RunnableIn(s.dispatches, id, now) {
      ChangedRowKeepsStoreOk(digest, s, id, StartedRow(s.dispatches[id], now));
    }
  }

  lemma ChangedRowKeepsStoreOk(digest: Digest, s: Store, id: Id, d: Dispatch)
    requires StoreOk(digest, s) && id in s.dispatches && RowOk(d)
    requires var old' := s.dispatches[id]; d.mount == old'.mount && d.generation == old'.generation && d.marker == old'.marker
    ensures StoreOk(digest, s.(dispatches := s.dispatches[id := d]))
  {
  }

  lemma FinishKeepsStoreOk(
    digest: Digest, s: Store, id: Id, returnCode: Option<int>, error: Option<string>, uncertain: bool, now: real)
    requires StoreOk(digest, s)
    ensures StoreOk(digest, Apply(digest, s, Finish(id, returnCode, error, uncertain, now)))
  {
    if RunningIn(s.dispatches, id) {
      ChangedRowKeepsStoreOk(digest, s, id, FinishedRow(s.dispatches[id], returnCode, error, uncertain, now));
    }
  }

  /** In every reachable state: attempts and retry time fit the row's state, every row is filed
      under its own digest, and every recorded marker has its dispatch. */
  lemma {:induction false} ReachableStoreOk(digest: Digest, ops: seq<Op>)
    ensures StoreOk(digest, Replay(digest, ops))
  {
    if ops != [] {
      ReachableStoreOk(digest, ops[..|ops| - 1]);
      ApplyKeepsStoreOk(digest, Replay(digest, ops[..|ops| - 1]), ops[|ops| - 1]);
    }
  }

  /** At most one dispatch per mount, generation and marker, whatever markers came in between. */
  lemma OneRowPerMarker(digest: Digest, ops: seq<Op>, a: Id, b: Id)
    requires a in Replay(digest, ops).dispatches && b in Replay(digest, ops).dispatches
    requires var ds := Replay(digest, ops).dispatches;
      ds[a].mount == ds[b].mount && ds[a].generation == ds[b].generation && ds[a].marker == ds[b].marker
    ensures a == b
  {
    ReachableStoreOk(digest, ops);
  }

  /** After a committed observation every ready mount has a row carrying its mount, its current
      generation and its marker; if it was there before, it is the very same row. */
  lemma ReadyMountHasRow(digest: Digest, ops: seq<Op>, found: seq<Mount>, planner: Mount -> Plan, now: real, m: Mount)
    requires Injective(digest) && Commits(found, planner)
    requires m in found && planner(m).Ready?
    ensures var before := Replay(digest, ops);
      var after := Replay(digest, ops + [Observe(found, planner, now)]);
      && m in after.mounts
      && var id := DispatchId(digest, m, after.mounts[m].generation, planner(m).marker);
      && id in after.dispatches
      && after.dispatches[id].mount == m
      && after.dispatches[id].generation == after.mounts[m].generation
      && after.dispatches[id].marker == planner(m).marker
      && (id in before.dispatches ==> after.dispatches[id] == before.dispatches[id])
      && (id !in before.dispatches ==> IsFresh(after.dispatches[id], planner(m), now))
  {
    var before := Replay(digest, ops);
    var ops' := ops + [Observe(found, planner, now)];
    assert ops'[..|ops'| - 1] == ops;
    var ms := Dedup(found);
    var after := Replay(digest, ops');
    assert after == Observed(digest, before, ms, planner, now);
    ReachableStoreOk(digest, ops');
    ObservedMounts(digest, before, ms, planner, now, m);
    var id := DispatchId(digest, m, after.mounts[m].generation, planner(m).marker);
    assert id in after.dispatches;
    var row := after.dispatches[id];
    DispatchIdInjective(digest, m, after.mounts[m].generation, planner(m).marker, row.mount, row.generation, row.marker);
    if id in before.dispatches {
      ArriveAllKeepsRows(digest, Store(Depart(before.mounts, ms), before.dispatches), ms, planner, now, id);
    } else {
      NewRowIsFresh(digest, before, found, planner, now, id);
    }
  }

  /** A dispatch as it is first written: the route and plan its planner gave, seen now and never tried. */
  predicate IsFresh(d: Dispatch, p: Plan, now: real)
  {
    && p.Ready? && d.route == p.route && d.plan == p.json && d.observedAt == now
    && d.state.Queued? && d.attempts == 0 && d.startedAt.None? && d.completedAt.None? && d.nextRetryAt.None?
    && d.exitCode.None? && d.error.None?
  }

  /** A row that an observation adds belongs to a mount it found ready, with a marker it had not recorded for the
      mount, and carries what the planner gave. */
  lemma NewRowIsFresh(digest: Digest, s: Store, found: seq<Mount>, planner: Mount -> Plan, now: real, id: Id)
    requires id !in s.dispatches && id in Observed(digest, s, Dedup(found), planner, now).dispatches
    ensures var d := Observed(digest, s, Dedup(found), planner, now).dispatches[id];
      && d.mount in found && planner(d.mount).Ready? && d.marker == planner(d.mount).marker
      && (d.mount in s.mounts && s.mounts[d.mount].present ==> s.mounts[d.mount].marker != Some(d.marker))
      && IsFresh(d, planner(d.mount), now)
  {
    var ms := Dedup(found);
    ArriveAllNewRows(digest, Store(Depart(s.mounts, ms), s.dispatches), ms, planner, now, id);
  }

  // ------------------------------------------------------------- generations

  /** The mount sets of the committed observations, oldest first. */
  ghost function Sightings(ops: seq<Op>): seq<seq<Mount>>
  {
    if ops == [] then []
    else
      var rest, op := Sightings(ops[..|ops| - 1]), ops[|ops| - 1];
      if op.Observe? && Commits(op.found, op.planner) then rest + [op.found] else rest
  }

  predicate LastSaw(h: seq<seq<Mount>>, m: Mount)
  {
    h != [] && m in h[|h| - 1]
  }

  /** How often a mount went from absent to present. */
  function Edges(h: seq<seq<Mount>>, m: Mount): nat
  {
    if h == [] then 0
    else
      var rest := h[..|h| - 1];
      Edges(rest, m) + if LastSaw(h, m) && !LastSaw(rest, m) then 1 else 0
  }

  /** A mount's stored generation is its number of absent-to-present edges, and its presence is
      what the last committed observation said, after any sequence of transactions. */
  lemma {:induction false} GenerationCountsEdges(digest: Digest, ops: seq<Op>, m: Mount)
    ensures CountsEdges(Replay(digest, ops).mounts, Sightings(ops), m)
  {
    if ops != [] {
      var rest, op := ops[..|ops| - 1], ops[|ops| - 1];
      var s := Replay(digest, rest);
      GenerationCountsEdges(digest, rest, m);
      if op.Observe? && Commits(op.found, op.planner) {
        SightingCounts(digest, s, op.found, op.planner, op.now, m, Sightings(rest));
      } else {
        assert Apply(digest, s, op).mounts == s.mounts;
      }
    }
  }

  predicate CountsEdges(mounts: map<Mount, ObservedMount>, h: seq<seq<Mount>>, m: Mount)
  {
    && (m in mounts <==> Edges(h, m) > 0)
    && (m in mounts ==> mounts[m].generation == Edges(h, m) && (mounts[m].present <==> LastSaw(h, m)))
    && (LastSaw(h, m) ==> m in mounts)
  }

  lemma SightingCounts(
    digest: Digest, s: Store, found: seq<Mount>, planner: Mount -> Plan, now: real, m: Mount, h: seq<seq<Mount>>)
    requires CountsEdges(s.mounts, h, m)
    ensures CountsEdges(Observed(digest, s, Dedup(found), planner, now).mounts, h + [found], m)
  {
    assert (h + [found])[..|h|] == h;
    ObservedMounts(digest, s, Dedup(found), planner, now, m);
  }

  /** Rows are never deleted and never change what they are for. */
  lemma RowsAreKept(digest: Digest, s: Store, op: Op, id: Id)
    requires id in s.dispatches
    ensures id in Apply(digest, s, op).dispatches
    ensures var d, d' := s.dispatches[id], Apply(digest, s, op).dispatches[id];
      && (d'.mount, d'.generation, d'.marker, d'.plan) == (d.mount, d.generation, d.marker, d.plan)
      && d.attempts <= d'.attempts
      && (d.state in {Uncertain, Completed, Failed} ==> d' == d)
  {
    if op.Observe? && Commits(op.found, op.planner) {
      var ms := Dedup(op.found);
      ArriveAllKeepsRows(digest, Store(Depart(s.mounts, ms), s.dispatches), ms, op.planner, op.now, id);
    }
  }
}
