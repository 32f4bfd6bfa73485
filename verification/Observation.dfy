/** One observation of the mounted volumes: generations, marker identities and new dispatches. */
module Observation {
  import opened Wrappers
  import opened Text
  import opened Dispatches

  /** What the planner returns for one mount, or how it fails. */
  datatype Plan =
    | Unmarked
    | Attention
    | Ready(marker: string, route: string, json: string)
    | BadStatus
    | BadFields
    | PlannerRaised

  predicate Accepted(p: Plan) { p.Unmarked? || p.Attention? || p.Ready? }

  // ------------------------------------------------------------ dispatch ids

  type Digest = string -> string

  /** SHA-256, taken as collision free. */
  ghost predicate Injective(digest: Digest)
  {
    forall a, b :: digest(a) == digest(b) ==> a == b
  }

  function Preimage(m: Mount, generation: nat, marker: string): string
  {
    m + ['\0'] + Decimal(generation) + ['\0'] + marker
  }

  function DispatchId(digest: Digest, m: Mount, generation: nat, marker: string): Id
  {
    digest(Preimage(m, generation, marker))
  }

  /** The hashed text determines the mount, the generation and the marker. */
  lemma PreimageInjective(m: Mount, g: nat, k: string, m': Mount, g': nat, k': string)
    requires Preimage(m, g, k) == Preimage(m', g', k')
    ensures m == m' && g == g' && k == k'
  {
    var rest, rest' := Decimal(g) + ['\0'] + k, Decimal(g') + ['\0'] + k';
    assert Preimage(m, g, k) == m + ['\0'] + rest;
    assert Preimage(m', g', k') == m' + ['\0'] + rest';
    FirstCutUnique('\0', m, rest, m', rest');
    FirstCutUnique('\0', Decimal(g), k, Decimal(g'), k');
    DecimalInjective(g, g');
  }

  lemma DispatchIdInjective(digest: Digest, m: Mount, g: nat, k: string, m': Mount, g': nat, k': string)
    requires Injective(digest)
    requires DispatchId(digest, m, g, k) == DispatchId(digest, m', g', k')
    ensures m == m' && g == g' && k == k'
  {
    PreimageInjective(m, g, k, m', g', k');
  }

  // ---------------------------------------------------------- the transaction

  function NewDispatch(m: Mount, generation: nat, p: Plan, now: real): Dispatch
    requires p.Ready?
  {
    Dispatch(m, generation, p.marker, p.route, p.json, Queued, 0, now, None, None, None, None, None)
  }

  /** Mounts that are not in the current set stop being present. */
  function Depart(ms: map<Mount, ObservedMount>, current: seq<Mount>): map<Mount, ObservedMount>
  {
    map m | m in ms :: if m in current then ms[m] else ms[m].(present := false)
  }

  /** The mount row after its presence is recorded and before its plan is looked at. */
  function Seen(ms: map<Mount, ObservedMount>, m: Mount): ObservedMount
  {
    if m !in ms then ObservedMount(true, 1, None)
    else if !ms[m].present then ObservedMount(true, ms[m].generation + 1, None)
    else ms[m]
  }

  /** A new dispatch is wanted exactly when a ready marker differs from the recorded one. */
  predicate Wanted(ms: map<Mount, ObservedMount>, m: Mount, p: Plan)
  {
    p.Ready? && Seen(ms, m).marker != Some(p.marker)
  }

  function SeenId(digest: Digest, ms: map<Mount, ObservedMount>, m: Mount, p: Plan): Id
    requires p.Ready?
  {
    DispatchId(digest, m, Seen(ms, m).generation, p.marker)
  }

  /** One turn of the loop over the current mounts. */
  function Arrive(digest: Digest, s: Store, m: Mount, p: Plan, now: real): Store
  {
    var seen := Seen(s.mounts, m);
    if Wanted(s.mounts, m, p) then
      var id := SeenId(digest, s.mounts, m, p);
      Store(s.mounts[m := seen.(marker := Some(p.marker))],
            if id in s.dispatches then s.dispatches
            else s.dispatches[id := NewDispatch(m, seen.generation, p, now)])
    else
      Store(s.mounts[m := seen], s.dispatches)
  }

  function ArriveAll(digest: Digest, s: Store, ms: seq<Mount>, planner: Mount -> Plan, now: real): Store
  {
    if ms == [] then s
    else
      var last := ms[|ms| - 1];
      Arrive(digest, ArriveAll(digest, s, ms[..|ms| - 1], planner, now), last, planner(last), now)
  }

  /** The store after a committed observation of `ms`. */
  function Observed(digest: Digest, s: Store, ms: seq<Mount>, planner: Mount -> Plan, now: real): Store
  {
    ArriveAll(digest, Store(Depart(s.mounts, ms), s.dispatches), ms, planner, now)
  }

  ghost predicate Distinct(ms: seq<Mount>)
  {
    forall i, j :: 0 <= i < j < |ms| ==> ms[i] != ms[j]
  }

  /** The set built from the discovered paths, listed once each. */
  function Dedup(ms: seq<Mount>): (r: seq<Mount>)
    ensures Distinct(r)
    ensures forall m :: m in r <==> m in ms
  {
    if ms == [] then []
    else
      var last, rest := ms[|ms| - 1], Dedup(ms[..|ms| - 1]);
      assert forall m :: m in ms <==> m in ms[..|ms| - 1] || m == last;
      if last in rest then rest else rest + [last]
  }

  // ---------------------------------------------- the transaction, row by row

  /** The mount row after a full turn of the loop. */
  function SeenMarked(ms: map<Mount, ObservedMount>, m: Mount, p: Plan): ObservedMount
  {
    if p.Ready? then Seen(ms, m).(marker := Some(p.marker)) else Seen(ms, m)
  }

  lemma {:induction false} ArriveAllMounts(
    digest: Digest, s: Store, ms: seq<Mount>, planner: Mount -> Plan, now: real, m: Mount)
    requires Distinct(ms)
    ensures var after := ArriveAll(digest, s, ms, planner, now).mounts;
      && (m in after <==> m in s.mounts || m in ms)
      && (m in ms ==> after[m] == SeenMarked(s.mounts, m, planner(m)))
      && (m in after && m !in ms ==> after[m] == s.mounts[m])
  {
    if ms != [] {
      var last, rest := ms[|ms| - 1], ms[..|ms| - 1];
      ArriveAllMounts(digest, s, rest, planner, now, m);
      assert last !in rest;
      assert m in ms <==> m in rest || m == last;
    }
  }

  /** An observation changes a mount row only as its presence and its plan say. */
  lemma ObservedMounts(digest: Digest, s: Store, ms: seq<Mount>, planner: Mount -> Plan, now: real, m: Mount)
    requires Distinct(ms)
    ensures var after := Observed(digest, s, ms, planner, now).mounts;
      && (m in after <==> m in s.mounts || m in ms)
      && (m in ms ==> after[m] == SeenMarked(s.mounts, m, planner(m)))
      && (m in after && m !in ms ==> after[m] == s.mounts[m].(present := false))
  {
    var departed := Store(Depart(s.mounts, ms), s.dispatches);
    ArriveAllMounts(digest, departed, ms, planner, now, m);
    assert m in ms ==> Seen(departed.mounts, m) == Seen(s.mounts, m);
  }

  /** Existing dispatch rows survive an observation untouched. */
  lemma {:induction false} ArriveAllKeepsRows(digest: Digest, s: Store, ms: seq<Mount>, planner: Mount -> Plan, now: real, id: Id)
    requires id in s.dispatches
    ensures var after := ArriveAll(digest, s, ms, planner, now).dispatches;
      id in after && after[id] == s.dispatches[id]
  {
    if ms != [] {
      ArriveAllKeepsRows(digest, s, ms[..|ms| - 1], planner, now, id);
    }
  }

  predicate IsNewRow(digest: Digest, s: Store, m: Mount, p: Plan, now: real, id: Id, d: Dispatch)
  {
    && Wanted(s.mounts, m, p)
    && id == SeenId(digest, s.mounts, m, p)
    && d == NewDispatch(m, Seen(s.mounts, m).generation, p, now)
  }

  /** A row that was not there before is queued, untried, and named after its own columns. */
  lemma {:induction false} ArriveAllNewRows(digest: Digest, s: Store, ms: seq<Mount>, planner: Mount -> Plan, now: real, id: Id)
    requires Distinct(ms)
    requires id !in s.dispatches && id in ArriveAll(digest, s, ms, planner, now).dispatches
    ensures exists m :: m in ms && IsNewRow(digest, s, m, planner(m), now, id, ArriveAll(digest, s, ms, planner, now).dispatches[id])
  {
    var last, rest := ms[|ms| - 1], ms[..|ms| - 1];
    var before := ArriveAll(digest, s, rest, planner, now);
    if id in before.dispatches {
      ArriveAllNewRows(digest, s, rest, planner, now, id);
    } else {
      assert last !in rest;
      ArriveAllMounts(digest, s, rest, planner, now, last);
      assert Seen(before.mounts, last) == Seen(s.mounts, last);
      assert last in ms && IsNewRow(digest, s, last, planner(last), now, id, ArriveAll(digest, s, ms, planner, now).dispatches[id]);
    }
  }

  /** Every wanted dispatch has a row afterwards. */
  lemma {:induction false} ArriveAllHasRow(digest: Digest, s: Store, ms: seq<Mount>, planner: Mount -> Plan, now: real, m: Mount)
    requires Distinct(ms) && m in ms && Wanted(s.mounts, m, planner(m))
    ensures SeenId(digest, s.mounts, m, planner(m)) in ArriveAll(digest, s, ms, planner, now).dispatches
  {
    var last, rest := ms[|ms| - 1], ms[..|ms| - 1];
    var before := ArriveAll(digest, s, rest, planner, now);
    if m == last {
      assert last !in rest;
      ArriveAllMounts(digest, s, rest, planner, now, last);
      assert Seen(before.mounts, last) == Seen(s.mounts, last);
    } else {
      assert m in rest;
      ArriveAllHasRow(digest, s, rest, planner, now, m);
    }
  }

  /** The order in which the current mounts are visited does not change the outcome. */
  lemma OrderIrrelevant(digest: Digest, s: Store, ms: seq<Mount>, ms': seq<Mount>, planner: Mount -> Plan, now: real)
    requires Injective(digest) && Distinct(ms) && Distinct(ms')
    requires forall m :: m in ms <==> m in ms'
    ensures Observed(digest, s, ms, planner, now) == Observed(digest, s, ms', planner, now)
  {
    var a, b := Observed(digest, s, ms, planner, now), Observed(digest, s, ms', planner, now);
    forall m: Mount ensures m in a.mounts <==> m in b.mounts
                    ensures m in a.mounts ==> a.mounts[m] == b.mounts[m] {
      ObservedMounts(digest, s, ms, planner, now, m);
      ObservedMounts(digest, s, ms', planner, now, m);
    }
    assert Depart(s.mounts, ms) == Depart(s.mounts, ms');
    var departed := Store(Depart(s.mounts, ms), s.dispatches);
    forall id | id in a.dispatches ensures id in b.dispatches && a.dispatches[id] == b.dispatches[id] {
      SameRow(digest, departed, ms, ms', planner, now, id);
    }
    forall id | id in b.dispatches ensures id in a.dispatches {
      SameRow(digest, departed, ms', ms, planner, now, id);
    }
    assert a.mounts == b.mounts;
    assert a.dispatches == b.dispatches;
  }

  lemma SameRow(digest: Digest, s: Store, ms: seq<Mount>, ms': seq<Mount>, planner: Mount -> Plan, now: real, id: Id)
    requires Injective(digest) && Distinct(ms) && Distinct(ms')
    requires forall m :: m in ms <==> m in ms'
    requires id in ArriveAll(digest, s, ms, planner, now).dispatches
    ensures id in ArriveAll(digest, s, ms', planner, now).dispatches
    ensures ArriveAll(digest, s, ms, planner, now).dispatches[id] == ArriveAll(digest, s, ms', planner, now).dispatches[id]
  {
    if id in s.dispatches {
      ArriveAllKeepsRows(digest, s, ms, planner, now, id);
      ArriveAllKeepsRows(digest, s, ms', planner, now, id);
    } else {
      var row := ArriveAll(digest, s, ms, planner, now).dispatches[id];
      ArriveAllNewRows(digest, s, ms, planner, now, id);
      var m :| m in ms && IsNewRow(digest, s, m, planner(m), now, id, row);
      ArriveAllHasRow(digest, s, ms', planner, now, m);
      var row' := ArriveAll(digest, s, ms', planner, now).dispatches[id];
      ArriveAllNewRows(digest, s, ms', planner, now, id);
      var m' :| m' in ms' && IsNewRow(digest, s, m', planner(m'), now, id, row');
      DispatchIdInjective(digest, m, Seen(s.mounts, m).generation, planner(m).marker,
                          m', Seen(s.mounts, m').generation, planner(m').marker);
    }
  }
}
