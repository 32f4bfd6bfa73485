/** The two tables of the listener database and what each transaction does to them.
    Times are seconds as reals; SQL NULL is `None`. */
module Dispatches {
  import opened Wrappers
  import opened Text

  const MAX_ATTEMPTS: nat := 3

  /** A resolved mount path; file systems do not allow a NUL in one. */
  type Mount = p: string | '\0' !in p witness "/"
  type Id = string

  datatype State = Queued | Running | Retry | Uncertain | Completed | Failed

  datatype Dispatch = Dispatch(
    mount: Mount,
    generation: nat,
    marker: string,
    route: string,
    plan: string,
    state: State,
    attempts: nat,
    observedAt: real,
    startedAt: Option<real>,
    completedAt: Option<real>,
    nextRetryAt: Option<real>,
    exitCode: Option<int>,
    error: Option<string>)

  datatype ObservedMount = ObservedMount(present: bool, generation: nat, marker: Option<string>)

  type DispatchTable = map<Id, Dispatch>

  datatype Store = Store(mounts: map<Mount, ObservedMount>, dispatches: DispatchTable)

  const EMPTY := Store(map[], map[])

  // ------------------------------------------------------------ transactions

  /** `state = 'queued' OR (state = 'retry' AND next_retry_at <= now)` */
  predicate Runnable(d: Dispatch, now: real)
  {
    d.state.Queued? || (d.state.Retry? && d.nextRetryAt.Some? && d.nextRetryAt.value <= now)
  }

  predicate RunnableIn(ds: DispatchTable, id: Id, now: real)
  {
    id in ds && Runnable(ds[id], now)
  }

  function StartedRow(d: Dispatch, now: real): Dispatch
  {
    d.(state := Running, attempts := d.attempts + 1, startedAt := Some(now),
       nextRetryAt := None, exitCode := None, error := None)
  }

  /** `None` when the row is not runnable: the transaction is rolled back. */
  function StartDispatch(ds: DispatchTable, id: Id, now: real): Option<DispatchTable>
  {
    if RunnableIn(ds, id, now) then Some(ds[id := StartedRow(ds[id], now)]) else None
  }

  function RetryDelay(attempts: nat): real
  {
    if attempts == 1 then 5.0 else 30.0
  }

  function FinishedState(attempts: nat, returnCode: Option<int>, error: Option<string>, uncertain: bool): State
  {
    if uncertain then Uncertain
    else if returnCode == Some(0) && error.None? then Completed
    else if attempts < MAX_ATTEMPTS then Retry
    else Failed
  }

  function FinishedRow(
    d: Dispatch, returnCode: Option<int>, error: Option<string>, uncertain: bool, now: real): Dispatch
  {
    var state := FinishedState(d.attempts, returnCode, error, uncertain);
    d.(state := state,
       completedAt := Some(now),
       nextRetryAt := if state.Retry? then Some(now + RetryDelay(d.attempts)) else None,
       exitCode := returnCode,
       error := if uncertain && (error.None? || error.value == "")
                then Some("listener stopped while the action process had custody") else error)
  }

  predicate RunningIn(ds: DispatchTable, id: Id)
  {
    id in ds && ds[id].state.Running?
  }

  /** `None` when no running row has this id: the method raises and changes nothing. */
  function FinishDispatch(
    ds: DispatchTable, id: Id, returnCode: Option<int>, error: Option<string>, uncertain: bool, now: real)
    : Option<DispatchTable>
  {
    if RunningIn(ds, id) then Some(ds[id := FinishedRow(ds[id], returnCode, error, uncertain, now)])
    else None
  }

  function AbandonedRow(d: Dispatch, error: string, now: real): Dispatch
  {
    d.(state := Uncertain, completedAt := Some(now), nextRetryAt := None, exitCode := None,
       error := Some(error))
  }

  function MarkRunningUncertain(ds: DispatchTable, id: Id, error: string, now: real): DispatchTable
  {
    if RunningIn(ds, id) then ds[id := AbandonedRow(ds[id], error, now)] else ds
  }

  function RecoveredRow(d: Dispatch): Dispatch
  {
    if d.state.Running?
    then d.(state := Uncertain, error := Some("listener exited while the action process had custody"))
    else d
  }

  /** The update `create` makes before it commits. */
  function RecoverRunning(ds: DispatchTable): (r: DispatchTable)
    ensures r.Keys == ds.Keys
    ensures forall id :: id in r ==> !r[id].state.Running?
  {
    map id | id in ds :: RecoveredRow(ds[id])
  }

  // ------------------------------------------------------- what a row may be

  /** Attempts and retry time of a row, by state. */
  predicate RowOk(d: Dispatch)
  {
    && (d.nextRetryAt.Some? <==> d.state.Retry?)
    && (match d.state
        case Queued => d.attempts == 0
        case Retry => 1 <= d.attempts < MAX_ATTEMPTS
        case Failed => d.attempts == MAX_ATTEMPTS
        case _ => 1 <= d.attempts <= MAX_ATTEMPTS)
  }

  ghost predicate RowsOk(ds: DispatchTable)
  {
    forall id :: id in ds ==> RowOk(ds[id])
  }

  // -------------------------------------------------------- runnable ordering

  /** `ORDER BY observed_at, dispatch_id` */
  predicate Before(ds: DispatchTable, a: Id, b: Id)
    requires a in ds && b in ds
  {
    ds[a].observedAt < ds[b].observedAt || (ds[a].observedAt == ds[b].observedAt && LexLeq(a, b))
  }

  lemma BeforeTotal(ds: DispatchTable, a: Id, b: Id)
    requires a in ds && b in ds
    ensures Before(ds, a, b) || Before(ds, b, a)
  {
    LexTotal(a, b);
  }

  lemma BeforeTransitive(ds: DispatchTable, a: Id, b: Id, c: Id)
    requires a in ds && b in ds && c in ds
    requires Before(ds, a, b) && Before(ds, b, c)
    ensures Before(ds, a, c)
  {
    if LexLeq(a, b) && LexLeq(b, c) {
      LexTransitive(a, b, c);
    }
  }

  /** `ids` is the answer of the query for at most `limit` rows: the runnable rows in order,
      none skipped, cut at the limit. */
  ghost predicate IsSelection(ds: DispatchTable, now: real, limit: int, ids: seq<Id>)
  {
    && (forall k :: 0 <= k < |ids| ==> RunnableIn(ds, ids[k], now))
    && (forall j, k :: 0 <= j < k < |ids| ==> ids[j] != ids[k] && Before(ds, ids[j], ids[k]))
    && (forall id, k :: RunnableIn(ds, id, now) && id !in ids && 0 <= k < |ids| ==> Before(ds, ids[k], id))
    && |ids| <= (if limit < 1 then 0 else limit)
    && (|ids| < limit ==> forall id :: RunnableIn(ds, id, now) ==> id in ids)
  }

  lemma BeforeAntisymmetric(ds: DispatchTable, a: Id, b: Id)
    requires a in ds && b in ds && Before(ds, a, b) && Before(ds, b, a)
    ensures a == b
  {
    LexTotal(a, b);
  }

  lemma {:induction false} SamePrefix(ds: DispatchTable, now: real, limit: int, ids: seq<Id>, ids': seq<Id>, k: nat)
    requires IsSelection(ds, now, limit, ids) && IsSelection(ds, now, limit, ids') && k <= |ids| && k <= |ids'|
    ensures ids[..k] == ids'[..k]
  {
    if k > 0 {
      SamePrefix(ds, now, limit, ids, ids', k - 1);
      var a, b := ids[k - 1], ids'[k - 1];
      if a != b {
        FirstLeft(ds, now, limit, ids, ids', k - 1);
        FirstLeft(ds, now, limit, ids', ids, k - 1);
        BeforeAntisymmetric(ds, a, b);
      }
    }
  }

  /** After equal beginnings, the next of one selection comes before the next of the other. */
  lemma FirstLeft(ds: DispatchTable, now: real, limit: int, ids: seq<Id>, ids': seq<Id>, k: nat)
    requires IsSelection(ds, now, limit, ids) && IsSelection(ds, now, limit, ids') && k < |ids| && k < |ids'|
    requires ids[..k] == ids'[..k] && ids[k] != ids'[k]
    ensures Before(ds, ids'[k], ids[k])
  {
    forall m | 0 <= m < k
      ensures ids'[m] != ids[k]
    {
      assert ids[..k][m] == ids'[..k][m];
    }
    if ids[k] in ids' {
      var m :| 0 <= m < |ids'| && ids'[m] == ids[k];
    }
  }

  /** The query has one answer. */
  lemma SelectionIsUnique(ds: DispatchTable, now: real, limit: int, ids: seq<Id>, ids': seq<Id>)
    requires IsSelection(ds, now, limit, ids) && IsSelection(ds, now, limit, ids')
    ensures ids == ids'
  {
    NotLonger(ds, now, limit, ids, ids');
    NotLonger(ds, now, limit, ids', ids);
    SamePrefix(ds, now, limit, ids, ids', |ids|);
    assert ids[..|ids|] == ids && ids'[..|ids'|] == ids';
  }

  lemma NotLonger(ds: DispatchTable, now: real, limit: int, ids: seq<Id>, ids': seq<Id>)
    requires IsSelection(ds, now, limit, ids) && IsSelection(ds, now, limit, ids')
    ensures |ids'| <= |ids|
  {
    if |ids| < |ids'| {
      SamePrefix(ds, now, limit, ids, ids', |ids|);
      StartsWith(ids, ids');
    }
  }

  lemma StartsWith(ids: seq<Id>, ids': seq<Id>)
    requires |ids| < |ids'| && ids[..|ids|] == ids'[..|ids|] && forall j, k :: 0 <= j < k < |ids'| ==> ids'[j] != ids'[k]
    ensures ids'[|ids|] !in ids
  {
    forall i | 0 <= i < |ids|
      ensures ids[i] != ids'[|ids|]
    {
      assert ids[..|ids|][i] == ids'[..|ids|][i];
    }
  }
}
