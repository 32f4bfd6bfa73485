/** The life a dispatch may lead, as an automaton over the durable and visible events of a whole
    run, and what every run that follows the automaton satisfies. */
module DispatchLife {
  import opened Dispatches

  /** `Launched` is the creation of the action process. */
  datatype Event =
    | Started(id: Id, attempt: nat, at: real)
    | Launched(id: Id, attempt: nat)
    | Settled(id: Id, attempt: nat, state: State, at: real)

  datatype Life =
    | Fresh
    | Open(attempt: nat, launched: bool)
    | Closed(attempt: nat, state: State, launched: bool, due: real)
    | Broken

  function Step(l: Life, e: Event): Life
  {
    match e
    case Started(_, n, at) =>
      if l.Fresh? && n == 1 then Open(1, false)
      else if l.Closed? && l.state.Retry? && n == l.attempt + 1 <= MAX_ATTEMPTS && l.due <= at then Open(n, false)
      else Broken
    case Launched(_, n) =>
      if l == Open(n, false) then Open(n, true)
      else if l.Closed? && l.attempt == n && l.state.Uncertain? && !l.launched then l.(launched := true)
      else Broken
    case Settled(_, n, state, at) =>
      if l.Open? && l.attempt == n && Verdict(n, state, l.launched)
      then Closed(n, state, l.launched, at + RetryDelay(n)) else Broken
  }

  /** What an attempt may be settled as. */
  predicate Verdict(n: nat, state: State, launched: bool)
  {
    match state
    case Retry => n < MAX_ATTEMPTS
    case Failed => n == MAX_ATTEMPTS
    case Completed => launched
    case Uncertain => true
    case _ => false
  }

  function LifeOf(log: seq<Event>, id: Id): Life
  {
    if log == [] then Fresh
    else
      var l, e := LifeOf(log[..|log| - 1], id), log[|log| - 1];
      if e.id == id then Step(l, e) else l
  }

  ghost predicate Legal(log: seq<Event>)
  {
    forall id: Id :: !LifeOf(log, id).Broken?
  }

  lemma LifeOfAppend(log: seq<Event>, e: Event, id: Id)
    ensures LifeOf(log + [e], id) == if e.id == id then Step(LifeOf(log, id), e) else LifeOf(log, id)
  {
    assert (log + [e])[..|log + [e]| - 1] == log;
  }

  lemma LifeOfPrefix(log: seq<Event>, k: nat, id: Id)
    requires k < |log|
    ensures LifeOf(log[..k + 1], id)
         == if log[k].id == id then Step(LifeOf(log[..k], id), log[k]) else LifeOf(log[..k], id)
  {
    assert log[..k + 1] == log[..k] + [log[k]];
    LifeOfAppend(log[..k], log[k], id);
  }

  /** Once broken, always broken: a legal log has only legal prefixes. */
  lemma {:induction false} LegalPrefix(log: seq<Event>, k: nat, id: Id)
    requires k <= |log| && !LifeOf(log, id).Broken?
    ensures !LifeOf(log[..k], id).Broken?
    decreases |log| - k
  {
    if k == |log| {
      assert log[..k] == log;
    } else {
      LegalPrefix(log, k + 1, id);
      LifeOfPrefix(log, k, id);
    }
  }

  // --------------------------------------------- consequences for whole runs

  /** No attempt of this dispatch is recorded as `retry` between the two positions. */
  ghost predicate NoRetryIn(log: seq<Event>, lo: nat, hi: nat, id: Id)
    requires hi <= |log|
  {
    forall k :: lo <= k < hi ==> !(log[k].Settled? && log[k].id == id && log[k].state.Retry?)
  }

  lemma {:induction false} LaunchedStays(log: seq<Event>, i: nat, j: nat, id: Id)
    requires i < j <= |log| && log[i].Launched? && log[i].id == id && NoRetryIn(log, i, j, id)
    requires !LifeOf(log[..j], id).Broken?
    ensures var l := LifeOf(log[..j], id);
      (l.Open? || (l.Closed? && !l.state.Retry?)) && l.launched
    decreases j
  {
    LifeOfPrefix(log, j - 1, id);
    if i < j - 1 {
      LaunchedStays(log, i, j - 1, id);
    }
  }

  /** A dispatch is launched again only after its earlier attempt was recorded as `retry`. */
  lemma RelaunchNeedsRetry(log: seq<Event>, i: nat, j: nat, id: Id)
    requires Legal(log) && i < j < |log|
    requires log[i].Launched? && log[j].Launched? && log[i].id == id == log[j].id
    ensures exists k :: i < k < j && log[k].Settled? && log[k].id == id && log[k].state.Retry?
  {
    if NoRetryIn(log, i, j, id) {
      LegalPrefix(log, j, id);
      LegalPrefix(log, j + 1, id);
      LaunchedStays(log, i, j, id);
      LifeOfPrefix(log, j, id);
      assert false;
    }
  }

  lemma {:induction false} VerdictStays(log: seq<Event>, i: nat, j: nat, id: Id)
    requires i < j <= |log| && log[i].Settled? && log[i].id == id && !log[i].state.Retry?
    requires !LifeOf(log[..j], id).Broken?
    ensures var l := LifeOf(log[..j], id); l.Closed? && l.attempt == log[i].attempt && l.state == log[i].state
    decreases j
  {
    LifeOfPrefix(log, j - 1, id);
    if i < j - 1 {
      VerdictStays(log, i, j - 1, id);
    }
  }

  /** `uncertain`, `completed` and `failed` are final: no new attempt and no new verdict ever
      follows, and the only launch that can follow is the one of the same attempt, after `uncertain`. */
  lemma VerdictIsFinal(log: seq<Event>, i: nat, j: nat, id: Id)
    requires Legal(log) && i < j < |log| && log[i].id == id == log[j].id
    requires log[i].Settled? && !log[i].state.Retry?
    ensures log[j].Launched? && log[j].attempt == log[i].attempt && log[i].state.Uncertain?
  {
    LegalPrefix(log, j, id);
    LegalPrefix(log, j + 1, id);
    VerdictStays(log, i, j, id);
    LifeOfPrefix(log, j, id);
  }

  function Starts(log: seq<Event>, id: Id): nat
  {
    if log == [] then 0
    else Starts(log[..|log| - 1], id) + if log[|log| - 1].Started? && log[|log| - 1].id == id then 1 else 0
  }

  function Launches(log: seq<Event>, id: Id): nat
  {
    if log == [] then 0
    else Launches(log[..|log| - 1], id) + if log[|log| - 1].Launched? && log[|log| - 1].id == id then 1 else 0
  }

  /** No dispatch starts more than three times, and each start launches its action at most once. */
  lemma {:induction false} AtMostThreeStarts(log: seq<Event>, id: Id)
    requires !LifeOf(log, id).Broken?
    ensures Launches(log, id) <= Starts(log, id) <= MAX_ATTEMPTS
    ensures var l := LifeOf(log, id);
      && (l.Fresh? ==> Starts(log, id) == 0)
      && (l.Open? || l.Closed? ==> Starts(log, id) == l.attempt)
      && ((l.Open? || l.Closed?) && !l.launched ==> Launches(log, id) < Starts(log, id))
  {
    if log != [] {
      LegalPrefix(log, |log| - 1, id);
      AtMostThreeStarts(log[..|log| - 1], id);
    }
  }

  lemma {:induction false} ClosedWasSettled(log: seq<Event>, id: Id)
    requires LifeOf(log, id).Closed?
    ensures exists i :: 0 <= i < |log| && log[i].Settled? && log[i].id == id
                     && log[i].attempt == LifeOf(log, id).attempt && log[i].state == LifeOf(log, id).state
                     && LifeOf(log, id).due == log[i].at + RetryDelay(log[i].attempt)
  {
    var e, rest := log[|log| - 1], log[..|log| - 1];
    if e.id == id && e.Settled? {
      assert log[|log| - 1] == e;
    } else {
      ClosedWasSettled(rest, id);
      var i :| 0 <= i < |rest| && rest[i].Settled? && rest[i].id == id
            && rest[i].attempt == LifeOf(rest, id).attempt && rest[i].state == LifeOf(rest, id).state
            && LifeOf(rest, id).due == rest[i].at + RetryDelay(rest[i].attempt);
      assert log[i] == rest[i];
    }
  }

  /** A second start comes at least 5 seconds after the first attempt was settled as `retry`, and
      a third at least 30 seconds after the second. */
  lemma RestartWaits(log: seq<Event>, j: nat, id: Id)
    requires Legal(log) && j < |log| && log[j].Started? && log[j].id == id && log[j].attempt != 1
    ensures exists i :: 0 <= i < j && log[i].Settled? && log[i].id == id && log[i].state.Retry?
                     && log[i].attempt == log[j].attempt - 1
                     && log[j].at >= log[i].at + (if log[j].attempt == 2 then 5.0 else 30.0)
  {
    LegalPrefix(log, j, id);
    LegalPrefix(log, j + 1, id);
    LifeOfPrefix(log, j, id);
    var l, before := LifeOf(log[..j], id), log[..j];
    ClosedWasSettled(before, id);
    var i :| 0 <= i < |before| && before[i].Settled? && before[i].id == id
          && before[i].attempt == l.attempt && before[i].state == l.state
          && l.due == before[i].at + RetryDelay(before[i].attempt);
    assert log[i] == before[i];
  }
}
