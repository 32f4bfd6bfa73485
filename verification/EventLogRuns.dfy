/** What readers see while others append, expire and purge. */
module EventLogRuns {
  import opened Wrappers
  import opened EventLog

  ghost predicate Good(t: Table) { TableOk(t.rows, t.last) }

  lemma ChangedGood(t: Table, c: Change)
    requires Good(t)
    ensures Good(Changed(t, c)) && Changed(t, c).last >= t.last
  {
  }

  // ---------------------------------------------------------- life of a context

  /** The same event later: a context is kept as it is, with an expiry that is set once, or it is
      gone for good. */
  ghost predicate Ages(r: Row, r': Row)
  {
    && r'.sequence == r.sequence && r'.event == r.event && r'.owner == r.owner
    && (r'.context.Some? ==> r'.context == r.context && (r.expiresAt.Some? ==> r'.expiresAt == r.expiresAt))
  }

  ghost predicate TableAges(a: seq<Row>, b: seq<Row>)
  {
    |a| <= |b| && forall i :: 0 <= i < |a| ==> Ages(a[i], b[i])
  }

  ghost function ChangedAll(t: Table, changes: seq<Change>): Table
  {
    if changes == [] then t else Changed(ChangedAll(t, changes[..|changes| - 1]), changes[|changes| - 1])
  }

  /** No event is ever lost or altered, and every context only lives, then lives with a fixed expiry,
      then is gone. */
  lemma {:induction false} EventsAreKept(t: Table, changes: seq<Change>)
    requires Good(t)
    ensures Good(ChangedAll(t, changes)) && TableAges(t.rows, ChangedAll(t, changes).rows)
  {
    if changes != [] {
      EventsAreKept(t, changes[..|changes| - 1]);
      ChangedGood(ChangedAll(t, changes[..|changes| - 1]), changes[|changes| - 1]);
    }
  }

  /** Once an expiry is set on a context, no page taken at or after that time, however much later
      and whatever happened in between, delivers the context. */
  lemma ExpiredContextIsNeverDelivered(t: Table, changes: seq<Change>, i: nat, expiry: int, now: int,
                                      cursor: nat, limit: int, owner: Option<string>, k: nat)
    requires Good(t) && i < |t.rows| && t.rows[i].context.Some? && t.rows[i].expiresAt == Some(expiry)
    requires now >= expiry && 1 <= limit
    requires var rows := PurgeAll(ChangedAll(t, changes).rows, now);
      k < |PageOf(rows, cursor, limit, owner).events|
      && PageOf(rows, cursor, limit, owner).events[k].event.id == t.rows[i].event.id
    ensures var rows := PurgeAll(ChangedAll(t, changes).rows, now);
      PageOf(rows, cursor, limit, owner).events[k].context.None?
  {
    EventsAreKept(t, changes);
    var later := ChangedAll(t, changes).rows;
    var selected := Selected(PurgeAll(later, now), cursor, limit, owner);
    MatchingMembers(PurgeAll(later, now), cursor, owner, selected[k]);
    assert Ages(t.rows[i], later[i]);
    PurgedIsGone(later, i, expiry, now, selected[k]);
  }

  lemma PurgedIsGone(rows: seq<Row>, i: nat, expiry: int, now: int, r: Row)
    requires i < |rows| && (rows[i].context.Some? ==> rows[i].expiresAt == Some(expiry)) && expiry <= now
    requires forall a, b :: 0 <= a < b < |rows| ==> rows[a].event.id != rows[b].event.id
    requires r in PurgeAll(rows, now) && r.event.id == rows[i].event.id
    ensures r.context.None?
  {
    var j :| 0 <= j < |rows| && PurgeAll(rows, now)[j] == r;
    assert rows[j].event.id == rows[i].event.id;
    assert j == i;
  }

  /** The expiry that a context has, or gets from the first call that expires it. */
  function ExpiryOf(r: Row, changes: seq<Change>): Option<int>
  {
    if changes == [] then r.expiresAt
    else
      var before, c := ExpiryOf(r, changes[..|changes| - 1]), changes[|changes| - 1];
      if before.None? && c.Expire? && c.owner == r.owner && r.event.subject == Some(c.subject) then Some(c.at) else before
  }

  /** Some purge came at or after the expiry that was in force by then. */
  predicate RanOut(r: Row, changes: seq<Change>)
  {
    exists j :: 0 <= j < |changes| && PurgedAt(r, changes, j)
  }

  predicate PurgedAt(r: Row, changes: seq<Change>, j: nat)
    requires j < |changes|
  {
    changes[j].Purge? && ExpiryOf(r, changes[..j]).Some? && ExpiryOf(r, changes[..j]).value <= changes[j].now
  }

  lemma RanOutMore(r: Row, changes: seq<Change>)
    requires changes != []
    ensures RanOut(r, changes) <==> RanOut(r, changes[..|changes| - 1]) || PurgedAt(r, changes, |changes| - 1)
  {
    var rest := changes[..|changes| - 1];
    forall j | 0 <= j < |rest|
      ensures PurgedAt(r, rest, j) <==> PurgedAt(r, changes, j)
    {
      assert rest[..j] == changes[..j] && rest[j] == changes[j];
    }
    if j :| 0 <= j < |rest| && PurgedAt(r, rest, j) {
      assert PurgedAt(r, changes, j);
    }
  }

  /** Through any changes a context is there, unchanged and with its expiry, if and only if it did not run out. */
  lemma {:induction false} ContextLivesUntilExpiry(t: Table, changes: seq<Change>, i: nat)
    requires Good(t) && i < |t.rows| && t.rows[i].context.Some?
    ensures i < |ChangedAll(t, changes).rows|
    ensures var r, r' := t.rows[i], ChangedAll(t, changes).rows[i];
      if RanOut(r, changes) then r'.context.None?
      else r'.context == r.context && r'.expiresAt == ExpiryOf(r, changes)
  {
    EventsAreKept(t, changes);
    if changes != [] {
      ContextLivesUntilExpiry(t, changes[..|changes| - 1], i);
      RanOutMore(t.rows[i], changes);
      EventsAreKept(t, changes[..|changes| - 1]);
      assert Ages(t.rows[i], ChangedAll(t, changes[..|changes| - 1]).rows[i]);
    }
  }

  /** A page delivers the context of an event if and only if it did not run out before or at that page. */
  lemma ContextIsDeliveredIff(t: Table, changes: seq<Change>, i: nat, now: int, cursor: nat, limit: int,
                              owner: Option<string>, k: nat)
    requires Good(t) && i < |t.rows| && t.rows[i].context.Some? && 1 <= limit
    requires var rows := PurgeAll(ChangedAll(t, changes).rows, now);
      k < |PageOf(rows, cursor, limit, owner).events|
      && PageOf(rows, cursor, limit, owner).events[k].event.id == t.rows[i].event.id
    ensures var rows := PurgeAll(ChangedAll(t, changes).rows, now);
      PageOf(rows, cursor, limit, owner).events[k].context
      == if RanOut(t.rows[i], changes + [Purge(now)]) then None else t.rows[i].context
  {
    var all := changes + [Purge(now)];
    assert all[..|all| - 1] == changes;
    EventsAreKept(t, all);
    ContextLivesUntilExpiry(t, all, i);
    var rows := PurgeAll(ChangedAll(t, changes).rows, now);
    assert ChangedAll(t, all).rows == rows;
    var selected := Selected(rows, cursor, limit, owner);
    MatchingMembers(rows, cursor, owner, selected[k]);
    assert Ages(t.rows[i], rows[i]);
    OneRowPerId(rows, i, selected[k]);
  }

  lemma OneRowPerId(rows: seq<Row>, i: nat, r: Row)
    requires forall a, b :: 0 <= a < b < |rows| ==> rows[a].event.id != rows[b].event.id
    requires i < |rows| && r in rows && r.event.id == rows[i].event.id
    ensures r == rows[i]
  {
  }

  lemma {:induction false} MatchingMembers(rows: seq<Row>, cursor: int, owner: Option<string>, r: Row)
    ensures r in Matching(rows, cursor, owner) <==> r in rows && Matches(r, cursor, owner)
  {
    if rows != [] {
      MatchingMembers(rows[..|rows| - 1], cursor, owner, r);
      assert rows == rows[..|rows| - 1] + [rows[|rows| - 1]];
    }
  }

  /** An event id keeps the sequence it was first given, so a repeated append answers the same. */
  lemma RepeatedAppendAnswersTheSame(t: Table, changes: seq<Change>, i: nat, j: nat)
    requires Good(t) && i < |t.rows| && j < |ChangedAll(t, changes).rows|
    requires ChangedAll(t, changes).rows[j].event.id == t.rows[i].event.id
    ensures ChangedAll(t, changes).rows[j].sequence == t.rows[i].sequence
  {
    EventsAreKept(t, changes);
    assert Ages(t.rows[i], ChangedAll(t, changes).rows[i]);
  }

  // -------------------------------------------------------------------- paging

  predicate Wanted(owner: Option<string>, r: Row) { owner.None? || owner == Some(r.owner) }

  /** The rows of an owner after `lo` and up to `hi`, in sequence order. */
  function Between(rows: seq<Row>, lo: nat, hi: nat, owner: Option<string>): seq<Row>
  {
    if rows == [] then []
    else
      var r := rows[|rows| - 1];
      Between(rows[..|rows| - 1], lo, hi, owner) + if Wanted(owner, r) && lo < r.sequence <= hi then [r] else []
  }

  /** Identity of the delivered events: contexts come and go, these do not. */
  function Ids(rows: seq<Row>): (r: seq<(nat, Event)>)
    ensures |r| == |rows| && forall i :: 0 <= i < |rows| ==> r[i] == (rows[i].sequence, rows[i].event)
  {
    seq(|rows|, i requires 0 <= i < |rows| => (rows[i].sequence, rows[i].event))
  }

  ghost predicate Increasing(rows: seq<Row>)
  {
    forall i, j :: 0 <= i < j < |rows| ==> rows[i].sequence < rows[j].sequence
  }

  lemma {:induction false} BetweenSame(a: seq<Row>, b: seq<Row>, lo: nat, hi: nat, owner: Option<string>)
    requires |a| == |b| && forall i :: 0 <= i < |a| ==> Ages(a[i], b[i])
    ensures Ids(Between(a, lo, hi, owner)) == Ids(Between(b, lo, hi, owner))
  {
    if a != [] {
      var n := |a| - 1;
      BetweenSame(a[..n], b[..n], lo, hi, owner);
      assert Ages(a[n], b[n]);
    }
  }

  lemma {:induction false} BetweenEmpty(rows: seq<Row>, at: nat, owner: Option<string>)
    ensures Between(rows, at, at, owner) == []
  {
    if rows != [] {
      BetweenEmpty(rows[..|rows| - 1], at, owner);
    }
  }

  lemma {:induction false} BetweenAll(rows: seq<Row>, lo: nat, hi: nat, owner: Option<string>)
    requires forall i :: 0 <= i < |rows| ==> rows[i].sequence <= hi
    ensures Between(rows, lo, hi, owner) == Matching(rows, lo, owner)
  {
    if rows != [] {
      BetweenAll(rows[..|rows| - 1], lo, hi, owner);
    }
  }

  /** In a table in sequence order, what comes up to a cursor comes before what follows it. */
  lemma {:induction false} BetweenSplits(rows: seq<Row>, lo: nat, mid: nat, hi: nat, owner: Option<string>)
    requires Increasing(rows) && lo <= mid <= hi
    ensures Between(rows, lo, hi, owner) == Between(rows, lo, mid, owner) + Between(rows, mid, hi, owner)
  {
    if rows != [] {
      var rest, r := rows[..|rows| - 1], rows[|rows| - 1];
      BetweenSplits(rest, lo, mid, hi, owner);
      var a, b := Between(rest, lo, mid, owner), Between(rest, mid, hi, owner);
      if r.sequence <= mid {
        BetweenAbove(rest, mid, hi, owner);
        assert Between(rows, mid, hi, owner) == [] && a + b == a;
      } else {
        var last := if Wanted(owner, r) && mid < r.sequence <= hi then [r] else [];
        assert Between(rows, lo, mid, owner) == a && Between(rows, mid, hi, owner) == b + last;
        assert Between(rows, lo, hi, owner) == (a + b) + last;
        assert (a + b) + last == a + (b + last);
      }
    }
  }

  lemma {:induction false} BetweenAbove(rows: seq<Row>, lo: nat, hi: nat, owner: Option<string>)
    requires forall i :: 0 <= i < |rows| ==> rows[i].sequence <= lo
    ensures Between(rows, lo, hi, owner) == []
  {
    if rows != [] {
      BetweenAbove(rows[..|rows| - 1], lo, hi, owner);
    }
  }

  /** The first rows after a cursor are the rows up to the last of them. */
  lemma {:induction false} PrefixIsBetween(rows: seq<Row>, cursor: nat, owner: Option<string>, k: nat)
    requires Increasing(rows) && 0 < k <= |Matching(rows, cursor, owner)|
    ensures var found := Matching(rows, cursor, owner);
      found[..k] == Between(rows, cursor, found[k - 1].sequence, owner) && found[k - 1].sequence > cursor
  {
    var rest, r := rows[..|rows| - 1], rows[|rows| - 1];
    var found, before := Matching(rows, cursor, owner), Matching(rest, cursor, owner);
    if k <= |before| {
      PrefixIsBetween(rest, cursor, owner, k);
      assert found[k - 1] == before[k - 1] && found[..k] == before[..k];
      MatchingMembers(rest, cursor, owner, before[k - 1]);
      assert before[k - 1].sequence < r.sequence;
    } else {
      assert found[..k] == found && found[k - 1] == r;
      BetweenAll(rest, cursor, r.sequence, owner);
    }
  }

  /** A page extends what lies between the start and the cursor by exactly its own rows. */
  lemma PageExtends(rows: seq<Row>, start: nat, cursor: nat, limit: int, owner: Option<string>)
    requires Increasing(rows) && start <= cursor && 1 <= limit
    ensures var next, selected := NextCursor(rows, cursor, limit, owner), Selected(rows, cursor, limit, owner);
      && cursor <= next && (selected != [] ==> cursor < next && selected[|selected| - 1] in rows)
      && Between(rows, start, next, owner) == Between(rows, start, cursor, owner) + selected
  {
    var found := Matching(rows, cursor, owner);
    var k := Min(limit, |found|);
    if k > 0 {
      PrefixIsBetween(rows, cursor, owner, k);
      BetweenSplits(rows, start, cursor, found[k - 1].sequence, owner);
      MatchingMembers(rows, cursor, owner, found[k - 1]);
    }
  }

  lemma IdsOfSum(a: seq<Row>, b: seq<Row>)
    ensures Ids(a + b) == Ids(a) + Ids(b)
  {
  }

  // --------------------------------------------------------- following a cursor

  /** One reader follows the cursor while others change the table. */
  datatype Turn = Others(change: Change) | Read(limit: int, now: int)

  datatype Reader = Reader(table: Table, cursor: nat, got: seq<(nat, Event)>)

  ghost function Taken(r: Reader, owner: Option<string>, turn: Turn): Reader
  {
    match turn
    case Others(c) => r.(table := Changed(r.table, c))
    case Read(limit, now) =>
      if limit < 1 || limit > 100 then r
      else
        var t := Changed(r.table, Purge(now));
        Reader(t, NextCursor(t.rows, r.cursor, limit, owner), r.got + Ids(Selected(t.rows, r.cursor, limit, owner)))
  }

  ghost function Follow(t: Table, start: nat, owner: Option<string>, turns: seq<Turn>): Reader
  {
    if turns == [] then Reader(t, start, [])
    else Taken(Follow(t, start, owner, turns[..|turns| - 1]), owner, turns[|turns| - 1])
  }

  /** The reader has exactly the matching events from its start to its cursor. */
  ghost predicate Caught(r: Reader, start: nat, owner: Option<string>)
  {
    && Good(r.table) && start <= r.cursor
    && (r.cursor == start || r.cursor <= r.table.last)
    && r.got == Ids(Between(r.table.rows, start, r.cursor, owner))
  }

  lemma AgingKeepsCaught(r: Reader, rows: seq<Row>, start: nat, owner: Option<string>)
    requires Caught(r, start, owner) && |rows| == |r.table.rows|
    requires forall i :: 0 <= i < |rows| ==> Ages(r.table.rows[i], rows[i])
    ensures r.got == Ids(Between(rows, start, r.cursor, owner))
  {
    BetweenSame(r.table.rows, rows, start, r.cursor, owner);
  }

  lemma InsertKeepsCaught(r: Reader, row: Row, start: nat, owner: Option<string>)
    requires Caught(r, start, owner) && row.sequence > r.table.last
    ensures r.got == Ids(Between(r.table.rows + [row], start, r.cursor, owner))
  {
    var rows := r.table.rows + [row];
    assert rows[..|rows| - 1] == r.table.rows && rows[|rows| - 1] == row;
    if r.cursor == start {
      BetweenEmpty(r.table.rows, start, owner);
      BetweenEmpty(rows, start, owner);
    } else {
      assert row.sequence > r.cursor;
      assert Between(rows, start, r.cursor, owner) == Between(r.table.rows, start, r.cursor, owner) + [];
    }
  }

  lemma OthersKeepCaught(r: Reader, start: nat, owner: Option<string>, c: Change)
    requires Caught(r, start, owner)
    ensures Caught(Taken(r, owner, Others(c)), start, owner)
  {
    ChangedGood(r.table, c);
    match c
    case Insert(s, event, by', context, expiresAt) =>
      if Fits(r.table, c) {
        InsertKeepsCaught(r, Row(s, event, by', context, expiresAt), start, owner);
      }
    case Skip(_) =>
    case Expire(_, _, _) => AgingKeepsCaught(r, Changed(r.table, c).rows, start, owner);
    case Purge(_) => AgingKeepsCaught(r, Changed(r.table, c).rows, start, owner);
  }

  lemma PageKeepsCaught(r: Reader, start: nat, owner: Option<string>, limit: int, now: int)
    requires Caught(r, start, owner)
    ensures Caught(Taken(r, owner, Read(limit, now)), start, owner)
  {
    if 1 <= limit <= 100 {
      OthersKeepCaught(r, start, owner, Purge(now));
      var rows := Changed(r.table, Purge(now)).rows;
      PageExtends(rows, start, r.cursor, limit, owner);
      IdsOfSum(Between(rows, start, r.cursor, owner), Selected(rows, r.cursor, limit, owner));
    }
  }

  /** Following `next_cursor` from any cursor, with any appends, expiries, purges and other readers in
      between, has delivered exactly the owner's events after the start and up to the cursor, in
      order, without gap or repeat. */
  lemma {:induction false} FollowingIsExact(t: Table, start: nat, owner: Option<string>, turns: seq<Turn>)
    requires Good(t)
    ensures Caught(Follow(t, start, owner, turns), start, owner)
  {
    if turns == [] {
      BetweenEmpty(t.rows, start, owner);
    } else {
      FollowingIsExact(t, start, owner, turns[..|turns| - 1]);
      var r := Follow(t, start, owner, turns[..|turns| - 1]);
      match turns[|turns| - 1]
      case Others(c) => OthersKeepCaught(r, start, owner, c);
      case Read(limit, now) => PageKeepsCaught(r, start, owner, limit, now);
    }
  }

  // ------------------------------------------------------ following the text cursor

  /** A reader as a client is: it keeps the text of the last cursor it was given. */
  datatype Client = Client(table: Table, after: Option<string>, got: seq<(nat, Event)>)

  ghost function TakenByText(c: Client, owner: Option<string>, turn: Turn): Client
  {
    match turn
    case Others(change) => c.(table := Changed(c.table, change))
    case Read(limit, now) =>
      var cursor := ParseCursor(c.after);
      if cursor.Err? || limit < 1 || limit > 100 then c
      else
        var t := Changed(c.table, Purge(now));
        var page := PageOf(t.rows, cursor.value, limit, owner);
        Client(t, Some(page.nextCursor), c.got + Ids(Selected(t.rows, cursor.value, limit, owner)))
  }

  ghost function FollowByText(t: Table, after: Option<string>, owner: Option<string>, turns: seq<Turn>): Client
  {
    if turns == [] then Client(t, after, [])
    else TakenByText(FollowByText(t, after, owner, turns[..|turns| - 1]), owner, turns[|turns| - 1])
  }

  /** The text always reads as the cursor of the reader, so what holds of the reader holds of the client. */
  lemma {:induction false} FollowingTextIsExact(t: Table, after: Option<string>, owner: Option<string>, turns: seq<Turn>)
    requires Good(t) && ParseCursor(after).Ok?
    ensures var c, r := FollowByText(t, after, owner, turns), Follow(t, ParseCursor(after).value, owner, turns);
      && c.table == r.table && c.got == r.got && ParseCursor(c.after) == Ok(r.cursor)
      && Caught(r, ParseCursor(after).value, owner)
  {
    var start := ParseCursor(after).value;
    FollowingIsExact(t, start, owner, turns);
    if turns != [] {
      var rest := turns[..|turns| - 1];
      FollowingTextIsExact(t, after, owner, rest);
      var r := Follow(t, start, owner, rest);
      match turns[|turns| - 1]
      case Others(_) =>
      case Read(limit, now) =>
        if 1 <= limit <= 100 {
          CursorRoundTrip(NextCursor(Changed(r.table, Purge(now)).rows, r.cursor, limit, owner));
        }
    }
  }

  /** The cursor never moves back, and a nonempty page moves it forward. */
  lemma PageAdvances(r: Reader, start: nat, owner: Option<string>, limit: int, now: int)
    requires Caught(r, start, owner) && 1 <= limit <= 100
    ensures var rows := Changed(r.table, Purge(now)).rows; var after := Taken(r, owner, Read(limit, now));
      r.cursor <= after.cursor && (Selected(rows, r.cursor, limit, owner) != [] ==> r.cursor < after.cursor)
  {
    ChangedGood(r.table, Purge(now));
    PageExtends(Changed(r.table, Purge(now)).rows, start, r.cursor, limit, owner);
  }

  /** A page says there is more if and only if something comes after its cursor, and then it is full. */
  lemma MoreIsMore(rows: seq<Row>, cursor: nat, top: nat, limit: int, owner: Option<string>)
    requires Increasing(rows) && cursor <= top && (forall i :: 0 <= i < |rows| ==> rows[i].sequence <= top) && 1 <= limit
    ensures var page := PageOf(rows, cursor, limit, owner);
      && (page.hasMore <==> Matching(rows, NextCursor(rows, cursor, limit, owner), owner) != [])
      && (page.hasMore ==> |page.events| == limit)
  {
    var found := Matching(rows, cursor, owner);
    var k := Min(limit, |found|);
    if k > 0 {
      RestIsCut(rows, cursor, top, owner, k);
    }
  }

  /** What matches after the k-th match is what is left of the matches. */
  lemma RestIsCut(rows: seq<Row>, cursor: nat, top: nat, owner: Option<string>, k: nat)
    requires Increasing(rows) && cursor <= top && forall i :: 0 <= i < |rows| ==> rows[i].sequence <= top
    requires 0 < k <= |Matching(rows, cursor, owner)|
    ensures var found := Matching(rows, cursor, owner); |Matching(rows, found[k - 1].sequence, owner)| == |found| - k
  {
    var found := Matching(rows, cursor, owner);
    PrefixIsBetween(rows, cursor, owner, k);
    MatchingMembers(rows, cursor, owner, found[k - 1]);
    EverythingAfter(rows, cursor, found[k - 1].sequence, top, owner);
    assert |found[..k]| == k;
  }

  /** A page that says there is no more has brought the reader everything there is. */
  lemma LastPageBringsAll(r: Reader, start: nat, owner: Option<string>, limit: int, now: int)
    requires Caught(r, start, owner) && 1 <= limit <= 100
    requires !PageOf(Changed(r.table, Purge(now)).rows, r.cursor, limit, owner).hasMore
    ensures Taken(r, owner, Read(limit, now)).got == Ids(Matching(Changed(r.table, Purge(now)).rows, start, owner))
  {
    var t := Changed(r.table, Purge(now));
    PurgedCaught(r, start, owner, now, t);
    CaughtLast(Reader(t, r.cursor, r.got), start, owner, limit);
    TookPage(r, owner, limit, now, t);
  }

  lemma PurgedCaught(r: Reader, start: nat, owner: Option<string>, now: int, t: Table)
    requires Caught(r, start, owner) && t == Changed(r.table, Purge(now))
    ensures Caught(Reader(t, r.cursor, r.got), start, owner)
  {
    OthersKeepCaught(r, start, owner, Purge(now));
  }

  lemma TookPage(r: Reader, owner: Option<string>, limit: int, now: int, t: Table)
    requires 1 <= limit <= 100 && t == Changed(r.table, Purge(now))
    ensures Taken(r, owner, Read(limit, now)).got == r.got + Ids(Selected(t.rows, r.cursor, limit, owner))
  {
  }

  lemma CaughtLast(r: Reader, start: nat, owner: Option<string>, limit: int)
    requires Caught(r, start, owner) && 1 <= limit && |Matching(r.table.rows, r.cursor, owner)| <= limit
    ensures r.got + Ids(Selected(r.table.rows, r.cursor, limit, owner)) == Ids(Matching(r.table.rows, start, owner))
  {
    LastPage(r.table.rows, start, r.cursor, r.cursor + r.table.last, owner, limit);
  }

  lemma LastPage(rows: seq<Row>, start: nat, cursor: nat, top: nat, owner: Option<string>, limit: int)
    requires Increasing(rows) && start <= cursor <= top && forall i :: 0 <= i < |rows| ==> rows[i].sequence <= top
    requires 1 <= limit && |Matching(rows, cursor, owner)| <= limit
    ensures Ids(Between(rows, start, cursor, owner)) + Ids(Selected(rows, cursor, limit, owner)) == Ids(Matching(rows, start, owner))
  {
    EverythingAfter(rows, start, cursor, top, owner);
    var found := Matching(rows, cursor, owner);
    assert Selected(rows, cursor, limit, owner) == found;
    IdsOfSum(Between(rows, start, cursor, owner), found);
  }

  lemma EverythingAfter(rows: seq<Row>, start: nat, cursor: nat, top: nat, owner: Option<string>)
    requires Increasing(rows) && start <= cursor <= top && forall i :: 0 <= i < |rows| ==> rows[i].sequence <= top
    ensures Matching(rows, start, owner) == Between(rows, start, cursor, owner) + Matching(rows, cursor, owner)
  {
    BetweenAll(rows, start, top, owner);
    BetweenAll(rows, cursor, top, owner);
    BetweenSplits(rows, start, cursor, top, owner);
  }
}
