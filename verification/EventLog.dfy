/** The lifecycle event log: an append-only table with idempotent append, contexts that expire
    apart from their events, and cursor paging. Timestamps are fixed-width UTC texts compared as
    text; here they are integers. */
module EventLog {
  import opened Wrappers
  import opened Text

  datatype Event = Event(id: string, subject: Option<string>, payload: string)

  datatype Row = Row(
    sequence: nat,
    event: Event,
    owner: string,
    context: Option<string>,
    expiresAt: Option<int>)

  datatype LogError = BlankOwner | DuplicateEvent | BadCursor | BadLimit

  // ------------------------------------------------------------------- values

  /** Sequence numbers grow along the table and event ids do not repeat. */
  ghost predicate TableOk(rows: seq<Row>, last: nat)
  {
    && (forall i, j :: 0 <= i < j < |rows| ==> rows[i].sequence < rows[j].sequence)
    && (forall i, j :: 0 <= i < j < |rows| ==> rows[i].event.id != rows[j].event.id)
    && (forall i :: 0 <= i < |rows| ==> 0 < rows[i].sequence <= last)
  }

  function Purged(r: Row, now: int): Row
  {
    if r.context.Some? && r.expiresAt.Some? && r.expiresAt.value <= now
    then r.(context := None, expiresAt := None) else r
  }

  function PurgeAll(rows: seq<Row>, now: int): (r: seq<Row>)
    ensures |r| == |rows| && forall i :: 0 <= i < |rows| ==> r[i] == Purged(rows[i], now)
  {
    seq(|rows|, i requires 0 <= i < |rows| => Purged(rows[i], now))
  }

  function Expired(r: Row, owner: string, subject: string, expiresAt: int): Row
  {
    if r.owner == owner && r.context.Some? && r.expiresAt.None? && r.event.subject == Some(subject)
    then r.(expiresAt := Some(expiresAt)) else r
  }

  function ExpireAll(rows: seq<Row>, owner: string, subject: string, expiresAt: int): (r: seq<Row>)
    ensures |r| == |rows| && forall i :: 0 <= i < |rows| ==> r[i] == Expired(rows[i], owner, subject, expiresAt)
  {
    seq(|rows|, i requires 0 <= i < |rows| => Expired(rows[i], owner, subject, expiresAt))
  }

  predicate Matches(r: Row, cursor: int, owner: Option<string>)
  {
    r.sequence > cursor && (owner.None? || r.owner == owner.value)
  }

  /** The rows a page is cut from, in sequence order. */
  function Matching(rows: seq<Row>, cursor: int, owner: Option<string>): seq<Row>
  {
    if rows == [] then []
    else
      Matching(rows[..|rows| - 1], cursor, owner)
      + if Matches(rows[|rows| - 1], cursor, owner) then [rows[|rows| - 1]] else []
  }

  /** What a reader gets of one event. */
  datatype Delivery = Delivery(event: Event, context: Option<string>)

  datatype Page = Page(events: seq<Delivery>, nextCursor: string, hasMore: bool)

  // ------------------------------------------------------------------ cursors

  /** ASCII white space as `str.strip` sees it. */
  predicate IsSpace(c: char) { 9 <= c as int <= 13 || 28 <= c as int <= 32 }

  function Strip(s: string): string
  {
    if s != [] && IsSpace(s[0]) then Strip(s[1..])
    else if s != [] && IsSpace(s[|s| - 1]) then Strip(s[..|s| - 1])
    else s
  }

  predicate AllDigits(s: string) { s != [] && forall i :: 0 <= i < |s| ==> IsDigit(s[i]) }

  /** `_cursor`, for plain and signed decimal digits. */
  function ParseCursor(value: Option<string>): Result<nat, LogError>
  {
    var raw := Strip(if value.None? || value.value == "" then "0" else value.value);
    if AllDigits(raw) then Ok(DigitsValue(raw))
    else if raw != [] && raw[0] in {'+', '-'} && AllDigits(raw[1..]) && (raw[0] == '+' || DigitsValue(raw[1..]) == 0)
    then Ok(DigitsValue(raw[1..]))
    else Err(BadCursor)
  }

  /** A cursor that a page handed out is read back as the number it was. */
  lemma CursorRoundTrip(n: nat)
    ensures ParseCursor(Some(Decimal(n))) == Ok(n)
  {
    DigitsValueOfDecimal(n);
    var d := Decimal(n);
    assert IsDigit(d[0]) && IsDigit(d[|d| - 1]);
  }

  predicate AllSpace(s: string)
  {
    forall i :: 0 <= i < |s| ==> s[i] as int in {9, 10, 11, 12, 13, 28, 29, 30, 31, 32}
  }

  lemma {:induction false} StripCuts(s: string) returns (a: string, b: string)
    ensures s == a + Strip(s) + b && AllSpace(a) && AllSpace(b)
  {
    if s != [] && IsSpace(s[0]) {
      var before, after := StripCuts(s[1..]);
      a, b := [s[0]] + before, after;
      assert s == [s[0]] + s[1..] == [s[0]] + (before + Strip(s) + after) == a + Strip(s) + b;
    } else if s != [] && IsSpace(s[|s| - 1]) {
      var before, after := StripCuts(s[..|s| - 1]);
      a, b := before, after + [s[|s| - 1]];
      assert s == s[..|s| - 1] + [s[|s| - 1]] == (before + Strip(s) + after) + [s[|s| - 1]] == a + Strip(s) + b;
    } else {
      a, b := [], [];
    }
  }

  lemma {:induction false} StripIs(a: string, t: string, b: string)
    requires AllSpace(a) && AllSpace(b) && t != [] && !IsSpace(t[0]) && !IsSpace(t[|t| - 1])
    ensures Strip(a + t + b) == t
    decreases |a| + |b|
  {
    var s := a + t + b;
    if a != [] {
      assert s[0] == a[0] && s[1..] == a[1..] + t + b;
      StripIs(a[1..], t, b);
    } else if b != [] {
      assert s[0] == t[0] && s[|s| - 1] == b[|b| - 1] && s[..|s| - 1] == a + t + b[..|b| - 1];
      StripIs(a, t, b[..|b| - 1]);
    } else {
      assert s == t;
    }
  }

  /** White space, a sign, digits with that value, and white space; below zero there is only minus nought. */
  predicate Writes(value: string, n: nat, a: string, sign: string, digits: string, b: string)
  {
    && value == a + (sign + digits) + b && AllSpace(a) && AllSpace(b)
    && (sign == [] || sign == ['+'] || sign == ['-'])
    && digits != [] && (forall i :: 0 <= i < |digits| ==> '0' <= digits[i] <= '9')
    && DigitsValue(digits) == n && (sign == ['-'] ==> n == 0)
  }

  /** A text is read as a cursor if and only if it is empty, for nought, or a number is written in it. */
  lemma CursorIff(value: string, n: nat)
    ensures ParseCursor(Some(value)) == Ok(n) <==>
            (value == "" && n == 0) || exists a, sign, digits, b :: Writes(value, n, a, sign, digits, b)
  {
    if value == "" {
      DigitsValueOfDecimal(0);
    } else {
      if ParseCursor(Some(value)) == Ok(n) {
        CursorIsWritten(value, n);
      }
      if a, sign, digits, b :| Writes(value, n, a, sign, digits, b) {
        WrittenIsCursor(value, n, a, sign, digits, b);
      }
    }
  }

  lemma CursorIsWritten(value: string, n: nat)
    requires value != "" && ParseCursor(Some(value)) == Ok(n)
    ensures exists a, sign, digits, b :: Writes(value, n, a, sign, digits, b)
  {
    var a, b := StripCuts(value);
    var raw := Strip(value);
    if AllDigits(raw) {
      PlainIsWritten(value, n, a, raw, b);
    } else {
      SignedIsWritten(value, n, a, raw[0], raw[1..], b);
    }
  }

  lemma PlainIsWritten(value: string, n: nat, a: string, digits: string, b: string)
    requires value == a + digits + b && AllSpace(a) && AllSpace(b) && AllDigits(digits) && DigitsValue(digits) == n
    ensures Writes(value, n, a, [], digits, b)
  {
    assert [] + digits == digits;
  }

  lemma SignedIsWritten(value: string, n: nat, a: string, sign: char, digits: string, b: string)
    requires value == a + ([sign] + digits) + b && AllSpace(a) && AllSpace(b) && AllDigits(digits) && DigitsValue(digits) == n
    requires sign == '+' || (sign == '-' && n == 0)
    ensures Writes(value, n, a, [sign], digits, b)
  {
  }

  lemma WrittenIsCursor(value: string, n: nat, a: string, sign: string, digits: string, b: string)
    requires Writes(value, n, a, sign, digits, b)
    ensures value != "" && ParseCursor(Some(value)) == Ok(n)
  {
    var raw := sign + digits;
    assert raw[|raw| - 1] == digits[|digits| - 1];
    StripIs(a, raw, b);
    if sign == [] {
      assert raw == digits;
    } else {
      assert raw[0] == sign[0] && raw[1..] == digits;
    }
  }

  // ------------------------------------------------------------- transactions

  datatype Change =
    | Insert(sequence: nat, event: Event, owner: string, context: Option<string>, expiresAt: Option<int>)
    | Skip(sequence: nat)
    | Expire(owner: string, subject: string, at: int)
    | Purge(now: int)

  datatype Table = Table(rows: seq<Row>, last: nat)

  ghost predicate Fits(t: Table, c: Change)
  {
    c.Insert? ==> c.sequence > t.last && forall i :: 0 <= i < |t.rows| ==> t.rows[i].event.id != c.event.id
  }

  /** The committed effect; an insert that does not fit is refused or ignored, and may use up a sequence number. */
  ghost function Changed(t: Table, c: Change): Table
  {
    match c
    case Insert(s, event, owner, context, expiresAt) =>
      if Fits(t, c) then Table(t.rows + [Row(s, event, owner, context, expiresAt)], s) else t
    case Skip(s) => if s > t.last then t.(last := s) else t
    case Expire(owner, subject, expiresAt) => t.(rows := ExpireAll(t.rows, owner, subject, expiresAt))
    case Purge(now) => t.(rows := PurgeAll(t.rows, now))
  }

  // ------------------------------------------------------------------- object

  class SQLiteLifecycleEventLog {
    var rows: seq<Row>
    var last: nat

    ghost predicate Valid()
      reads this
    {
      TableOk(rows, last)
    }

    ghost function Value(): Table
      reads this
    {
      Table(rows, last)
    }

    constructor ()
      ensures Valid() && rows == [] && last == 0
    {
      rows, last := [], 0;
    }

    /** AUTOINCREMENT: larger than every sequence ever used, not necessarily by one. */
    method NextSequence() returns (s: nat)
      ensures s > last
    {
      s :| s > last;
    }

    method Append(event: Event, owner: string, context: Option<string>, expiresAt: Option<int>)
      returns (r: Result<nat, LogError>)
      requires Valid()
      modifies this
      ensures Valid()
      ensures r.Ok? <==> Strip(owner) != "" && forall i :: 0 <= i < |old(rows)| ==> old(rows)[i].event.id != event.id
      ensures r.Err? ==> Value() == old(Value())
      ensures r.Ok? ==> r.value == last && last > old(last)
      ensures r.Ok? ==> Value() == Changed(old(Value()), Insert(r.value, event, Strip(owner), context, expiresAt))
      ensures r.Ok? ==> rows == old(rows) + [Row(r.value, event, Strip(owner), context, expiresAt)]
    {
      if Strip(owner) == "" {
        return Err(BlankOwner);
      }
      if i :| 0 <= i < |rows| && rows[i].event.id == event.id {
        return Err(DuplicateEvent);
      }
      var s := NextSequence();
      rows, last := rows + [Row(s, event, Strip(owner), context, expiresAt)], s;
      return Ok(s);
    }

    /** Appends unless the event id is already there; either way answers the sequence of the one row
        with that id. The counter may skip a number when the insert is ignored. */
    method AppendOnce(event: Event, owner: string, context: Option<string>, expiresAt: Option<int>)
      returns (r: Result<nat, LogError>)
      requires Valid()
      modifies this
      ensures Valid() && last >= old(last)
      ensures r.Ok? <==> Strip(owner) != ""
      ensures r.Err? ==> rows == old(rows)
      ensures r.Ok? ==> exists i :: 0 <= i < |rows| && rows[i].event.id == event.id
      ensures r.Ok? ==> forall i :: 0 <= i < |rows| && rows[i].event.id == event.id ==> rows[i].sequence == r.value
      ensures (exists i :: 0 <= i < |old(rows)| && old(rows)[i].event.id == event.id) ==>
        rows == old(rows) && Value() == Changed(old(Value()), Skip(last))
      ensures r.Ok? && !(exists i :: 0 <= i < |old(rows)| && old(rows)[i].event.id == event.id) ==>
        && rows == old(rows) + [Row(r.value, event, Strip(owner), context, expiresAt)] && r.value > old(last)
        && Value() == Changed(old(Value()), Insert(r.value, event, Strip(owner), context, expiresAt))
    {
      if Strip(owner) == "" {
        return Err(BlankOwner);
      }
      var s := NextSequence();
      if i :| 0 <= i < |rows| && rows[i].event.id == event.id {
        var skips: bool := *;
        if skips {
          last := s;
        }
        return Ok(rows[i].sequence);
      }
      rows, last := rows + [Row(s, event, Strip(owner), context, expiresAt)], s;
      assert rows[|rows| - 1].event.id == event.id;
      return Ok(s);
    }

    /** Answers how many rows it changed. */
    method ExpireContext(owner: string, subject: string, expiresAt: int) returns (count: nat)
      requires Valid()
      modifies `rows
      ensures Valid() && Value() == Changed(old(Value()), Expire(owner, subject, expiresAt))
      ensures count == |set i | 0 <= i < |old(rows)| && rows[i] != old(rows)[i]|
    {
      var before := rows;
      rows := ExpireAll(rows, owner, subject, expiresAt);
      var changed := set i | 0 <= i < |before| && rows[i] != before[i];
      count := |changed|;
    }

    /** Purges, selects up to `limit + 1` matching rows, and builds the page from the first `limit`. */
    method ReadPage(after: Option<string>, limit: int, owner: Option<string>, now: int)
      returns (r: Result<Page, LogError>)
      requires Valid()
      modifies `rows
      ensures Valid()
      ensures r.Ok? <==> ParseCursor(after).Ok? && 1 <= limit <= 100
      ensures r.Err? ==> Value() == old(Value())
      ensures r.Ok? ==> Value() == Changed(old(Value()), Purge(now)) && r.value == PageOf(rows, ParseCursor(after).value, limit, owner)
    {
      var parsed := ParseCursor(after);
      if parsed.Err? {
        return Err(parsed.error);
      }
      if limit < 1 || limit > 100 {
        return Err(BadLimit);
      }
      var page := FetchPage(parsed.value, limit, owner, now);
      return Ok(page);
    }

    /** The transaction and the page built from it, for a valid cursor and limit. */
    method FetchPage(cursor: nat, limit: int, owner: Option<string>, now: int) returns (page: Page)
      requires Valid() && 1 <= limit
      modifies `rows
      ensures Valid() && rows == PurgeAll(old(rows), now) && page == PageOf(rows, cursor, limit, owner)
    {
      rows := PurgeAll(rows, now);
      var found := Matching(rows, cursor, owner);
      var fetched := found[..Min(limit + 1, |found|)];
      var selected := fetched[..Min(limit, |fetched|)];
      FetchOneMore(found, limit);
      var events := Collect(selected);
      var next := if selected != [] then selected[|selected| - 1].sequence else cursor;
      page := Page(events, Decimal(next), |fetched| > limit);
    }
  }

  /** The loop that turns the selected rows into events with their contexts. */
  method Collect(selected: seq<Row>) returns (events: seq<Delivery>)
    ensures events == Deliveries(selected)
  {
    events := [];
    for i := 0 to |selected|
      invariant events == Deliveries(selected[..i])
    {
      assert selected[..i + 1][..i] == selected[..i];
      events := events + [Delivery(selected[i].event, selected[i].context)];
    }
    assert selected[..|selected|] == selected;
  }

  function Min(a: int, b: int): int { if a < b then a else b }

  /** Fetching one row more than the page takes tells whether there is more. */
  lemma FetchOneMore(found: seq<Row>, limit: int)
    requires 1 <= limit
    ensures var fetched := found[..Min(limit + 1, |found|)];
      fetched[..Min(limit, |fetched|)] == found[..Min(limit, |found|)] && (|fetched| > limit <==> |found| > limit)
  {
  }

  function Deliveries(rows: seq<Row>): (r: seq<Delivery>)
    ensures |r| == |rows| && forall i :: 0 <= i < |rows| ==> r[i] == Delivery(rows[i].event, rows[i].context)
  {
    if rows == [] then []
    else Deliveries(rows[..|rows| - 1]) + [Delivery(rows[|rows| - 1].event, rows[|rows| - 1].context)]
  }

  /** The rows of a page. */
  function Selected(rows: seq<Row>, cursor: nat, limit: int, owner: Option<string>): seq<Row>
    requires 1 <= limit
  {
    var found := Matching(rows, cursor, owner);
    found[..Min(limit, |found|)]
  }

  function NextCursor(rows: seq<Row>, cursor: nat, limit: int, owner: Option<string>): nat
    requires 1 <= limit
  {
    var selected := Selected(rows, cursor, limit, owner);
    if selected != [] then selected[|selected| - 1].sequence else cursor
  }

  function PageOf(rows: seq<Row>, cursor: nat, limit: int, owner: Option<string>): Page
    requires 1 <= limit
  {
    Page(Deliveries(Selected(rows, cursor, limit, owner)),
         Decimal(NextCursor(rows, cursor, limit, owner)),
         |Matching(rows, cursor, owner)| > limit)
  }
}
