/**
 Keyset paging over the run ledger (`paging.ts`, `runs.repo.ts`). The database stores microseconds and a
 cursor carries milliseconds, so both are kept apart here.
 */
module KeysetPaging {
  import opened Wrappers

  const MICROS: int := 1000

  /** `createdAt` in microseconds; a UUID compares as the number it is. */
  datatype Row = Row(at: int, id: nat)

  datatype Cursor = Cursor(ms: int, id: nat)

  datatype Page = Page(rows: seq<Row>, next: Option<Cursor>)

  predicate Newer(a: Row, b: Row) {
    a.at > b.at || (a.at == b.at && a.id > b.id)
  }

  /** Of two different rows exactly one comes first, the later one and at one moment the one with the larger id. */
  lemma OneComesFirst(a: Row, b: Row)
    ensures a.at > b.at ==> Newer(a, b)
    ensures !(Newer(a, b) && Newer(b, a)) && (Newer(a, b) || Newer(b, a) <==> a.at != b.at || a.id != b.id)
  {
  }

  /** `order by created_at desc, id desc`, which no two rows tie on. */
  predicate NewestFirst(rows: seq<Row>) {
    forall i, j :: 0 <= i < j < |rows| ==> Newer(rows[i], rows[j])
  }

  /** `toISOString` drops what is below the millisecond. */
  function CursorOf(r: Row): Cursor {
    Cursor(r.at / MICROS, r.id)
  }

  /** `beforeRunCursor`. */
  predicate Before(c: Cursor, r: Row) {
    r.at < c.ms * MICROS || (r.at == c.ms * MICROS && r.id < c.id)
  }

  function Matching(rows: seq<Row>, c: Option<Cursor>): (left: seq<Row>)
    ensures |left| <= |rows|
  {
    if c.None? then rows
    else if rows == [] then []
    else (if Before(c.value, rows[0]) then [rows[0]] else []) + Matching(rows[1..], c)
  }

  function FirstOf(rows: seq<Row>, n: nat): seq<Row> {
    if |rows| <= n then rows else rows[..n]
  }

  /** `clampLimit`; no number at all, NaN and the infinities are `None`. */
  function ClampLimit(limit: Option<real>): (n: nat)
    ensures 1 <= n <= 100
    ensures limit.Some? && 1.0 <= limit.value <= 100.0 ==> n as real <= limit.value < n as real + 1.0
    ensures limit.None? || limit.value < 1.0 ==> n == 25
    ensures limit.Some? && limit.value > 100.0 ==> n == 100
  {
    if limit.None? || limit.value < 1.0 then 25
    else if limit.value.Floor > 100 then 100 else limit.value.Floor
  }

  /** `toPage`: the row past the limit only says that there is a next page. */
  function ToPage(rows: seq<Row>, limit: nat): Page {
    var page := FirstOf(rows, limit);
    if |rows| <= limit || page == [] then Page(page, None) else Page(page, Some(CursorOf(page[|page| - 1])))
  }

  function Fetch(ledger: seq<Row>, cursor: Option<Cursor>, limit: nat): Page {
    ToPage(FirstOf(Matching(ledger, cursor), limit + 1), limit)
  }

  /** A fetch is the next `limit` matching rows, and goes on exactly when more match. */
  lemma {:induction false} FetchIs(ledger: seq<Row>, cursor: Option<Cursor>, limit: nat)
    requires limit >= 1
    ensures var left, page := Matching(ledger, cursor), Fetch(ledger, cursor, limit);
            && page.rows == FirstOf(left, limit)
            && (page.next.Some? <==> |left| > limit)
            && (page.next.Some? ==> page.next == Some(CursorOf(left[limit - 1])))
  {
  }

  // ---- what a cursor leaves to read ----

  lemma {:induction false} MatchingAppend(a: seq<Row>, b: seq<Row>, c: Option<Cursor>)
    requires c.Some?
    ensures Matching(a + b, c) == Matching(a, c) + Matching(b, c)
  {
    if a == [] {
      assert a + b == b;
    } else {
      assert (a + b)[1..] == a[1..] + b;
      MatchingAppend(a[1..], b, c);
    }
  }

  lemma {:induction false} MatchesAll(rows: seq<Row>, c: Option<Cursor>)
    requires c.Some?
    ensures (forall i :: 0 <= i < |rows| ==> Before(c.value, rows[i])) <==> Matching(rows, c) == rows
    ensures (forall i :: 0 <= i < |rows| ==> !Before(c.value, rows[i])) <==> Matching(rows, c) == []
    ensures (forall i :: 0 <= i < |rows| ==> Before(c.value, rows[i])) <==> |Matching(rows, c)| == |rows|
  {
    if rows != [] {
      MatchesAll(rows[1..], c);
      assert rows == [rows[0]] + rows[1..];
    }
  }

  /** A row at or above the one a cursor names never matches it. */
  lemma CursorExcludes(last: Row, r: Row)
    requires r == last || Newer(r, last)
    ensures !Before(CursorOf(last), r)
  {
  }

  /** What a newer row's cursor leaves, an older cursor leaves too. */
  lemma CursorsNest(c: Cursor, last: Row, r: Row)
    ensures Before(c, last) && Before(CursorOf(last), r) ==> Before(c, r)
  {
  }

  lemma {:induction false} MatchingHead(r: Row, rest: seq<Row>, c: Option<Cursor>)
    requires c.Some?
    ensures Matching([r] + rest, c) == (if Before(c.value, r) then [r] else []) + Matching(rest, c)
  {
    assert ([r] + rest)[1..] == rest;
  }

  lemma {:induction false} MatchingTwice(rows: seq<Row>, c: Option<Cursor>, last: Row)
    requires c.Some? ==> Before(c.value, last)
    ensures Matching(Matching(rows, c), Some(CursorOf(last))) == Matching(rows, Some(CursorOf(last)))
  {
    if c.Some? && rows != [] {
      MatchingTwice(rows[1..], c, last);
      CursorsNest(c.value, last, rows[0]);
      if Before(c.value, rows[0]) {
        MatchingHead(rows[0], Matching(rows[1..], c), Some(CursorOf(last)));
      } else {
        assert Matching(rows, c) == Matching(rows[1..], c);
      }
    }
  }

  /** Rows at or above the cursor's own match nothing, so only what is below them counts. */
  lemma {:induction false} NoneOfThese(rows: seq<Row>, n: nat, last: Row, c: Option<Cursor>)
    requires n <= |rows| && c == Some(CursorOf(last))
    requires forall i :: 0 <= i < n ==> rows[i] == last || Newer(rows[i], last)
    ensures Matching(rows, c) == Matching(rows[n..], c)
  {
    forall i | 0 <= i < n
      ensures !Before(c.value, rows[..n][i])
    {
      CursorExcludes(last, rows[i]);
    }
    MatchesAll(rows[..n], c);
    MatchingAppend(rows[..n], rows[n..], c);
    assert rows == rows[..n] + rows[n..];
  }

  // ---- one page after another ----

  /** The rows still to come once the first `limit` of `left` have been read. */
  function Rest(left: seq<Row>, limit: nat): (rest: seq<Row>)
    requires 1 <= limit < |left|
    ensures |rest| <= |left| - limit
  {
    Matching(left[limit..], Some(CursorOf(left[limit - 1])))
  }

  /** The pages of a walk, when nothing arrives. */
  function Pages(left: seq<Row>, limit: nat): (visited: seq<Row>)
    requires limit >= 1
    ensures |visited| <= |left|
    decreases |left|
  {
    if |left| <= limit then left
    else
      var rest := Rest(left, limit);
      left[..limit] + Pages(rest, limit)
  }

  /** No row below `last` shares its millisecond, unless it is whole and ranks below by id as well. */
  predicate ClearBelow(last: Row, below: seq<Row>) {
    forall j :: 0 <= j < |below| && below[j].at / MICROS == last.at / MICROS ==> below[j].at % MICROS == 0 && below[j].id < last.id
  }

  /** Every page ends on such a row. */
  predicate ClearPages(rows: seq<Row>, limit: nat)
    requires limit >= 1
    decreases |rows|
  {
    |rows| > limit ==> ClearBelow(rows[limit - 1], rows[limit..]) && ClearPages(rows[limit..], limit)
  }

  lemma CursorKeeps(last: Row, r: Row)
    requires Newer(last, r)
    ensures Before(CursorOf(last), r) <==> (r.at / MICROS == last.at / MICROS ==> r.at % MICROS == 0 && r.id < last.id)
  {
    assert r.at / MICROS <= last.at / MICROS;
  }

  lemma RestIsRest(rows: seq<Row>, limit: nat)
    requires NewestFirst(rows) && 1 <= limit < |rows|
    ensures Rest(rows, limit) == rows[limit..] <==> ClearBelow(rows[limit - 1], rows[limit..])
    ensures Rest(rows, limit) != rows[limit..] ==> |Rest(rows, limit)| < |rows| - limit
  {
    var last, below := rows[limit - 1], rows[limit..];
    forall j | 0 <= j < |below|
      ensures Before(CursorOf(last), below[j]) <==>
              (below[j].at / MICROS == last.at / MICROS ==> below[j].at % MICROS == 0 && below[j].id < last.id)
    {
      CursorKeeps(last, below[j]);
    }
    MatchesAll(below, Some(CursorOf(last)));
  }

  lemma SameFront(a: seq<Row>, x: seq<Row>, b: seq<Row>)
    ensures a + x == a + b <==> x == b
  {
    if a + x == a + b {
      assert (a + x)[|a|..] == x && (a + b)[|a|..] == b;
    }
  }

  lemma Halves(rows: seq<Row>, n: nat)
    requires NewestFirst(rows) && n <= |rows|
    ensures rows == rows[..n] + rows[n..] && NewestFirst(rows[n..])
  {
  }

  lemma {:induction false} PagesExactly(rows: seq<Row>, limit: nat)
    requires NewestFirst(rows) && limit >= 1
    ensures Pages(rows, limit) == rows <==> ClearPages(rows, limit)
    decreases |rows|
  {
    if |rows| > limit {
      var front, below, rest := rows[..limit], rows[limit..], Rest(rows, limit);
      Halves(rows, limit);
      RestIsRest(rows, limit);
      PagesExactly(below, limit);
      SameFront(front, Pages(rest, limit), below);
    }
  }

  // ---- a walk over a ledger that grows meanwhile ----

  /** Rows have arrived, above all that were there. */
  predicate GrownAtHead(older: seq<Row>, newer: seq<Row>) {
    NewestFirst(older) && NewestFirst(newer) && |older| <= |newer| && newer[|newer| - |older|..] == older
  }

  /** The ledger as each fetch of a walk finds it. */
  predicate GrowsAtHead(ledgers: seq<seq<Row>>)
    decreases |ledgers|
  {
    && ledgers != [] && NewestFirst(ledgers[0])
    && (|ledgers| > 1 ==> GrownAtHead(ledgers[0], ledgers[1]) && GrowsAtHead(ledgers[1..]))
  }

  /** The rows a reader is shown, while there are fetches left. */
  function Visited(ledgers: seq<seq<Row>>, cursor: Option<Cursor>, limit: nat): seq<Row>
    decreases |ledgers|
  {
    if ledgers == [] then []
    else
      var page := Fetch(ledgers[0], cursor, limit);
      if page.next.None? then page.rows else page.rows + Visited(ledgers[1..], page.next, limit)
  }

  lemma ArrivalsAreNewer(older: seq<Row>, newer: seq<Row>, last: Row, i: nat)
    requires GrownAtHead(older, newer) && last in older && i < |newer| - |older|
    ensures Newer(newer[i], last)
  {
  }

  lemma {:induction false} ArrivalsDoNotMatch(older: seq<Row>, newer: seq<Row>, last: Row)
    requires GrownAtHead(older, newer) && last in older
    ensures Matching(newer, Some(CursorOf(last))) == Matching(older, Some(CursorOf(last)))
  {
    forall i | 0 <= i < |newer| - |older| {
      ArrivalsAreNewer(older, newer, last, i);
    }
    NoneOfThese(newer, |newer| - |older|, last, Some(CursorOf(last)));
  }

  lemma {:induction false} MatchingIsPart(rows: seq<Row>, c: Option<Cursor>)
    requires NewestFirst(rows)
    ensures NewestFirst(Matching(rows, c))
    ensures forall r :: r in Matching(rows, c) ==> r in rows && (c.Some? ==> Before(c.value, r))
  {
    if c.Some? && rows != [] {
      MatchingIsPart(rows[1..], c);
      assert forall r :: r in rows[1..] ==> Newer(rows[0], r);
    }
  }

  /** The next fetch is left exactly what the page just read leaves, whatever arrived in between. */
  lemma NextFetch(older: seq<Row>, newer: seq<Row>, cursor: Option<Cursor>, limit: nat)
    requires GrownAtHead(older, newer)
    requires 1 <= limit < |Matching(older, cursor)|
    ensures var left := Matching(older, cursor);
            Matching(newer, Some(CursorOf(left[limit - 1]))) == Rest(left, limit)
  {
    var left := Matching(older, cursor);
    var last := left[limit - 1];
    MatchingIsPart(older, cursor);
    assert last in left;
    ArrivalsDoNotMatch(older, newer, last);
    MatchingTwice(older, cursor, last);
    PastIsRest(left, limit);
  }

  lemma {:induction false} PastIsRest(left: seq<Row>, limit: nat)
    requires NewestFirst(left) && 1 <= limit < |left|
    ensures Matching(left, Some(CursorOf(left[limit - 1]))) == Rest(left, limit)
  {
    NoneOfThese(left, limit, left[limit - 1], Some(CursorOf(left[limit - 1])));
  }

  /** With fetches enough, a walk shows what it would have shown had nothing arrived. */
  lemma {:induction false} ArrivalsDoNotShift(ledgers: seq<seq<Row>>, cursor: Option<Cursor>, limit: nat)
    requires GrowsAtHead(ledgers) && limit >= 1 && |Matching(ledgers[0], cursor)| < |ledgers|
    ensures Visited(ledgers, cursor, limit) == Pages(Matching(ledgers[0], cursor), limit)
    decreases |ledgers|
  {
    var left := Matching(ledgers[0], cursor);
    FetchIs(ledgers[0], cursor, limit);
    if |left| > limit {
      NextFetch(ledgers[0], ledgers[1], cursor, limit);
      ArrivalsDoNotShift(ledgers[1..], Some(CursorOf(left[limit - 1])), limit);
    }
  }

  /**
   Following cursors to the end, with rows arriving at the head between pages, shows the ledger of the
   first fetch, every row once and in order, if and only if no page ends inside a millisecond: on a row
   with another below it in the same millisecond that a cursor of whole milliseconds cannot tell apart.
   */
  lemma {:induction false} WalkIsCompleteExactly(ledgers: seq<seq<Row>>, limit: nat)
    requires GrowsAtHead(ledgers) && limit >= 1 && |ledgers[0]| < |ledgers|
    ensures Visited(ledgers, None, limit) == ledgers[0] <==> ClearPages(ledgers[0], limit)
  {
    ArrivalsDoNotShift(ledgers, None, limit);
    PagesExactly(ledgers[0], limit);
  }

  lemma {:induction false} WholeMillisecondsAreClear(rows: seq<Row>, limit: nat)
    requires NewestFirst(rows) && limit >= 1 && forall i :: 0 <= i < |rows| ==> rows[i].at % MICROS == 0
    ensures ClearPages(rows, limit)
    decreases |rows|
  {
    if |rows| > limit {
      forall j | 0 <= j < |rows[limit..]| && rows[limit..][j].at / MICROS == rows[limit - 1].at / MICROS
        ensures rows[limit..][j].id < rows[limit - 1].id
      {
        assert Newer(rows[limit - 1], rows[limit + j]);
      }
      WholeMillisecondsAreClear(rows[limit..], limit);
    }
  }

  /** With timestamps of whole milliseconds, then, no walk skips or repeats a row. */
  lemma {:induction false} WholeMillisecondsAreComplete(ledgers: seq<seq<Row>>, limit: nat)
    requires GrowsAtHead(ledgers) && limit >= 1 && |ledgers[0]| < |ledgers|
    requires forall i :: 0 <= i < |ledgers[0]| ==> ledgers[0][i].at % MICROS == 0
    ensures Visited(ledgers, None, limit) == ledgers[0]
  {
    WalkIsCompleteExactly(ledgers, limit);
    WholeMillisecondsAreClear(ledgers[0], limit);
  }

  /** Two rows of one millisecond, a ledger that stays as it is, and pages of one: the second is never shown. */
  lemma SubMillisecondRowIsSkipped()
    ensures var ledger := [Row(1500, 1), Row(1200, 2)];
            && GrowsAtHead([ledger, ledger, ledger]) && !ClearPages(ledger, 1)
            && Visited([ledger, ledger, ledger], None, 1) == Pages(ledger, 1) == [Row(1500, 1)]
  {
    var ledger := [Row(1500, 1), Row(1200, 2)];
    assert [ledger][1..] == [] && [ledger, ledger][1..] == [ledger] && [ledger, ledger, ledger][1..] == [ledger, ledger];
    assert GrowsAtHead([ledger]);
    assert GrowsAtHead([ledger, ledger]);
    assert GrowsAtHead([ledger, ledger, ledger]);
    ArrivalsDoNotShift([ledger, ledger, ledger], None, 1);
  }
}
