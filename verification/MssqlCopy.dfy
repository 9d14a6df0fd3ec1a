/**
 The SQL Server copy (`mssql-data-migrator.adapter.ts`, `mssql-insert.ts`): paged reads, inserts split to
 what one statement may carry, and a cancellation looked for between them. Any statement may fail, and the
 signal may be raised before any check.
 */
module MssqlCopy {
  import opened Wrappers

  type Table(==, !new)
  type Row(==)

  const MSSQL_MAX_PARAMS: nat := 2100
  const PARAM_BUDGET: nat := 2000
  const MAX_VALUES_ROWS: nat := 1000
  const BATCH_SIZE: nat := 500

  // ---- how many rows a statement carries ----

  function RowsPerInsert(columnCount: nat): nat {
    Max(1, Min(MAX_VALUES_ROWS, PARAM_BUDGET / Max(1, columnCount)))
  }

  lemma ProductGrows(a: nat, b: nat, d: nat)
    requires a <= b
    ensures a * d <= b * d
  {
  }

  /**
   A full statement is within both of the server's limits exactly for the widths the server takes; within
   its own budget no larger one would be.
   */
  lemma StatementFitsExactly(columnCount: nat)
    requires columnCount >= 1
    ensures 1 <= RowsPerInsert(columnCount) <= MAX_VALUES_ROWS
    ensures RowsPerInsert(columnCount) * columnCount <= MSSQL_MAX_PARAMS <==> columnCount <= MSSQL_MAX_PARAMS
    ensures columnCount <= PARAM_BUDGET && RowsPerInsert(columnCount) < MAX_VALUES_ROWS ==>
              RowsPerInsert(columnCount) * columnCount <= PARAM_BUDGET < (RowsPerInsert(columnCount) + 1) * columnCount
    ensures columnCount > PARAM_BUDGET ==> RowsPerInsert(columnCount) == 1
  {
  }

  // ---- the two servers ----

  /** A source table, its order stable. A table the source does not have has no columns. */
  datatype Source = Source(columnCount: nat, hasIdentity: bool, rows: seq<Row>)

  datatype Statement =
    | Constraints(table: Table, check: bool)
    | Truncate(table: Table)
    | Delete(table: Table)
    | SetIdentity(table: Table, on: bool)
    | Insert(table: Table, rows: seq<Row>, params: nat)
    | Select(table: Table)

  function Given(sources: map<Table, Source>, t: Table): Source {
    if t in sources then sources[t] else Source(0, false, [])
  }

  /** An INSERT into `t`, within what the server accepts of one if any row of that width is. */
  predicate InsertOf(s: Statement, t: Table, columnCount: nat) {
    && s.Insert? && s.table == t && 1 <= |s.rows| <= MAX_VALUES_ROWS && s.params == |s.rows| * columnCount
    && (columnCount <= MSSQL_MAX_PARAMS ==> s.params <= MSSQL_MAX_PARAMS)
  }

  /** What a copy of `t` may send. */
  predicate Copying(s: Statement, t: Table, columnCount: nat) {
    InsertOf(s, t, columnCount) || s == Select(t)
  }

  predicate Extends(before: seq<Statement>, after: seq<Statement>, t: Table, columnCount: nat) {
    before <= after && forall i :: |before| <= i < |after| ==> Copying(after[i], t, columnCount)
  }

  predicate AllCopying(pages: seq<Statement>, t: Table, columnCount: nat) {
    forall i :: 0 <= i < |pages| ==> Copying(pages[i], t, columnCount)
  }

  lemma ExtendsFurther(a: seq<Statement>, b: seq<Statement>, c: seq<Statement>, t: Table, columnCount: nat)
    requires Extends(a, b, t, columnCount) && Extends(b, c, t, columnCount)
    ensures Extends(a, c, t, columnCount)
  {
  }

  // ---- what is lawful to send ----

  /** Whether identity inserts into `t` are on: its last switch that did not fail. */
  predicate IsOn(fails: nat -> bool, sent: seq<Statement>, t: Table) {
    if sent == [] then false
    else
      var n := |sent| - 1;
      if sent[n].SetIdentity? && sent[n].table == t && !fails(n) then sent[n].on else IsOn(fails, sent[..n], t)
  }

  /** Since they were last switched on, switching them off again has been tried. */
  predicate OffTried(fails: nat -> bool, sent: seq<Statement>, t: Table) {
    if sent == [] then true
    else
      var n := |sent| - 1;
      if sent[n] == SetIdentity(t, false) then true
      else if sent[n] == SetIdentity(t, true) && !fails(n) then false
      else OffTried(fails, sent[..n], t)
  }

  /** An INSERT the server takes, and into a table with an identity column only while that is switched on. */
  predicate LawfulInsert(sources: map<Table, Source>, fails: nat -> bool, before: seq<Statement>, s: Statement) {
    s.Insert? ==> InsertOf(s, s.table, Given(sources, s.table).columnCount) &&
                  (Given(sources, s.table).hasIdentity ==> IsOn(fails, before, s.table))
  }

  predicate Lawful(sources: map<Table, Source>, fails: nat -> bool, sent: seq<Statement>) {
    sent == [] || (Lawful(sources, fails, sent[..|sent| - 1]) && LawfulInsert(sources, fails, sent[..|sent| - 1], sent[|sent| - 1]))
  }

  /** What was lawful stays so, and no table is left switched on without a try. */
  ghost predicate Kept(sources: map<Table, Source>, fails: nat -> bool, before: seq<Statement>, after: seq<Statement>) {
    && before <= after && (Lawful(sources, fails, before) ==> Lawful(sources, fails, after))
    && forall t :: OffTried(fails, before, t) ==> OffTried(fails, after, t)
  }

  lemma {:induction false} SentThen(sources: map<Table, Source>, fails: nat -> bool, sent: seq<Statement>, s: Statement, t: Table)
    ensures Lawful(sources, fails, sent + [s]) <==> Lawful(sources, fails, sent) && LawfulInsert(sources, fails, sent, s)
    ensures IsOn(fails, sent + [s], t) ==
              if s.SetIdentity? && s.table == t && !fails(|sent|) then s.on else IsOn(fails, sent, t)
    ensures OffTried(fails, sent + [s], t) ==
              if s == SetIdentity(t, false) then true
              else if s == SetIdentity(t, true) && !fails(|sent|) then false else OffTried(fails, sent, t)
  {
    assert (sent + [s])[..|sent|] == sent;
  }

  lemma OtherKept(sources: map<Table, Source>, fails: nat -> bool, sent: seq<Statement>, s: Statement)
    requires !s.Insert? && !s.SetIdentity?
    ensures Kept(sources, fails, sent, sent + [s])
  {
    forall t
      ensures Lawful(sources, fails, sent + [s]) <==> Lawful(sources, fails, sent)
      ensures OffTried(fails, sent + [s], t) == OffTried(fails, sent, t)
    {
      SentThen(sources, fails, sent, s, t);
    }
    SentThen(sources, fails, sent, s, s.table);
  }

  lemma KeptFurther(sources: map<Table, Source>, fails: nat -> bool, a: seq<Statement>, b: seq<Statement>, c: seq<Statement>)
    requires Kept(sources, fails, a, b) && Kept(sources, fails, b, c)
    ensures Kept(sources, fails, a, c)
  {
  }

  /** The pages of a copy, of a table switched on if it has to be. */
  lemma {:induction false} PagesLawful(sources: map<Table, Source>, fails: nat -> bool, sent: seq<Statement>, pages: seq<Statement>,
                                       t: Table, u: Table)
    requires AllCopying(pages, t, Given(sources, t).columnCount)
    ensures Lawful(sources, fails, sent) && (Given(sources, t).hasIdentity ==> IsOn(fails, sent, t)) ==> Lawful(sources, fails, sent + pages)
    ensures IsOn(fails, sent + pages, u) == IsOn(fails, sent, u)
    ensures OffTried(fails, sent + pages, u) == OffTried(fails, sent, u)
    decreases |pages|
  {
    if pages == [] {
      assert sent + pages == sent;
    } else {
      var before, s := pages[..|pages| - 1], pages[|pages| - 1];
      assert sent + pages == (sent + before) + [s];
      PagesLawful(sources, fails, sent, before, t, u);
      PagesLawful(sources, fails, sent, before, t, t);
      SentThen(sources, fails, sent + before, s, u);
    }
  }

  lemma PlainPagesKept(sources: map<Table, Source>, fails: nat -> bool, sent: seq<Statement>, pages: seq<Statement>, t: Table)
    requires AllCopying(pages, t, Given(sources, t).columnCount) && !Given(sources, t).hasIdentity
    ensures Kept(sources, fails, sent, sent + pages)
  {
    PagesLawful(sources, fails, sent, pages, t, t);
    forall u
      ensures OffTried(fails, sent + pages, u) == OffTried(fails, sent, u)
    {
      PagesLawful(sources, fails, sent, pages, t, u);
    }
  }

  lemma SwitchFailedKept(sources: map<Table, Source>, fails: nat -> bool, sent: seq<Statement>, t: Table)
    requires fails(|sent|)
    ensures Kept(sources, fails, sent, sent + [SetIdentity(t, true)])
  {
    forall u
      ensures Lawful(sources, fails, sent + [SetIdentity(t, true)]) <==> Lawful(sources, fails, sent)
      ensures OffTried(fails, sent + [SetIdentity(t, true)], u) == OffTried(fails, sent, u)
    {
      SentThen(sources, fails, sent, SetIdentity(t, true), u);
    }
    SentThen(sources, fails, sent, SetIdentity(t, true), t);
  }

  lemma {:induction false} BracketAt(sources: map<Table, Source>, fails: nat -> bool, sent: seq<Statement>, pages: seq<Statement>, t: Table, u: Table)
    requires AllCopying(pages, t, Given(sources, t).columnCount) && !fails(|sent|)
    ensures var after := sent + [SetIdentity(t, true)] + pages + [SetIdentity(t, false)];
            (Lawful(sources, fails, sent) ==> Lawful(sources, fails, after)) && (OffTried(fails, sent, u) ==> OffTried(fails, after, u))
  {
    var switched := sent + [SetIdentity(t, true)];
    SentThen(sources, fails, sent, SetIdentity(t, true), t);
    SentThen(sources, fails, sent, SetIdentity(t, true), u);
    PagesLawful(sources, fails, switched, pages, t, u);
    PagesLawful(sources, fails, switched, pages, t, t);
    SentThen(sources, fails, switched + pages, SetIdentity(t, false), u);
  }

  lemma BracketKept(sources: map<Table, Source>, fails: nat -> bool, sent: seq<Statement>, pages: seq<Statement>, t: Table)
    requires AllCopying(pages, t, Given(sources, t).columnCount) && !fails(|sent|)
    ensures Kept(sources, fails, sent, sent + [SetIdentity(t, true)] + pages + [SetIdentity(t, false)])
  {
    var after := sent + [SetIdentity(t, true)] + pages + [SetIdentity(t, false)];
    BracketAt(sources, fails, sent, pages, t, t);
    forall u
      ensures OffTried(fails, sent, u) ==> OffTried(fails, after, u)
    {
      BracketAt(sources, fails, sent, pages, t, u);
    }
  }

  lemma CopyKept(sources: map<Table, Source>, fails: nat -> bool, sent: seq<Statement>, pages: seq<Statement>, after: seq<Statement>, t: Table)
    requires AllCopying(pages, t, Given(sources, t).columnCount) && Switched(sent, pages, after, t, Given(sources, t).hasIdentity, fails)
    ensures Kept(sources, fails, sent, after)
  {
    if !Given(sources, t).hasIdentity {
      PlainPagesKept(sources, fails, sent, pages, t);
    } else if fails(|sent|) {
      SwitchFailedKept(sources, fails, sent, t);
    } else {
      BracketKept(sources, fails, sent, pages, t);
    }
  }

  /** The statements of a copy: its pages, between the two switches if the table has an identity column. */
  predicate Switched(before: seq<Statement>, pages: seq<Statement>, after: seq<Statement>, t: Table, hasIdentity: bool, fails: nat -> bool) {
    after == if !hasIdentity then before + pages
             else if fails(|before|) then before + [SetIdentity(t, true)]
             else before + [SetIdentity(t, true)] + pages + [SetIdentity(t, false)]
  }

  /** `after` is `before` with `rows` at the end of `t`. */
  ghost predicate Appended(before: map<Table, seq<Row>>, after: map<Table, seq<Row>>, t: Table, rows: seq<Row>) {
    Content(after, t) == Content(before, t) + rows && forall u :: u != t ==> Content(after, u) == Content(before, u)
  }

  lemma AppendedFurther(a: map<Table, seq<Row>>, b: map<Table, seq<Row>>, c: map<Table, seq<Row>>, t: Table,
                        rows: seq<Row>, m: nat, n: nat)
    requires m <= n <= |rows| && Appended(a, b, t, rows[..m]) && Appended(b, c, t, rows[m..n])
    ensures Appended(a, c, t, rows[..n])
  {
    assert rows[..m] + rows[m..n] == rows[..n];
  }

  function Unchecks(tables: seq<Table>): seq<Statement> {
    seq(|tables|, i requires 0 <= i < |tables| => Constraints(tables[i], false))
  }

  function Rechecks(tables: seq<Table>): seq<Statement> {
    seq(|tables|, i requires 0 <= i < |tables| => Constraints(tables[i], true))
  }

  predicate EndsWith(sent: seq<Statement>, last: seq<Statement>) {
    |last| <= |sent| && sent[|sent| - |last|..] == last
  }

  /** Some statement sent from the `m`th on, and before the `n`th, failed. */
  ghost predicate SomeFailed(fails: nat -> bool, m: nat, n: nat) {
    exists i: nat :: m <= i < n && fails(i)
  }

  /** How the tables are emptied, where all could be: each by its own statement, or by a second if the first failed. */
  function Clearings(fails: nat -> bool, n: nat, tables: seq<Table>): seq<Statement>
    decreases |tables|
  {
    if tables == [] then []
    else
      var before, t := Clearings(fails, n, tables[..|tables| - 1]), tables[|tables| - 1];
      before + if fails(n + |before|) then [Truncate(t), Delete(t)] else [Truncate(t)]
  }

  ghost predicate Cleared(before: map<Table, seq<Row>>, after: map<Table, seq<Row>>, tables: seq<Table>) {
    forall t :: Content(after, t) == if t in tables then [] else Content(before, t)
  }

  lemma OneMoreCleared(start: map<Table, seq<Row>>, before: map<Table, seq<Row>>, tables: seq<Table>, i: nat)
    requires i < |tables| && Cleared(start, before, tables[..i])
    ensures Cleared(start, before[tables[i] := []], tables[..i + 1])
  {
    assert tables[..i + 1] == tables[..i] + [tables[i]];
  }

  lemma {:induction false} ClearingsThen(fails: nat -> bool, start: seq<Statement>, sent: seq<Statement>, tables: seq<Table>, i: nat)
    requires i < |tables| && sent == start + Clearings(fails, |start|, tables[..i])
    ensures sent + (if fails(|sent|) then [Truncate(tables[i]), Delete(tables[i])] else [Truncate(tables[i])])
         == start + Clearings(fails, |start|, tables[..i + 1])
  {
    assert tables[..i + 1][..i] == tables[..i];
  }

  /** The constraints off and the tables emptied, each in this order, before anything else is sent. */
  ghost predicate Prepared(fails: nat -> bool, before: seq<Statement>, after: seq<Statement>, tables: seq<Table>) {
    before + Unchecks(tables) + Clearings(fails, |before| + |tables|, tables) <= after
  }

  datatype Outcome = Whole(rows: nat) | Failed | Aborted

  function Content(dest: map<Table, seq<Row>>, t: Table): seq<Row> {
    if t in dest then dest[t] else []
  }

  /** The destination's client, the signal, and what becomes of each statement and each check. */
  class Session {
    const sources: map<Table, Source>
    const fails: nat -> bool
    const raised: nat -> bool
    var dest: map<Table, seq<Row>>
    var sent: seq<Statement>
    var checks: nat
    /** How many statements had been sent when the signal was last looked at. */
    var lastCheck: nat

    constructor (sources: map<Table, Source>, dest: map<Table, seq<Row>>, fails: nat -> bool, raised: nat -> bool)
      ensures this.sources == sources && this.dest == dest && this.fails == fails && this.raised == raised
      ensures sent == [] && checks == 0 && lastCheck == 0
    {
      this.sources, this.dest, this.fails, this.raised := sources, dest, fails, raised;
      sent, checks, lastCheck := [], 0, 0;
    }

    /** `throwIfCancelled`. */
    method Check() returns (aborted: bool)
      modifies this`checks, this`lastCheck
      ensures checks == old(checks) + 1 && aborted == raised(old(checks)) && lastCheck == |sent|
    {
      aborted := raised(checks);
      checks, lastCheck := checks + 1, |sent|;
    }

    /** One query; a statement that fails has no effect. */
    method Query(s: Statement) returns (ok: bool)
      modifies this`sent, this`dest
      ensures sent == old(sent) + [s] && ok == !fails(|old(sent)|)
      ensures dest == if !ok then old(dest)
                      else if (s.Truncate? || s.Delete?) then old(dest)[s.table := []]
                      else if s.Insert? then old(dest)[s.table := Content(old(dest), s.table) + s.rows]
                      else old(dest)
    {
      ok := !fails(|sent|);
      sent := sent + [s];
      if ok && (s.Truncate? || s.Delete?) {
        dest := dest[s.table := []];
      } else if ok && s.Insert? {
        dest := dest[s.table := Content(dest, s.table) + s.rows];
      }
    }

    /** `insertMssqlRows`: the batch in order, statement by statement; a failure leaves a first part of it. */
    method InsertRows(t: Table, columnCount: nat, rows: seq<Row>) returns (ok: bool, ghost inserted: nat)
      requires 1 <= columnCount
      modifies this`sent, this`dest
      ensures inserted <= |rows| && (ok ==> inserted == |rows|)
      ensures Appended(old(dest), dest, t, rows[..inserted]) && Extends(old(sent), sent, t, columnCount)
      // Only a statement that fails stops it, and only the last one may be short.
      ensures ok <==> !SomeFailed(fails, |old(sent)|, |sent|)
      ensures forall i :: |old(sent)| <= i < |sent| ==> sent[i].Insert? && (i < |sent| - 1 ==> |sent[i].rows| == RowsPerInsert(columnCount))
    {
      var perInsert := RowsPerInsert(columnCount);
      StatementFitsExactly(columnCount);
      var start := 0;
      inserted := 0;
      while start < |rows|
        invariant 0 <= start && inserted == Min(start, |rows|)
        invariant Appended(old(dest), dest, t, rows[..inserted]) && Extends(old(sent), sent, t, columnCount)
        invariant !SomeFailed(fails, |old(sent)|, |sent|)
        invariant forall i :: |old(sent)| <= i < |sent| ==> sent[i].Insert? && (start <= |rows| ==> |sent[i].rows| == perInsert)
        invariant forall i :: |old(sent)| <= i < |sent| - 1 ==> |sent[i].rows| == perInsert
        decreases |rows| - start
      {
        var end := Min(start + perInsert, |rows|);
        var chunk := rows[start..end];
        ProductGrows(|chunk|, perInsert, columnCount);
        ghost var before := dest;
        var done := Query(Insert(t, chunk, |chunk| * columnCount));
        if !done {
          return false, inserted;
        }
        AppendedFurther(old(dest), before, dest, t, rows, start, end);
        start, inserted := start + perInsert, end;
      }
      ok := true;
    }

    /** One turn of the loop: a check, a page read, and its rows inserted. */
    method CopyPage(t: Table, src: Source, offset: nat) returns (c: Outcome, page: nat, ghost inserted: nat)
      requires src.columnCount >= 1 && offset <= |src.rows|
      modifies this`sent, this`dest, this`checks, this`lastCheck
      ensures page <= BATCH_SIZE && offset + page <= |src.rows| && inserted <= page
      ensures c.Whole? ==> inserted == page && (page < BATCH_SIZE ==> offset + page == |src.rows|)
      ensures Appended(old(dest), dest, t, src.rows[offset..offset + inserted]) && Extends(old(sent), sent, t, src.columnCount)
      ensures checks == old(checks) + 1 && (c.Aborted? <==> raised(old(checks)))
      ensures c.Failed? <==> SomeFailed(fails, |old(sent)|, |sent|)
      ensures c.Aborted? ==> sent == old(sent)
    {
      page, inserted := 0, 0;
      var aborted := Check();
      if aborted {
        return Aborted, 0, 0;
      }
      var read := Query(Select(t));
      if !read {
        return Failed, 0, 0;
      }
      var rows := src.rows[offset..Min(offset + BATCH_SIZE, |src.rows|)];
      page := |rows|;
      ghost var mid := sent;
      var ok;
      ok, inserted := InsertRows(t, src.columnCount, rows);
      ExtendsFurther(old(sent), mid, sent, t, src.columnCount);
      assert rows[..inserted] == src.rows[offset..offset + inserted];
      c := if ok then Whole(page) else Failed;
    }

    /** The loop of `copyTable`: page after page until a short one. */
    method CopyPages(t: Table, src: Source) returns (c: Outcome, ghost copied: nat)
      requires src.columnCount >= 1
      modifies this`sent, this`dest, this`checks, this`lastCheck
      ensures copied <= |src.rows| && (c.Whole? ==> c.rows == copied == |src.rows|)
      ensures Appended(old(dest), dest, t, src.rows[..copied]) && Extends(old(sent), sent, t, src.columnCount)
      ensures old(checks) < checks && (c.Aborted? <==> raised(checks - 1))
      ensures forall i :: old(checks) <= i < checks - 1 ==> !raised(i)
      ensures c.Failed? <==> SomeFailed(fails, |old(sent)|, |sent|)
    {
      var offset := 0;
      copied := 0;
      while true
        invariant offset == copied <= |src.rows| && old(checks) <= checks
        invariant Appended(old(dest), dest, t, src.rows[..copied]) && Extends(old(sent), sent, t, src.columnCount)
        invariant forall i :: old(checks) <= i < checks ==> !raised(i)
        invariant !SomeFailed(fails, |old(sent)|, |sent|)
        decreases |src.rows| - copied
      {
        ghost var before, said := dest, sent;
        var page; ghost var inserted;
        c, page, inserted := CopyPage(t, src, offset);
        AppendedFurther(old(dest), before, dest, t, src.rows, copied, copied + inserted);
        ExtendsFurther(old(sent), said, sent, t, src.columnCount);
        copied := copied + inserted;
        if !c.Whole? {
          return;
        }
        offset := offset + page;
        if page < BATCH_SIZE {
          return Whole(offset), copied;
        }
      }
    }

    /** The pages of `copyTable`, with identity inserts switched on before and off again however they end. */
    method CopySwitched(t: Table, src: Source) returns (c: Outcome, ghost copied: nat, ghost pages: seq<Statement>)
      requires src.columnCount >= 1
      modifies this`sent, this`dest, this`checks, this`lastCheck
      ensures copied <= |src.rows| && (c.Whole? ==> c.rows == copied == |src.rows|)
      ensures Appended(old(dest), dest, t, src.rows[..copied])
      ensures AllCopying(pages, t, src.columnCount)
      ensures Switched(old(sent), pages, sent, t, src.hasIdentity, fails)
      ensures old(checks) <= checks && (c.Aborted? ==> checks > 0 && raised(checks - 1))
      ensures forall i :: old(checks) <= i < checks - 1 ==> !raised(i)
      ensures c.Whole? ==> old(checks) < checks && !raised(checks - 1)
      ensures c.Failed? <==> SomeFailed(fails, |old(sent)|, |sent|)
    {
      copied, pages := 0, [];
      assert src.rows[..0] == [];
      if src.hasIdentity {
        var on := Query(SetIdentity(t, true));
        if !on {
          return Failed, 0, [];
        }
      }
      ghost var mid := sent;
      c, copied := CopyPages(t, src);
      pages := sent[|mid|..];
      assert sent == mid + pages;
      if src.hasIdentity {
        var off := Query(SetIdentity(t, false));
        if !off {
          return Failed, copied, pages;
        }
      }
    }

    /** `copyTable`. */
    method CopyTable(t: Table) returns (c: Outcome, ghost copied: nat)
      modifies this`sent, this`dest, this`checks, this`lastCheck
      ensures copied <= |Given(sources, t).rows|
      ensures c.Whole? && Given(sources, t).columnCount > 0 ==> c.rows == copied == |Given(sources, t).rows|
      ensures c.Whole? && Given(sources, t).columnCount == 0 ==> c.rows == copied == 0
      ensures Appended(old(dest), dest, t, Given(sources, t).rows[..copied])
      ensures old(checks) <= checks && (c.Aborted? ==> checks > 0 && raised(checks - 1))
      ensures forall i :: old(checks) <= i < checks - 1 ==> !raised(i)
      ensures c.Whole? && old(checks) < checks ==> !raised(checks - 1)
      ensures Kept(sources, fails, old(sent), sent)
      ensures c.Failed? <==> SomeFailed(fails, |old(sent)|, |sent|)
    {
      var src := Given(sources, t);
      copied := 0;
      assert src.rows[..0] == [];
      OtherKept(sources, fails, sent, Select(t));
      var columns := Query(Select(t));
      if !columns {
        return Failed, 0;
      }
      if src.columnCount == 0 {
        return Whole(0), 0;
      }
      OtherKept(sources, fails, sent, Select(t));
      ghost var asked := sent;
      var identity := Query(Select(t));
      KeptFurther(sources, fails, old(sent), asked, sent);
      if !identity {
        return Failed, 0;
      }
      ghost var pages;
      ghost var before := sent;
      c, copied, pages := CopySwitched(t, src);
      CopyKept(sources, fails, before, pages, sent, t);
      KeptFurther(sources, fails, old(sent), before, sent);
    }

    /** `clearTable` for each: what fails here ends the migration. */
    method ClearAll(tables: seq<Table>) returns (ok: bool)
      modifies this`sent, this`dest
      ensures ok ==> sent == old(sent) + Clearings(fails, |old(sent)|, tables) && Cleared(old(dest), dest, tables)
      ensures forall t :: t !in tables ==> Content(dest, t) == Content(old(dest), t)
      ensures !ok ==> |old(sent)| < |sent| && sent[|sent| - 1].Delete? && fails(|sent| - 1)
      ensures Kept(sources, fails, old(sent), sent)
    {
      for i := 0 to |tables|
        invariant Cleared(old(dest), dest, tables[..i]) && Kept(sources, fails, old(sent), sent)
        invariant sent == old(sent) + Clearings(fails, |old(sent)|, tables[..i])
      {
        ghost var before, said := dest, sent;
        ClearingsThen(fails, old(sent), sent, tables, i);
        ok := Clear(tables[i]);
        KeptFurther(sources, fails, old(sent), said, sent);
        if !ok {
          return;
        }
        OneMoreCleared(old(dest), before, tables, i);
      }
      assert tables[..|tables|] == tables;
      ok := true;
    }

    /** `clearTable`. */
    method Clear(t: Table) returns (ok: bool)
      modifies this`sent, this`dest
      ensures dest == if ok then old(dest)[t := []] else old(dest)
      ensures sent == old(sent) + if fails(|old(sent)|) then [Truncate(t), Delete(t)] else [Truncate(t)]
      ensures ok <==> !fails(|sent| - 1)
      ensures Kept(sources, fails, old(sent), sent)
    {
      OtherKept(sources, fails, sent, Truncate(t));
      OtherKept(sources, fails, sent + [Truncate(t)], Delete(t));
      KeptFurther(sources, fails, sent, sent + [Truncate(t)], sent + [Truncate(t)] + [Delete(t)]);
      ok := Query(Truncate(t));
      if !ok {
        ok := Query(Delete(t));
      }
    }

    method NoCheckAll(tables: seq<Table>) returns (ok: bool)
      modifies this`sent, this`dest
      ensures dest == old(dest) && Kept(sources, fails, old(sent), sent)
      ensures ok ==> sent == old(sent) + Unchecks(tables)
      ensures !ok ==> old(sent) < sent <= old(sent) + Unchecks(tables) && fails(|sent| - 1)
      ensures ok ==> !SomeFailed(fails, |old(sent)|, |sent|)
    {
      for i := 0 to |tables|
        invariant dest == old(dest) && Kept(sources, fails, old(sent), sent)
        invariant sent == old(sent) + Unchecks(tables)[..i] && !SomeFailed(fails, |old(sent)|, |sent|)
      {
        OtherKept(sources, fails, sent, Constraints(tables[i], false));
        assert Unchecks(tables)[..i + 1] == Unchecks(tables)[..i] + [Constraints(tables[i], false)];
        ok := Query(Constraints(tables[i], false));
        if !ok {
          return;
        }
      }
      ok := true;
    }

    /** `checkAllTables`: best effort. */
    method CheckAll(tables: seq<Table>)
      modifies this`sent, this`dest
      ensures dest == old(dest) && sent == old(sent) + Rechecks(tables) && Kept(sources, fails, old(sent), sent)
    {
      for i := 0 to |tables|
        invariant dest == old(dest) && sent == old(sent) + Rechecks(tables)[..i] && Kept(sources, fails, old(sent), sent)
      {
        OtherKept(sources, fails, sent, Constraints(tables[i], true));
        assert Rechecks(tables)[..i + 1] == Rechecks(tables)[..i] + [Constraints(tables[i], true)];
        var _ := Query(Constraints(tables[i], true));
      }
      assert Rechecks(tables)[..|tables|] == Rechecks(tables);
    }

    /** One table of the load: a look at the signal, the copy, and another look. */
    method LoadTable(t: Table) returns (aborted: bool, result: TableResult, ghost copied: nat)
      requires SourcesOk(sources)
      modifies this`sent, this`dest, this`checks, this`lastCheck
      ensures result.table == t && copied <= |Given(sources, t).rows|
      ensures if result.success then result.rowsCopied == copied == |Given(sources, t).rows| else result.rowsCopied == 0
      ensures Appended(old(dest), dest, t, Given(sources, t).rows[..copied])
      ensures checks > old(checks) && aborted == raised(checks - 1)
      ensures aborted && checks == old(checks) + 1 ==> sent == old(sent)
      ensures !aborted ==> checks > old(checks) + 1 && lastCheck == |sent|
      ensures !aborted ==> (result.success <==> !SomeFailed(fails, |old(sent)|, |sent|))
      ensures Kept(sources, fails, old(sent), sent)
    {
      copied, result := 0, TableResult(t, 0, false);
      assert Given(sources, t).rows[..0] == [];
      aborted := Check();
      if aborted {
        return;
      }
      var c;
      c, copied := CopyTable(t);
      if c.Aborted? {
        return true, result, copied;
      }
      result := TableResult(t, if c.Whole? then c.rows else 0, c.Whole?);
      aborted := Check();
    }

    /** The tables in load order. */
    method LoadAll(loadOrder: seq<Table>) returns (r: Result)
      requires Distinct(loadOrder) && SourcesOk(sources)
      modifies this`sent, this`dest, this`checks, this`lastCheck
      ensures r.Done? || r.Cancelled?
      ensures r.Done? ==> Copied(sources, fails, old(dest), dest, |old(sent)|, |sent|, loadOrder, r.tables) && r.success == AllWell(r.tables)
      ensures forall t :: t !in loadOrder ==> Content(dest, t) == Content(old(dest), t)
      ensures r.Cancelled? ==> checks > old(checks) && raised(checks - 1) && (checks == old(checks) + 1 ==> sent == old(sent))
      // The signal is looked at before the first table, and behind the last one.
      ensures r.Done? ==> if loadOrder == [] then checks == old(checks) else LookedAt(old(checks))
      ensures Kept(sources, fails, old(sent), sent)
    {
      var results: seq<TableResult> := [];
      for i := 0 to |loadOrder|
        invariant |results| == i && Copied(sources, fails, old(dest), dest, |old(sent)|, |sent|, loadOrder[..i], results)
        invariant if i > 0 then LookedAt(old(checks)) else checks == old(checks) && sent == old(sent)
        invariant Kept(sources, fails, old(sent), sent)
      {
        ghost var before, said := dest, sent;
        var aborted, result; ghost var copied;
        aborted, result, copied := LoadTable(loadOrder[i]);
        KeptFurther(sources, fails, old(sent), said, sent);
        if aborted {
          return Cancelled;
        }
        OneMoreCopied(sources, fails, old(dest), before, dest, |old(sent)|, |said|, |sent|, loadOrder, i, results, result, copied);
        results := results + [result];
      }
      assert loadOrder[..|loadOrder|] == loadOrder;
      r := Done(results, AllWell(results));
    }

    /** The signal was looked at since, more than once, last behind all that has been sent, and was not up. */
    predicate LookedAt(before: nat)
      reads this`checks, this`lastCheck, this`sent
    {
      checks > before + 1 && !raised(checks - 1) && lastCheck == |sent|
    }

    /** The `try` block: checks off, a look at the signal, the destination emptied, the tables loaded. */
    method Attempt(loadOrder: seq<Table>, cleanupOrder: seq<Table>) returns (r: Result)
      requires Distinct(loadOrder) && (forall t :: t in loadOrder <==> t in cleanupOrder) && SourcesOk(sources)
      modifies this`sent, this`dest, this`checks, this`lastCheck
      ensures r.Done? ==> Reported(sources, dest, loadOrder, r.tables) && r.success == AllWell(r.tables)
      ensures r.Done? ==> checks > old(checks) && !raised(checks - 1) && (loadOrder != [] ==> lastCheck == |sent|)
      ensures r.Done? ==> Prepared(fails, old(sent), sent, cleanupOrder)
      ensures r.Done? && !SomeFailed(fails, |old(sent)|, |sent|) ==> r.success
      ensures r.Cancelled? ==> checks > old(checks) && raised(checks - 1) && old(sent) + Unchecks(cleanupOrder) <= sent
      ensures r.Cancelled? && checks == old(checks) + 1 ==> dest == old(dest) && sent == old(sent) + Unchecks(cleanupOrder)
      ensures r.Threw? ==> |old(sent)| < |sent| && fails(|sent| - 1)
      ensures forall t :: t !in loadOrder ==> Content(dest, t) == Content(old(dest), t)
      ensures Kept(sources, fails, old(sent), sent)
    {
      var ok := NoCheckAll(cleanupOrder);
      if !ok {
        return Threw;
      }
      var aborted := Check();
      if aborted {
        return Cancelled;
      }
      ghost var unchecked := sent;
      ok := ClearAll(cleanupOrder);
      KeptFurther(sources, fails, old(sent), unchecked, sent);
      if !ok {
        return Threw;
      }
      ghost var ready, emptied := sent, dest;
      r := LoadAll(loadOrder);
      KeptFurther(sources, fails, old(sent), ready, sent);
      if r.Done? {
        FromEmptied(sources, fails, old(dest), emptied, dest, |old(sent)|, |ready|, |sent|, loadOrder, cleanupOrder, r.tables);
      }
    }

    method Migrate(loadOrder: seq<Table>, cleanupOrder: seq<Table>) returns (r: Result)
      requires Distinct(loadOrder) && (forall t :: t in loadOrder <==> t in cleanupOrder) && SourcesOk(sources)
      modifies this`sent, this`dest, this`checks, this`lastCheck
      ensures r.Done? ==> Reported(sources, dest, loadOrder, r.tables) && r.success == AllWell(r.tables)
      ensures r.Done? ==> checks > old(checks) && !raised(checks - 1)
      ensures r.Cancelled? ==> checks > old(checks) && raised(checks - 1)
      ensures r.Cancelled? && checks == old(checks) + 1 ==> dest == old(dest)
      ensures forall t :: t !in loadOrder ==> Content(dest, t) == Content(old(dest), t)
      ensures Kept(sources, fails, old(sent), sent) && EndsWith(sent, Rechecks(cleanupOrder))
      ensures r.Cancelled? ==> old(sent) + Unchecks(cleanupOrder) <= sent
      // The tables are emptied in cleanup order, and the last look at the signal is behind the last one loaded.
      ensures r.Done? ==> Prepared(fails, old(sent), sent, cleanupOrder)
      ensures r.Done? && loadOrder != [] ==> |sent| == lastCheck + |cleanupOrder|
      // Only a statement that fails makes it throw, or not succeed.
      ensures r.Threw? ==> |old(sent)| + |cleanupOrder| < |sent| && fails(|sent| - 1 - |cleanupOrder|)
      ensures r.Done? && !SomeFailed(fails, |old(sent)|, |sent|) ==> r.success
    {
      r := Attempt(loadOrder, cleanupOrder);
      ghost var tried := sent;
      CheckAll(cleanupOrder);
      KeptFurther(sources, fails, old(sent), tried, sent);
      FailedBetween(fails, |old(sent)|, |tried|, |sent|);
    }
  }

  // ---- what a migration leaves ----

  datatype TableResult = TableResult(table: Table, rowsCopied: nat, success: bool)

  datatype Result = Done(tables: seq<TableResult>, success: bool) | Cancelled | Threw

  predicate Distinct(tables: seq<Table>) {
    forall i, j :: 0 <= i < j < |tables| ==> tables[i] != tables[j]
  }

  /** A table without columns has no rows. */
  ghost predicate SourcesOk(sources: map<Table, Source>) {
    forall t :: t in sources && sources[t].columnCount == 0 ==> sources[t].rows == []
  }

  predicate AllWell(results: seq<TableResult>) {
    forall i :: 0 <= i < |results| ==> results[i].success
  }

  /** A table reported as copied holds its source, row for row; one that failed reports none, and holds a first part. */
  ghost predicate ResultTrue(src: Source, before: seq<Row>, after: seq<Row>, r: TableResult) {
    if r.success then r.rowsCopied == |src.rows| && after == before + src.rows
    else r.rowsCopied == 0 && exists k :: 0 <= k <= |src.rows| && after == before + src.rows[..k]
  }

  ghost predicate Loaded(sources: map<Table, Source>, before: map<Table, seq<Row>>, after: map<Table, seq<Row>>,
                         tables: seq<Table>, results: seq<TableResult>) {
    && |results| == |tables|
    && (forall i :: 0 <= i < |tables| ==>
          results[i].table == tables[i] &&
          ResultTrue(Given(sources, tables[i]), Content(before, tables[i]), Content(after, tables[i]), results[i]))
    && (forall t :: t !in tables ==> Content(after, t) == Content(before, t))
  }

  /** The outcome of a whole migration: every table in load order, from an emptied destination. */
  ghost predicate Reported(sources: map<Table, Source>, after: map<Table, seq<Row>>, tables: seq<Table>, results: seq<TableResult>) {
    && |results| == |tables|
    && forall i :: 0 <= i < |tables| ==>
         results[i].table == tables[i] && ResultTrue(Given(sources, tables[i]), [], Content(after, tables[i]), results[i])
  }

  lemma OneMoreLoaded(sources: map<Table, Source>, start: map<Table, seq<Row>>, before: map<Table, seq<Row>>,
                      after: map<Table, seq<Row>>, order: seq<Table>, i: nat, results: seq<TableResult>, r: TableResult, copied: nat)
    requires i < |order| && Distinct(order) && Loaded(sources, start, before, order[..i], results) && |results| == i
    requires copied <= |Given(sources, order[i]).rows| && Appended(before, after, order[i], Given(sources, order[i]).rows[..copied])
    requires r.table == order[i] && (if r.success then r.rowsCopied == copied == |Given(sources, order[i]).rows| else r.rowsCopied == 0)
    ensures Loaded(sources, start, after, order[..i + 1], results + [r])
  {
  }

  /** What a load has left of its tables, all of them reported as copied exactly if no statement failed. */
  ghost predicate Copied(sources: map<Table, Source>, fails: nat -> bool, start: map<Table, seq<Row>>, after: map<Table, seq<Row>>,
                         m: nat, n: nat, tables: seq<Table>, results: seq<TableResult>) {
    Loaded(sources, start, after, tables, results) && (AllWell(results) <==> !SomeFailed(fails, m, n))
  }

  lemma FromEmptied(sources: map<Table, Source>, fails: nat -> bool, start: map<Table, seq<Row>>, emptied: map<Table, seq<Row>>,
                    after: map<Table, seq<Row>>, m: nat, k: nat, n: nat, loadOrder: seq<Table>, cleanupOrder: seq<Table>,
                    results: seq<TableResult>)
    requires Cleared(start, emptied, cleanupOrder) && Copied(sources, fails, emptied, after, k, n, loadOrder, results)
    requires m <= k <= n && forall t :: t in loadOrder <==> t in cleanupOrder
    ensures Reported(sources, after, loadOrder, results) && (!SomeFailed(fails, m, n) ==> AllWell(results))
  {
    FailedBetween(fails, m, k, n);
    forall i | 0 <= i < |loadOrder|
      ensures Content(emptied, loadOrder[i]) == []
    {
      assert loadOrder[i] in cleanupOrder;
    }
  }

  lemma OneMoreCopied(sources: map<Table, Source>, fails: nat -> bool, start: map<Table, seq<Row>>, before: map<Table, seq<Row>>,
                      after: map<Table, seq<Row>>, m: nat, k: nat, n: nat, order: seq<Table>, i: nat, results: seq<TableResult>,
                      r: TableResult, copied: nat)
    requires i < |order| && Distinct(order) && Copied(sources, fails, start, before, m, k, order[..i], results) && |results| == i
    requires copied <= |Given(sources, order[i]).rows| && Appended(before, after, order[i], Given(sources, order[i]).rows[..copied])
    requires r.table == order[i] && (if r.success then r.rowsCopied == copied == |Given(sources, order[i]).rows| else r.rowsCopied == 0)
    requires m <= k <= n && (r.success <==> !SomeFailed(fails, k, n))
    ensures Copied(sources, fails, start, after, m, n, order[..i + 1], results + [r])
  {
    OneMoreLoaded(sources, start, before, after, order, i, results, r, copied);
    OneMoreWell(fails, m, k, n, results, r);
  }

  lemma OneMoreWell(fails: nat -> bool, m: nat, k: nat, n: nat, results: seq<TableResult>, r: TableResult)
    requires m <= k <= n && (AllWell(results) <==> !SomeFailed(fails, m, k)) && (r.success <==> !SomeFailed(fails, k, n))
    ensures AllWell(results + [r]) <==> !SomeFailed(fails, m, n)
  {
    assert AllWell(results + [r]) <==> AllWell(results) && r.success by {
      assert forall i :: 0 <= i < |results| ==> (results + [r])[i] == results[i];
      assert (results + [r])[|results|] == r;
    }
    FailedBetween(fails, m, k, n);
  }

  lemma FailedBetween(fails: nat -> bool, m: nat, k: nat, n: nat)
    requires m <= k <= n
    ensures SomeFailed(fails, m, n) <==> SomeFailed(fails, m, k) || SomeFailed(fails, k, n)
  {
  }
}
