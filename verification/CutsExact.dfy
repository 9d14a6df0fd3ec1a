/**
 The other half of `BatchCuts`: for a fresh run, a log in which some event does not fit can be cut
 in two ways that leave different rows.
 */
module CutsExact {
  import opened Wrappers
  import opened RunQueue
  import opened RunEvents
  import opened RunProjection
  import opened Ingestion
  import opened BatchCuts

  /** At every moment of the run, however its events were cut so far, the rows are those of one batch. */
  ghost predicate CutIndependent(rows: Rows, log: seq<Event>) {
    forall n, batches {:trigger log[..n], Flatten(batches)} ::
      0 <= n <= |log| && Flatten(batches) == log[..n] ==> ApplyBatches(rows, batches) == Apply(rows, log[..n])
  }

  predicate Fresh(rows: Rows) {
    rows.steps == map[] && rows.tables == map[]
  }

  // ---- what two agreeing cuts say of one cell ----

  lemma TableCutForces(q: Option<TableRow>, op: LiveOp)
    requires UpsertTable(q, op) == MergeTable(q, UpsertTable(None, op))
    ensures forall total :: q.Some? && op.Sample? && Over(q.value.status) && total == q.value.rowsTotal ==> TableFits(q, Some(total), op)
    ensures !(q.Some? && op.Sample? && Over(q.value.status)) ==> forall settled :: TableFits(q, settled, op)
  {
  }

  lemma StepCutForces(q: Option<StepRow>, op: StepOp)
    requires UpsertStep(q, op) == MergeStep(q, UpsertStep(None, op))
    ensures StepFits(q, op)
  {
  }

  lemma RunCutForces(r: RunRecord, p: RunPatch, e: Event)
    requires MergeRun(r, FoldRun(p, e)).status == MergeRun(MergeRun(r, p), FoldRun(NO_RUN_PATCH, e)).status
    ensures e.body.RunStarted? && Terminal(MergeRun(r, p).status) ==> r.status != Cancelling
  {
  }

  /** A trailing sample, in a batch that starts at the finish: its total must not fall below an earlier trailing one. */
  lemma TrailingCutForces(r: Option<TableRow>, q: Option<TableRow>, op: LiveOp)
    requires r.Some? && Over(r.value.status) && (q.Some? ==> !Over(q.value.status)) && op.Sample?
    requires LandTable(r, Some(UpsertTable(q, op))) == Some(MergeTable(LandTable(r, q), UpsertTable(None, op)))
    ensures var now := LandTable(r, q).value; now.rowsTotal <= op.rowsTotal || now.rowsTotal == r.value.rowsTotal
  {
  }

  // ---- cutting a log ----

  predicate Finishes(e: Event, t: string) {
    e.body.TableFinished? && e.body.table == t
  }

  lemma FlattenTwo(a: seq<Event>, b: seq<Event>)
    ensures Flatten([a, b]) == a + b
  {
    assert Flatten([b]) == b + Flatten([]);
    assert [a, b][1..] == [b];
  }

  lemma FlattenThree(a: seq<Event>, b: seq<Event>, c: seq<Event>)
    ensures Flatten([a, b, c]) == a + (b + c)
  {
    FlattenTwo(b, c);
    assert [a, b, c][1..] == [b, c];
  }

  lemma {:induction false} ApplyTwo(rows: Rows, a: seq<Event>, b: seq<Event>)
    ensures ApplyBatches(rows, [a, b]) == Apply(Apply(rows, a), b)
  {
    assert [a, b][1..] == [b];
    assert [b][1..] == [];
    assert ApplyBatches(Apply(rows, a), [b]) == ApplyBatches(Apply(Apply(rows, a), b), []);
  }

  lemma {:induction false} ApplyThree(rows: Rows, a: seq<Event>, b: seq<Event>, c: seq<Event>)
    ensures ApplyBatches(rows, [a, b, c]) == Apply(Apply(Apply(rows, a), b), c)
  {
    assert [a, b, c][1..] == [b, c];
    ApplyTwo(Apply(rows, a), b, c);
  }

  /** Cutting the last event off as well, wherever else the log was cut. */
  ghost predicate LastCutFree(rows: Rows, p: seq<Event>, e: Event) {
    forall a, b {:trigger Apply(Apply(rows, a), b)} :: a + b == p ==>
      Apply(Apply(rows, a), b + [e]) == Apply(Apply(Apply(rows, a), b), [e])
  }

  lemma TwoCutsAt(rows: Rows, log: seq<Event>, n: nat, a: seq<Event>, b: seq<Event>, e: Event)
    requires CutIndependent(rows, log) && n <= |log| && log[..n] == a + (b + [e])
    ensures Apply(Apply(rows, a), b + [e]) == Apply(Apply(Apply(rows, a), b), [e])
  {
    FlattenTwo(a, b + [e]);
    FlattenThree(a, b, [e]);
    assert ApplyBatches(rows, [a, b + [e]]) == Apply(rows, log[..n]);
    assert ApplyBatches(rows, [a, b, [e]]) == Apply(rows, log[..n]);
    ApplyTwo(rows, a, b + [e]);
    ApplyThree(rows, a, b, [e]);
  }

  lemma PrefixParts(log: seq<Event>, n: nat, a: seq<Event>, b: seq<Event>)
    requires n < |log| && a + b == log[..n]
    ensures log[..n + 1] == a + (b + [log[n]])
  {
    assert log[..n + 1] == (a + b) + [log[n]];
  }

  lemma TwoCuts(rows: Rows, log: seq<Event>, n: nat)
    requires CutIndependent(rows, log) && n < |log|
    ensures LastCutFree(rows, log[..n], log[n])
  {
    forall a, b | a + b == log[..n]
      ensures Apply(Apply(rows, a), b + [log[n]]) == Apply(Apply(Apply(rows, a), b), [log[n]])
    {
      PrefixParts(log, n, a, b);
      TwoCutsAt(rows, log, n + 1, a, b, log[n]);
    }
  }

  lemma OneCut(rows: Rows, p: seq<Event>, e: Event)
    requires LastCutFree(rows, p, e)
    ensures Apply(rows, p + [e]) == Apply(Apply(rows, p), [e])
  {
    assert [] + p == p;
    assert Apply(rows, []) == rows by {
      MergeNothing(rows);
    }
    assert Apply(Apply(rows, []), p) == Apply(rows, p);
  }

  lemma {:induction false} FoldLast(b: seq<Event>, e: Event)
    ensures FoldAll(NOTHING, b + [e]) == Fold(FoldAll(NOTHING, b), e)
  {
    assert (b + [e])[..|b|] == b;
  }

  // ---- one table at a time ----

  datatype Cell = Cell(row: Option<TableRow>, settled: Option<nat>)

  function CellStep(c: Cell, op: Option<LiveOp>): Cell {
    if op.None? then c
    else var row := MergeTable(c.row, UpsertTable(None, op.value));
      Cell(Some(row), if op.value.Finish? then Some(row.rowsTotal) else c.settled)
  }

  function CellAll(c: Cell, log: seq<Event>, t: string): Cell {
    if log == [] then c else CellStep(CellAll(c, log[..|log| - 1], t), TableOpOf(log[|log| - 1], t))
  }

  function FoldCell(log: seq<Event>, t: string): Option<TableRow> {
    if log == [] then None else FoldTable(FoldCell(log[..|log| - 1], t), TableOpOf(log[|log| - 1], t))
  }

  function CellOf(k: Track, t: string): Cell {
    Cell(At(k.rows.tables, t), At(k.settled, t))
  }

  lemma CellStepOf(k: Track, e: Event, t: string)
    ensures CellOf(TrackStep(k, e), t) == CellStep(CellOf(k, t), TableOpOf(e, t))
  {
    MergeNothing(k.rows);
    TableCells(k.rows, NOTHING, k, e, t);
    SettledCell(k, e, t);
  }

  lemma {:induction false} CellAllOf(k: Track, log: seq<Event>, t: string)
    ensures CellOf(TrackAll(k, log), t) == CellAll(CellOf(k, t), log, t)
  {
    if log != [] {
      CellAllOf(k, log[..|log| - 1], t);
      CellStepOf(TrackAll(k, log[..|log| - 1]), log[|log| - 1], t);
    }
  }

  lemma {:induction false} FoldCellOf(log: seq<Event>, t: string)
    ensures At(FoldAll(NOTHING, log).tables, t) == FoldCell(log, t)
  {
    if log != [] {
      FoldCellOf(log[..|log| - 1], t);
      FoldAt(FoldAll(NOTHING, log[..|log| - 1]), log[|log| - 1]);
    }
  }

  predicate OverCell(row: Option<TableRow>) {
    row.Some? && Over(row.value.status)
  }

  predicate NoFinish(b: seq<Event>, t: string) {
    forall i :: 0 <= i < |b| ==> !Finishes(b[i], t)
  }

  lemma {:induction false} NoFinishNotOver(b: seq<Event>, t: string)
    requires NoFinish(b, t)
    ensures !OverCell(FoldCell(b, t))
  {
    if b != [] {
      NoFinishNotOver(b[..|b| - 1], t);
    }
  }

  /** The cut just after the last event that finished `t`. */
  lemma {:induction false} LastFinish(log: seq<Event>, t: string) returns (a: seq<Event>, b: seq<Event>)
    requires OverCell(CellAll(Cell(None, None), log, t).row)
    ensures log == a + b && NoFinish(b, t)
    ensures OverCell(CellAll(Cell(None, None), a, t).row)
    ensures CellAll(Cell(None, None), log, t).settled == Some(CellAll(Cell(None, None), a, t).row.value.rowsTotal)
  {
    var n := |log| - 1;
    if Finishes(log[n], t) {
      a, b := log, [];
    } else {
      a, b := LastFinish(log[..n], t);
      b := b + [log[n]];
    }
  }

  lemma {:induction false} StillCancelling(k: Track, log: seq<Event>)
    ensures TrackAll(k, log).cancelling == k.cancelling
  {
    if log != [] {
      StillCancelling(k, log[..|log| - 1]);
    }
  }

  // ---- the converse ----

  /** The cells of table `t` when the last event is cut off, and when it is not. */
  lemma {:induction false} CutCells(k: Track, b: seq<Event>, e: Event, t: string)
    requires Tracked(k) && FitsLog(k, b)
    requires Apply(k.rows, b + [e]) == Apply(Apply(k.rows, b), [e])
    ensures var r, q, op := At(k.rows.tables, t), FoldCell(b, t), TableOpOf(e, t);
            && At(TrackAll(k, b).rows.tables, t) == LandTable(r, q)
            && LandTable(r, FoldTable(q, op)) == LandTable(LandTable(r, q), FoldTable(None, op))
  {
    FoldLast(b, e);
    BatchIsOneByOne(k, b);
    FoldCellOf(b, t);
    TableCells(k.rows, FoldAll(NOTHING, b), TrackAll(k, b), e, t);
  }

  lemma {:induction false} TableConverse(k: Track, p: seq<Event>, e: Event, t: string)
    requires Tracked(k) && CellOf(k, t) == Cell(None, None) && FitsLog(k, p) && LastCutFree(k.rows, p, e)
    requires TableOpOf(e, t).Some?
    ensures TableFits(At(TrackAll(k, p).rows.tables, t), At(TrackAll(k, p).settled, t), TableOpOf(e, t).value)
  {
    var op := TableOpOf(e, t).value;
    CellAllOf(k, p, t);
    var cell := CellAll(Cell(None, None), p, t);
    OneCut(k.rows, p, e);
    CutCells(k, p, e, t);
    assert cell.row == FoldCell(p, t);
    TableCutForces(cell.row, op);
    if op.Sample? && OverCell(cell.row) {
      TrailingConverse(k, p, e, t);
    }
  }

  lemma {:induction false} TrailingConverse(k: Track, p: seq<Event>, e: Event, t: string)
    requires Tracked(k) && CellOf(k, t) == Cell(None, None) && FitsLog(k, p) && LastCutFree(k.rows, p, e)
    requires TableOpOf(e, t).Some? && TableOpOf(e, t).value.Sample? && OverCell(CellAll(Cell(None, None), p, t).row)
    ensures var cell := CellAll(Cell(None, None), p, t);
            cell.row.value.rowsTotal <= TableOpOf(e, t).value.rowsTotal || cell.settled == Some(cell.row.value.rowsTotal)
  {
    var a, b := LastFinish(p, t);
    FitsSplit(k, a, b);
    BatchIsOneByOne(k, a);
    assert Apply(Apply(k.rows, a), b + [e]) == Apply(Apply(Apply(k.rows, a), b), [e]);
    TrailingCells(k, a, b, e, t);
    NoFinishNotOver(b, t);
    TrailingCutForces(CellAll(Cell(None, None), a, t).row, FoldCell(b, t), TableOpOf(e, t).value);
  }

  lemma {:induction false} TrailingCells(k: Track, a: seq<Event>, b: seq<Event>, e: Event, t: string)
    requires CellOf(k, t) == Cell(None, None)
    requires var kc := TrackAll(k, a); Tracked(kc) && FitsLog(kc, b) && Apply(kc.rows, b + [e]) == Apply(Apply(kc.rows, b), [e])
    ensures var r, q, op := CellAll(Cell(None, None), a, t).row, FoldCell(b, t), TableOpOf(e, t);
            && CellAll(Cell(None, None), a + b, t).row == LandTable(r, q)
            && LandTable(r, FoldTable(q, op)) == LandTable(LandTable(r, q), FoldTable(None, op))
  {
    CutCells(TrackAll(k, a), b, e, t);
    CellAllOf(k, a, t);
    CellAllOf(k, a + b, t);
    TrackAllAppend(k, a, b);
  }

  lemma {:induction false} StepCells(rows: Rows, b: seq<Event>, e: Event, s: string)
    requires Apply(rows, b + [e]) == Apply(Apply(rows, b), [e])
    ensures var r, q, op := At(rows.steps, s), At(FoldAll(NOTHING, b).steps, s), StepOpOf(e, s);
            && At(Apply(rows, b).steps, s) == LandStep(r, q)
            && LandStep(r, FoldStep(q, op)) == LandStep(LandStep(r, q), FoldStep(None, op))
  {
    var p := FoldAll(NOTHING, b);
    FoldLast(b, e);
    AloneAt(e);
    FoldAt(p, e);
    MergeAt(rows, p);
    MergeAt(rows, Fold(p, e));
    MergeAt(Merge(rows, p), FoldAll(NOTHING, [e]));
  }

  lemma {:induction false} StepConverse(k: Track, p: seq<Event>, e: Event, s: string)
    requires Tracked(k) && s !in k.rows.steps && FitsLog(k, p) && LastCutFree(k.rows, p, e)
    requires StepOpOf(e, s).Some?
    ensures StepFits(At(TrackAll(k, p).rows.steps, s), StepOpOf(e, s).value)
  {
    OneCut(k.rows, p, e);
    StepCells(k.rows, p, e, s);
    BatchIsOneByOne(k, p);
    StepCutForces(At(FoldAll(NOTHING, p).steps, s), StepOpOf(e, s).value);
  }

  lemma {:induction false} RunConverse(k: Track, p: seq<Event>, e: Event)
    requires Tracked(k) && k.cancelling == (k.rows.run.status == Cancelling) && FitsLog(k, p) && LastCutFree(k.rows, p, e)
    ensures e.body.RunStarted? && Terminal(TrackAll(k, p).rows.run.status) ==> !TrackAll(k, p).cancelling
  {
    OneCut(k.rows, p, e);
    BatchIsOneByOne(k, p);
    StillCancelling(k, p);
    FoldLast(p, e);
    AloneAt(e);
    RunCutForces(k.rows.run, FoldAll(NOTHING, p).run, e);
  }

  lemma {:induction false} EventConverse(k: Track, p: seq<Event>, e: Event)
    requires Tracked(k) && k.rows.steps == map[] && k.rows.tables == map[] && k.settled == map[]
    requires k.cancelling == (k.rows.run.status == Cancelling) && FitsLog(k, p) && LastCutFree(k.rows, p, e)
    ensures Fits(TrackAll(k, p), e)
  {
    forall t | t in TablesOf(e)
      ensures TableFits(At(TrackAll(k, p).rows.tables, t), At(TrackAll(k, p).settled, t), TableOpOf(e, t).value)
    {
      TableConverse(k, p, e, t);
    }
    forall s | s in StepsOf(e)
      ensures StepFits(At(TrackAll(k, p).rows.steps, s), StepOpOf(e, s).value)
    {
      StepConverse(k, p, e, s);
    }
    RunConverse(k, p, e);
  }

  lemma {:induction false} CutsForceFit(rows: Rows, log: seq<Event>, n: nat)
    requires Fresh(rows) && CutIndependent(rows, log) && n <= |log|
    ensures FitsLog(TrackFrom(rows), log[..n])
  {
    if n > 0 {
      CutsForceFit(rows, log, n - 1);
      TwoCuts(rows, log, n - 1);
      TrackFromTracked(rows);
      EventConverse(TrackFrom(rows), log[..n - 1], log[n - 1]);
      assert log[..n][..n - 1] == log[..n - 1];
    }
  }

  /** Exactly when the cut does not matter: for a fresh run, if and only if every event fits. */
  lemma {:induction false} CutsDoNotMatterExactly(rows: Rows, log: seq<Event>)
    requires Fresh(rows)
    ensures CutIndependent(rows, log) <==> FitsLog(TrackFrom(rows), log)
  {
    if CutIndependent(rows, log) {
      CutsForceFit(rows, log, |log|);
      assert log[..|log|] == log;
    }
    if FitsLog(TrackFrom(rows), log) {
      forall n, batches | 0 <= n <= |log| && Flatten(batches) == log[..n]
        ensures ApplyBatches(rows, batches) == Apply(rows, log[..n])
      {
        assert log == log[..n] + log[n..];
        FitsSplit(TrackFrom(rows), log[..n], log[n..]);
        TrackFromTracked(rows);
        AnyCut(TrackFrom(rows), batches);
        BatchIsOneByOne(TrackFrom(rows), log[..n]);
      }
    }
  }

  function SampledEvent(t: string): Event {
    Event(1, 0, TableProgress(t, 500, 1000, 50.0))
  }

  function FailedEvent(t: string): Event {
    Event(2, 1, TableFinished(t, 0, 9, false, Some("x")))
  }

  /**
   A failed table reports no rows. After a sample of five hundred that does not fit, so the stored count
   depends on whether the two events shared a batch: none if they did, five hundred if not.
   */
  lemma FailedTableDependsOnCut(rows: Rows, t: string)
    requires t !in rows.tables
    ensures At(Apply(rows, [SampledEvent(t), FailedEvent(t)]).tables, t) == Some(TableRow(Broken, 0, 1000, 50.0, Some(9), Some("x"), Some(1)))
    ensures At(Apply(Apply(rows, [SampledEvent(t)]), [FailedEvent(t)]).tables, t) == Some(TableRow(Broken, 500, 1000, 50.0, Some(9), Some("x"), Some(1)))
  {
    var e, f := SampledEvent(t), FailedEvent(t);
    FailedCells(t);
    TwoCells(e, f, t);
    ApplyCell(rows, [e, f], t);
    ApplyCell(rows, [e], t);
    ApplyCell(Apply(rows, [e]), [f], t);
  }

  /** The same at the level of one table's cells. */
  lemma FailedCells(t: string)
    ensures var sampled := FoldTable(None, TableOpOf(SampledEvent(t), t));
            && LandTable(None, FoldTable(sampled, TableOpOf(FailedEvent(t), t))) == Some(TableRow(Broken, 0, 1000, 50.0, Some(9), Some("x"), Some(1)))
            && LandTable(LandTable(None, sampled), FoldTable(None, TableOpOf(FailedEvent(t), t))) == Some(TableRow(Broken, 500, 1000, 50.0, Some(9), Some("x"), Some(1)))
  {
  }

  lemma {:induction false} FailedTableDoesNotFit(k: Track, t: string)
    requires t !in k.rows.tables
    ensures !FitsLog(k, [SampledEvent(t), FailedEvent(t)])
  {
    if FitsLog(k, [SampledEvent(t), FailedEvent(t)]) {
      assert t in TablesOf(FailedEvent(t));
      FitsPair(k, SampledEvent(t), FailedEvent(t));
      CellStepOf(k, SampledEvent(t), t);
      SampledThenFailed(CellOf(TrackStep(k, SampledEvent(t)), t), t);
    }
  }

  lemma SampledThenFailed(c: Cell, t: string)
    requires c.row.Some? && c.row.value.rowsDone == 500
    ensures !TableFits(c.row, c.settled, TableOpOf(FailedEvent(t), t).value)
  {
  }

  lemma {:induction false} ApplyCell(rows: Rows, b: seq<Event>, t: string)
    ensures At(Apply(rows, b).tables, t) == LandTable(At(rows.tables, t), FoldCell(b, t))
  {
    FoldCellOf(b, t);
    MergeAt(rows, FoldAll(NOTHING, b));
  }

  lemma {:induction false} TwoCells(e: Event, f: Event, t: string)
    ensures FoldCell([e], t) == FoldTable(None, TableOpOf(e, t))
    ensures FoldCell([f], t) == FoldTable(None, TableOpOf(f, t))
    ensures FoldCell([e, f], t) == FoldTable(FoldTable(None, TableOpOf(e, t)), TableOpOf(f, t))
  {
    assert [e][..0] == [] && [f][..0] == [] && [e, f][..1] == [e];
  }

  lemma {:induction false} FitsPair(k: Track, e: Event, f: Event)
    requires FitsLog(k, [e, f])
    ensures Fits(TrackStep(k, e), f)
  {
    assert [e, f][..1] == [e] && [e][..0] == [];
    assert TrackAll(k, [e]) == TrackStep(TrackAll(k, []), e);
  }
}
