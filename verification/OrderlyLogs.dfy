/**
 The logs that fit, told from the events alone: what a run emits that plans first, starts and finishes each
 step once, and reports each table's progress without stepping back.
 */
module OrderlyLogs {
  import opened Wrappers
  import opened RunQueue
  import opened RunEvents
  import opened RunProjection
  import opened Ingestion
  import opened BatchCuts
  import opened CutsExact
  import opened SnapshotAgreement
  import opened RunRow

  // ---- the description ----

  /** What the log says of one table, in order; a plan counts as a first sample. */
  function TableOps(log: seq<Event>, t: string): seq<LiveOp> {
    if log == [] then []
    else
      var before, op := TableOps(log[..|log| - 1], t), TableOpOf(log[|log| - 1], t);
      if op.Some? then before + [op.value] else before
  }

  function StepOps(log: seq<Event>, s: string): seq<StepOp> {
    if log == [] then []
    else
      var before, op := StepOps(log[..|log| - 1], s), StepOpOf(log[|log| - 1], s);
      if op.Some? then before + [op.value] else before
  }

  predicate Rises(x: LiveOp, y: LiveOp) {
    x.Sample? && y.Sample? && x.rowsDone <= y.rowsDone && x.rowsTotal <= y.rowsTotal && x.pct <= y.pct
  }

  /** Samples only, each no less than the one before. */
  predicate Rising(ops: seq<LiveOp>) {
    (forall i :: 0 <= i < |ops| ==> ops[i].Sample?) && forall i, j :: 0 <= i < j < |ops| ==> Rises(ops[i], ops[j])
  }

  /** A finish that reports at least the rows seen before. */
  predicate Ends(ops: seq<LiveOp>, f: LiveOp) {
    f.Finish? && forall i :: 0 <= i < |ops| && ops[i].Sample? ==> ops[i].rowsDone <= f.rowsCopied && (f.success ==> ops[i].pct <= 100.0)
  }

  /** A sample behind the finish, above neither what that reported nor what was seen before it. */
  predicate Trails(ops: seq<LiveOp>, f: LiveOp, x: LiveOp) {
    && f.Finish? && x.Sample? && x.rowsDone <= f.rowsCopied
    && (x.rowsTotal <= f.rowsCopied || exists k :: 0 <= k < |ops| && ops[k].Sample? && x.rowsTotal <= ops[k].rowsTotal)
    && (if f.success then x.pct <= 100.0
        else x.pct == 0.0 || exists k :: 0 <= k < |ops| && ops[k].Sample? && x.pct <= ops[k].pct)
  }

  ghost predicate FinishedAt(ops: seq<LiveOp>, n: nat) {
    n < |ops| && Rising(ops[..n]) && Ends(ops[..n], ops[n]) && forall j :: n < j < |ops| ==> Trails(ops[..n], ops[n], ops[j])
  }

  /** Rising samples, at most one finish, and samples that trail it. */
  ghost predicate TableLife(ops: seq<LiveOp>) {
    Rising(ops) || exists n: nat :: FinishedAt(ops, n)
  }

  /** Only the first thing said of a table may be its plan. */
  predicate PlannedFirst(ops: seq<LiveOp>) {
    forall i :: 0 < i < |ops| ==> !Seeds(ops[i])
  }

  /** A step starts, and perhaps finishes, under its own ordinal. */
  predicate StepLife(ops: seq<StepOp>) {
    |ops| <= 2 && (|ops| > 0 ==> ops[0].Begin?) && (|ops| > 1 ==> ops[1].End? && ops[0].ordinal == ops[1].ordinal)
  }

  predicate StartsBeforeEnd(log: seq<Event>) {
    forall i, j :: 0 <= i < j < |log| && log[i].body.RunFinished? ==> !log[j].body.RunStarted?
  }

  ghost predicate Orderly(log: seq<Event>) {
    && (forall t :: TableLife(TableOps(log, t)) && PlannedFirst(TableOps(log, t)))
    && (forall s :: StepLife(StepOps(log, s)))
    && StartsBeforeEnd(log)
  }

  // ---- one table ----

  const NEW_TABLE := Cell(None, None)

  function CellRun(ops: seq<LiveOp>): Cell {
    if ops == [] then NEW_TABLE else CellStep(CellRun(ops[..|ops| - 1]), Some(ops[|ops| - 1]))
  }

  lemma {:induction false} CellAllIsRun(log: seq<Event>, t: string)
    ensures CellAll(NEW_TABLE, log, t) == CellRun(TableOps(log, t))
  {
    if log != [] {
      CellAllIsRun(log[..|log| - 1], t);
      var before, op := TableOps(log[..|log| - 1], t), TableOpOf(log[|log| - 1], t);
      if op.Some? {
        assert (before + [op.value])[..|before|] == before;
      }
    }
  }

  lemma {:induction false} RisingCell(ops: seq<LiveOp>)
    requires Rising(ops)
    ensures CellRun(ops) ==
              if ops == [] then NEW_TABLE
              else var last := ops[|ops| - 1]; Cell(Some(TableRow(last.status, last.rowsDone, last.rowsTotal, last.pct, None, None, None)), None)
  {
    if |ops| > 1 {
      var n := |ops| - 1;
      RisingCell(ops[..n]);
      assert Rises(ops[n - 1], ops[n]);
    } else if |ops| == 1 {
      assert ops[..0] == [];
    }
  }

  /** What a finished table is settled with. */
  function SettledTotal(ops: seq<LiveOp>, f: LiveOp): nat {
    var seen := if ops != [] && ops[|ops| - 1].Sample? then ops[|ops| - 1].rowsTotal else 0;
    if f.Finish? then Max(seen, f.rowsCopied) else seen
  }

  function SettledPct(ops: seq<LiveOp>, f: LiveOp): Percent {
    if f.Finish? && f.success then 100.0 else if ops != [] && ops[|ops| - 1].Sample? then ops[|ops| - 1].pct else 0.0
  }

  predicate SettledAs(c: Cell, ops: seq<LiveOp>, f: LiveOp) {
    && f.Finish? && c.settled == Some(SettledTotal(ops, f))
    && c.row == Some(TableRow(if f.success then Done else Broken, f.rowsCopied, SettledTotal(ops, f), SettledPct(ops, f),
                              Some(f.durationMs), f.error, Some(f.at)))
  }

  lemma {:induction false} FinishSettles(ops: seq<LiveOp>, f: LiveOp)
    requires Rising(ops) && Ends(ops, f)
    ensures SettledAs(CellStep(CellRun(ops), Some(f)), ops, f)
  {
    RisingCell(ops);
  }

  lemma TrailWithin(ops: seq<LiveOp>, f: LiveOp, x: LiveOp)
    requires Rising(ops) && Trails(ops, f, x)
    ensures x.rowsTotal <= SettledTotal(ops, f) && x.pct <= SettledPct(ops, f)
  {
    assert forall k :: 0 <= k < |ops| - 1 ==> Rises(ops[k], ops[|ops| - 1]);
  }

  lemma TrailKeeps(c: Cell, ops: seq<LiveOp>, f: LiveOp, x: LiveOp)
    requires Rising(ops) && Trails(ops, f, x) && SettledAs(c, ops, f)
    ensures SettledAs(CellStep(c, Some(x)), ops, f) && TableFits(c.row, c.settled, x)
  {
    TrailWithin(ops, f, x);
  }

  lemma {:induction false} FinishedCell(ops: seq<LiveOp>, n: nat)
    requires FinishedAt(ops, n)
    ensures SettledAs(CellRun(ops), ops[..n], ops[n])
    decreases |ops|
  {
    var m := |ops| - 1;
    if m == n {
      FinishSettles(ops[..n], ops[n]);
    } else {
      FinishedFront(ops, n);
      FinishedCell(ops[..m], n);
      TrailKeeps(CellRun(ops[..m]), ops[..n], ops[n], ops[m]);
    }
  }

  lemma FinishedFront(ops: seq<LiveOp>, n: nat)
    requires FinishedAt(ops, n) && n < |ops| - 1
    ensures FinishedAt(ops[..|ops| - 1], n) && ops[..|ops| - 1][..n] == ops[..n] && ops[..|ops| - 1][n] == ops[n]
  {
    assert ops[..|ops| - 1][..n] == ops[..n];
  }

  /** A life is one from the start, and its last event fits. */
  lemma LifeFits(ops: seq<LiveOp>)
    requires ops != [] && TableLife(ops)
    ensures var before, c := ops[..|ops| - 1], CellRun(ops[..|ops| - 1]);
            TableLife(before) && TableFits(c.row, c.settled, ops[|ops| - 1])
  {
    var m := |ops| - 1;
    var before, op := ops[..m], ops[m];
    if Rising(ops) {
      assert Rising(before);
      RisingCell(before);
      assert m > 0 ==> Rises(ops[m - 1], op);
    } else {
      var n: nat :| FinishedAt(ops, n);
      if n == m {
        RisingCell(before);
      } else {
        FinishedFront(ops, n);
        FinishedCell(before, n);
        TrailKeeps(CellRun(before), ops[..n], ops[n], op);
      }
    }
  }

  // ---- one step, and the run ----

  function StepRun(ops: seq<StepOp>): Option<StepRow> {
    if ops == [] then None else LandStep(StepRun(ops[..|ops| - 1]), FoldStep(None, Some(ops[|ops| - 1])))
  }

  lemma {:induction false} StepCellIs(k: Track, log: seq<Event>, s: string)
    requires s !in k.rows.steps
    ensures At(TrackAll(k, log).rows.steps, s) == StepRun(StepOps(log, s))
  {
    if log != [] {
      var before, e := log[..|log| - 1], log[|log| - 1];
      StepCellIs(k, before, s);
      StoredCells(TrackAll(k, before), e);
      var ops, op := StepOps(before, s), StepOpOf(e, s);
      if op.Some? {
        assert (ops + [op.value])[..|ops|] == ops;
      }
    }
  }

  lemma StepLifeFits(ops: seq<StepOp>)
    requires ops != [] && StepLife(ops)
    ensures StepFits(StepRun(ops[..|ops| - 1]), ops[|ops| - 1]) && StepLife(ops[..|ops| - 1])
  {
    if |ops| == 2 {
      assert ops[..1][..0] == [];
      assert StepRun(ops[..1]) == LandStep(StepRun([]), FoldStep(None, Some(ops[0])));
    }
  }

  predicate NoEnd(log: seq<Event>) {
    forall i :: 0 <= i < |log| ==> !log[i].body.RunFinished?
  }

  lemma StatusStep(k: Track, e: Event)
    ensures TrackStep(k, e).rows.run.status == MergeStatus(k.rows.run.status, FoldRun(NO_RUN_PATCH, e).status)
  {
    AloneAt(e);
  }

  lemma NotOverNext(k: Track, e: Event)
    requires !e.body.RunFinished? && !Terminal(k.rows.run.status)
    ensures !Terminal(TrackStep(k, e).rows.run.status)
  {
    StatusStep(k, e);
  }

  lemma {:induction false} NotOverYet(k: Track, log: seq<Event>)
    requires NoEnd(log) && !Terminal(k.rows.run.status)
    ensures !Terminal(TrackAll(k, log).rows.run.status)
  {
    if log != [] {
      NotOverYet(k, log[..|log| - 1]);
      NotOverNext(TrackAll(k, log[..|log| - 1]), log[|log| - 1]);
    }
  }

  lemma {:induction false} RunFits(k: Track, before: seq<Event>, e: Event)
    requires StartsBeforeEnd(before + [e]) && k.cancelling == (k.rows.run.status == Cancelling)
    ensures e.body.RunStarted? && Terminal(TrackAll(k, before).rows.run.status) ==> !TrackAll(k, before).cancelling
  {
    StillCancelling(k, before);
    if e.body.RunStarted? && k.cancelling {
      assert (before + [e])[|before|] == e;
      assert forall i :: 0 <= i < |before| ==> (before + [e])[i] == before[i];
      NotOverYet(k, before);
    }
  }

  // ---- whole logs ----

  lemma {:induction false} OpsThen(log: seq<Event>, e: Event)
    ensures forall t :: TableOps(log + [e], t) == if TableOpOf(e, t).Some? then TableOps(log, t) + [TableOpOf(e, t).value] else TableOps(log, t)
    ensures forall s :: StepOps(log + [e], s) == if StepOpOf(e, s).Some? then StepOps(log, s) + [StepOpOf(e, s).value] else StepOps(log, s)
  {
    assert (log + [e])[..|log|] == log;
  }

  lemma {:induction false} TableThen(log: seq<Event>, e: Event, t: string)
    requires TableLife(TableOps(log + [e], t)) && PlannedFirst(TableOps(log + [e], t))
    ensures TableLife(TableOps(log, t)) && PlannedFirst(TableOps(log, t))
    ensures TableOpOf(e, t).Some? ==>
              var c, op := CellRun(TableOps(log, t)), TableOpOf(e, t).value;
              TableFits(c.row, c.settled, op) && (Seeds(op) ==> c == NEW_TABLE)
  {
    OpsThen(log, e);
    if TableOpOf(e, t).Some? {
      var ops := TableOps(log, t) + [TableOpOf(e, t).value];
      assert ops[..|ops| - 1] == TableOps(log, t);
      LifeFits(ops);
      assert forall i :: 0 <= i < |TableOps(log, t)| ==> TableOps(log, t)[i] == ops[i];
    }
  }

  lemma {:induction false} StepThen(log: seq<Event>, e: Event, s: string)
    requires StepLife(StepOps(log + [e], s))
    ensures StepLife(StepOps(log, s)) && (StepOpOf(e, s).Some? ==> StepFits(StepRun(StepOps(log, s)), StepOpOf(e, s).value))
  {
    OpsThen(log, e);
    if StepOpOf(e, s).Some? {
      var ops := StepOps(log, s) + [StepOpOf(e, s).value];
      assert ops[..|ops| - 1] == StepOps(log, s);
      StepLifeFits(ops);
    }
  }

  lemma OrderlyFront(log: seq<Event>, e: Event)
    requires Orderly(log + [e])
    ensures Orderly(log)
  {
    forall t
      ensures TableLife(TableOps(log, t)) && PlannedFirst(TableOps(log, t))
    {
      TableThen(log, e, t);
    }
    forall s
      ensures StepLife(StepOps(log, s))
    {
      StepThen(log, e, s);
    }
    assert forall i :: 0 <= i < |log| ==> (log + [e])[i] == log[i];
  }

  lemma {:induction false} TableCellIs(rows: Rows, log: seq<Event>, t: string)
    requires Fresh(rows)
    ensures CellOf(TrackAll(TrackFrom(rows), log), t) == CellRun(TableOps(log, t))
  {
    CellAllOf(TrackFrom(rows), log, t);
    CellAllIsRun(log, t);
  }

  lemma {:induction false} EventFits(rows: Rows, log: seq<Event>, e: Event)
    requires Fresh(rows) && Orderly(log + [e])
    ensures var k := TrackAll(TrackFrom(rows), log); Fits(k, e) && PlanFirst(k.rows, e)
  {
    var k := TrackAll(TrackFrom(rows), log);
    forall t | t in TablesOf(e)
      ensures TableFits(At(k.rows.tables, t), At(k.settled, t), TableOpOf(e, t).value)
      ensures e.body.PlanReady? ==> t !in k.rows.tables
    {
      TableThen(log, e, t);
      TableCellIs(rows, log, t);
      assert CellOf(k, t) == Cell(At(k.rows.tables, t), At(k.settled, t));
    }
    forall s | s in StepsOf(e)
      ensures StepFits(At(k.rows.steps, s), StepOpOf(e, s).value)
    {
      StepThen(log, e, s);
      StepCellIs(TrackFrom(rows), log, s);
    }
    RunFits(TrackFrom(rows), log, e);
  }

  /**
   Of a fresh run, an orderly log fits, and its plan comes first: the theorems about cuts, replays and open
   pages are about every such log.
   */
  lemma {:induction false} OrderlyLogsFit(rows: Rows, log: seq<Event>)
    requires Fresh(rows) && Orderly(log)
    ensures FitsLog(TrackFrom(rows), log) && PlansFirst(TrackFrom(rows), log)
  {
    if log != [] {
      var before, e := log[..|log| - 1], log[|log| - 1];
      assert log == before + [e];
      OrderlyFront(before, e);
      OrderlyLogsFit(rows, before);
      EventFits(rows, before, e);
    }
  }

  // ---- the rows of an orderly run ----

  /** A table's row: none, its last sample, or what it finished with. */
  ghost predicate TableRowOf(ops: seq<LiveOp>, row: Option<TableRow>) {
    && (ops == [] ==> row == None)
    && (ops != [] && Rising(ops) ==>
          var last := ops[|ops| - 1];
          row == Some(TableRow(last.status, last.rowsDone, last.rowsTotal, last.pct, None, None, None)))
    && forall n: nat :: FinishedAt(ops, n) ==>
         && row.Some? && ops[n].Finish? && row.value.status == (if ops[n].success then Done else Broken)
         && row.value.rowsDone == ops[n].rowsCopied && row.value.durationMs == Some(ops[n].durationMs)
         && row.value.error == ops[n].error && row.value.finishedAt == Some(ops[n].at)
         && ops[n].rowsCopied <= row.value.rowsTotal && (n > 0 && ops[n - 1].Sample? ==> ops[n - 1].rowsTotal <= row.value.rowsTotal)
         && (ops[n].success ==> row.value.pct == 100.0)
  }

  lemma {:induction false} LifeRow(ops: seq<LiveOp>)
    requires TableLife(ops)
    ensures TableRowOf(ops, CellRun(ops).row)
  {
    if Rising(ops) {
      RisingCell(ops);
    }
    forall n: nat | FinishedAt(ops, n)
      ensures SettledAs(CellRun(ops), ops[..n], ops[n])
    {
      FinishedCell(ops, n);
    }
  }

  /** A step's row: none, running since its start, or as it finished. */
  predicate StepRowOf(ops: seq<StepOp>, row: Option<StepRow>) {
    && (|ops| == 0 ==> row == None)
    && (|ops| == 1 && ops[0].Begin? ==> row == Some(StepRow(ops[0].ordinal, "running", None, None, None, Some(ops[0].at), None)))
    && (|ops| == 2 && ops[0].Begin? && ops[1].End? ==>
          var e := ops[1];
          row == Some(StepRow(e.ordinal, e.status, e.detail, e.failure, Some(e.durationMs), Some(ops[0].at), Some(e.at))))
  }

  lemma {:induction false} StepLifeRow(ops: seq<StepOp>)
    requires StepLife(ops)
    ensures StepRowOf(ops, StepRun(ops))
  {
    if |ops| == 1 {
      assert ops[..0] == [];
    } else if |ops| == 2 {
      assert ops[..1][..0] == [];
      assert StepRun(ops[..1]) == LandStep(StepRun([]), FoldStep(None, Some(ops[0])));
    }
  }

  /** However an orderly log is cut, each table and each step of it is stored as the log last left it. */
  lemma {:induction false} OrderlyRowsAre(rows: Rows, batches: seq<seq<Event>>, t: string, s: string)
    requires Fresh(rows) && Orderly(Flatten(batches))
    ensures var now := ApplyBatches(rows, batches);
            TableRowOf(TableOps(Flatten(batches), t), At(now.tables, t)) && StepRowOf(StepOps(Flatten(batches), s), At(now.steps, s))
  {
    var log := Flatten(batches);
    OrderlyLogsFit(rows, log);
    TrackFromTracked(rows);
    AnyCut(TrackFrom(rows), batches);
    TableCellIs(rows, log, t);
    StepCellIs(TrackFrom(rows), log, s);
    LifeRow(TableOps(log, t));
    StepLifeRow(StepOps(log, s));
    assert CellOf(TrackAll(TrackFrom(rows), log), t).row == At(TrackAll(TrackFrom(rows), log).rows.tables, t);
  }

  // ---- the rows, from the events themselves ----

  predicate FinishesTable(e: Event, t: string) {
    e.body.TableFinished? && e.body.table == t
  }

  predicate SamplesTable(e: Event, t: string) {
    e.body.TableProgress? && e.body.table == t
  }

  predicate PlansTable(e: Event, t: string) {
    e.body.PlanReady? && t in e.body.loadOrder
  }

  predicate SpeaksOf(e: Event, t: string) {
    FinishesTable(e, t) || SamplesTable(e, t) || PlansTable(e, t)
  }

  predicate StartsStep(e: Event, s: string) {
    e.body.StepStarted? && e.body.stepId == s
  }

  predicate EndsStep(e: Event, s: string) {
    e.body.StepFinished? && e.body.stepId == s
  }

  function Finishing(t: string): Event -> bool {
    e => FinishesTable(e, t)
  }

  function Speaking(t: string): Event -> bool {
    e => SpeaksOf(e, t)
  }

  function Starting(s: string): Event -> bool {
    e => StartsStep(e, s)
  }

  function Ending(s: string): Event -> bool {
    e => EndsStep(e, s)
  }

  lemma {:induction false} LastOpIs(log: seq<Event>, t: string)
    ensures var last, ops := LastOf(log, Speaking(t)), TableOps(log, t);
            if last.None? then ops == [] else TableOpOf(last.value, t).Some? && ops != [] && ops[|ops| - 1] == TableOpOf(last.value, t).value
  {
    if log != [] {
      LastOpIs(log[..|log| - 1], t);
    }
  }

  lemma {:induction false} FinishOpIs(log: seq<Event>, t: string) returns (n: nat)
    ensures var last, ops := LastOf(log, Finishing(t)), TableOps(log, t);
            if last.None? then forall i :: 0 <= i < |ops| ==> ops[i].Sample?
            else n < |ops| && TableOpOf(last.value, t) == Some(ops[n])
  {
    n := 0;
    if log != [] {
      n := FinishOpIs(log[..|log| - 1], t);
      if FinishesTable(log[|log| - 1], t) {
        n := |TableOps(log[..|log| - 1], t)|;
      }
    }
  }

  lemma OthersAreSamples(ops: seq<LiveOp>, m: nat, i: nat)
    requires FinishedAt(ops, m) && i < |ops|
    ensures i == m || ops[i].Sample?
  {
    assert i < m ==> ops[..m][i] == ops[i];
    assert i > m ==> Trails(ops[..m], ops[m], ops[i]);
  }

  /** A life has one finish. */
  lemma OneFinish(ops: seq<LiveOp>, n: nat)
    requires TableLife(ops) && n < |ops| && ops[n].Finish?
    ensures FinishedAt(ops, n)
  {
    var m: nat :| FinishedAt(ops, m);
    OthersAreSamples(ops, m, n);
  }

  /** What is stored of a table: what its finish reported, or else its last sample, or else its plan. */
  ghost predicate TableFromLog(log: seq<Event>, t: string, row: Option<TableRow>) {
    match LastOf(log, Finishing(t))
    case Some(e) =>
      && row.Some? && row.value.status == (if e.body.success then Done else Broken) && row.value.rowsDone == e.body.rowsCopied
      && row.value.durationMs == Some(e.body.durationMs) && row.value.error == e.body.error && row.value.finishedAt == Some(e.at)
      && e.body.rowsCopied <= row.value.rowsTotal && (e.body.success ==> row.value.pct == 100.0)
    case None =>
      match LastOf(log, Speaking(t))
      case None => row == None
      case Some(e) =>
        if SamplesTable(e, t) then row == Some(TableRow(Copying, e.body.rowsDone, e.body.rowsTotal, e.body.pct, None, None, None))
        else e.body.PlanReady? && row == Some(TableRow(
               Pending, 0, if t in e.body.estimates then e.body.estimates[t] else 0, 0.0, None, None, None))
  }

  lemma {:induction false} TableRowFromLog(log: seq<Event>, t: string, row: Option<TableRow>)
    requires TableLife(TableOps(log, t)) && TableRowOf(TableOps(log, t), row)
    ensures TableFromLog(log, t, row)
  {
    LastOpIs(log, t);
    var n := FinishOpIs(log, t);
    if LastOf(log, Finishing(t)).Some? {
      OneFinish(TableOps(log, t), n);
    }
  }

  /** What is stored of a step: what its finish reported, or that it is running since its start. */
  ghost predicate StepFromLog(log: seq<Event>, s: string, row: Option<StepRow>) {
    var start := LastOf(log, Starting(s));
    match LastOf(log, Ending(s))
    case Some(e) =>
      && row.Some? && row.value.ordinal == StepOrdinal(s) && row.value.status == e.body.stepStatus && row.value.detail == e.body.detail
      && row.value.failure == e.body.failure && row.value.durationMs == Some(e.body.durationMs) && row.value.finishedAt == Some(e.at)
      && start.Some? && row.value.startedAt == Some(start.value.at)
    case None =>
      if start.None? then row == None
      else row == Some(StepRow(start.value.body.ordinal, "running", None, None, None, Some(start.value.at), None))
  }

  lemma {:induction false} StepOpsAre(log: seq<Event>, s: string)
    requires StepLife(StepOps(log, s))
    ensures var ops, start, end := StepOps(log, s), LastOf(log, Starting(s)), LastOf(log, Ending(s));
            && (|ops| == 0 <==> start.None?) && (|ops| == 2 <==> end.Some?)
            && (|ops| >= 1 ==> Some(ops[0]) == StepOpOf(start.value, s)) && (|ops| == 2 ==> Some(ops[1]) == StepOpOf(end.value, s))
  {
    if log != [] {
      StepThen(log[..|log| - 1], log[|log| - 1], s);
      assert log == log[..|log| - 1] + [log[|log| - 1]];
      StepOpsAre(log[..|log| - 1], s);
      OpsThen(log[..|log| - 1], log[|log| - 1]);
    }
  }

  lemma {:induction false} StepRowFromLog(log: seq<Event>, s: string, row: Option<StepRow>)
    requires StepLife(StepOps(log, s)) && StepRowOf(StepOps(log, s), row)
    ensures StepFromLog(log, s, row)
  {
    StepOpsAre(log, s);
  }

  /** However an orderly log is cut, its events say what is stored of each table and each step. */
  lemma {:induction false} RowsFromLog(rows: Rows, batches: seq<seq<Event>>, t: string, s: string)
    requires Fresh(rows) && Orderly(Flatten(batches))
    ensures var now := ApplyBatches(rows, batches);
            TableFromLog(Flatten(batches), t, At(now.tables, t)) && StepFromLog(Flatten(batches), s, At(now.steps, s))
  {
    OrderlyRowsAre(rows, batches, t, s);
    TableRowFromLog(Flatten(batches), t, At(ApplyBatches(rows, batches).tables, t));
    StepRowFromLog(Flatten(batches), s, At(ApplyBatches(rows, batches).steps, s));
  }

  /** So however the log of an orderly run is cut, its rows are the same. */
  lemma OrderlyCutsAgree(rows: Rows, log: seq<Event>)
    requires Fresh(rows) && Orderly(log)
    ensures CutIndependent(rows, log)
  {
    OrderlyLogsFit(rows, log);
    CutsDoNotMatterExactly(rows, log);
  }
}
