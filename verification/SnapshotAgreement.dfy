/**
 Browser and database agree: a viewer who opens the page at any moment and is then sent events from
 any earlier point on ends with the step and table rows the database ends with.
 */
module SnapshotAgreement {
  import opened Wrappers
  import opened RunEvents
  import opened RunProjection
  import opened Ingestion
  import opened BatchCuts
  import opened Replay
  import opened RunReducer

  // ---- what a snapshot shows of stored rows ----

  function ToTableView(row: TableRow): TableView {
    TableView(row.status, row.rowsDone, row.rowsTotal, row.pct, row.durationMs, row.error)
  }

  function ToStepView(row: Option<StepRow>): StepView {
    match row
    case None => StepView("pending", None, None, None)
    case Some(r) => StepView(NormaliseStepStatus(r.status), r.durationMs, r.failure, r.detail)
  }

  /** Always the nine steps of the timeline, whatever is stored. */
  function BuildSteps(steps: map<string, StepRow>): map<string, StepView> {
    map s | s in STEP_ORDER :: ToStepView(At(steps, s))
  }

  function BuildTables(tables: map<string, TableRow>): map<string, TableView> {
    map t <- tables :: ToTableView(tables[t])
  }

  /** `applySnapshot`, before the events that came with it; steps and tables are read by two statements. */
  function SnapshotBase(stepsThen: Rows, tablesThen: Rows, run: WireRun, redacted: bool): RunState {
    RunState(Some(run), BuildSteps(stepsThen.steps), BuildTables(tablesThen.tables), [], 0, redacted)
  }

  function ApplySnapshot(stepsThen: Rows, tablesThen: Rows, run: WireRun, redacted: bool, events: seq<Event>): RunState {
    ApplyEvents(SnapshotBase(stepsThen, tablesThen, run, redacted), events)
  }

  predicate Shows(s: RunState, rows: Rows) {
    s.steps == BuildSteps(rows.steps) && s.tables == BuildTables(rows.tables)
  }

  /** The plan comes before anything is said of its tables. */
  predicate PlanFirst(rows: Rows, e: Event) {
    e.body.PlanReady? ==> forall t <- e.body.loadOrder :: t !in rows.tables
  }

  ghost predicate PlansFirst(k: Track, log: seq<Event>) {
    log != [] ==>
      var before := log[..|log| - 1];
      PlansFirst(k, before) && PlanFirst(TrackAll(k, before).rows, log[|log| - 1])
  }

  // ---- one event, one cell ----

  function OptView(row: Option<TableRow>): Option<TableView> {
    if row.Some? then Some(ToTableView(row.value)) else None
  }

  predicate Seeds(op: LiveOp) {
    op.Sample? && op.status.Pending?
  }

  lemma TableShown(row: Option<TableRow>, settled: Option<nat>, op: LiveOp)
    requires TableFits(row, settled, op) && (Seeds(op) ==> row.None? && op.rowsDone == 0 && op.pct == 0.0)
    ensures ToTableView(MergeTable(row, UpsertTable(None, op))) == ViewTable(OptView(row), op)
  {
  }

  /** Behind the snapshot: each field shows the moment being replayed, or the snapshot. */
  predicate TableViewBetween(x: TableView, was: Option<TableRow>, now: TableRow) {
    && (Over(now.status) ==> Over(x.status))
    && Between(x.status, if was.Some? then Some(was.value.status) else None, now.status)
    && Between(x.rowsDone, if was.Some? then Some(was.value.rowsDone) else None, now.rowsDone)
    && Between(x.rowsTotal, if was.Some? then Some(was.value.rowsTotal) else None, now.rowsTotal)
    && Between(x.pct, if was.Some? then Some(was.value.pct) else None, now.pct)
    && Between(x.durationMs, if was.Some? then Some(was.value.durationMs) else None, now.durationMs)
    && Between(x.error, if was.Some? then Some(was.value.error) else None, now.error)
  }

  predicate StepViewBetween(x: StepView, was: StepView, now: StepView) {
    && Between(x.status, Some(was.status), now.status)
    && Between(x.durationMs, Some(was.durationMs), now.durationMs)
    && Between(x.failure, Some(was.failure), now.failure)
    && Between(x.detail, Some(was.detail), now.detail)
  }

  lemma TableOverlaps(x: TableView, was: Option<TableRow>, now: TableRow, settled: Option<nat>, op: LiveOp)
    requires TableFits(was, settled, op) && (Seeds(op) ==> was.None?) && TableViewBetween(x, was, now)
    requires TableGrows(was, Some(now)) && TableGrows(Some(MergeTable(was, UpsertTable(None, op))), Some(now))
    ensures TableViewBetween(ViewTable(Some(x), op), Some(MergeTable(was, UpsertTable(None, op))), now)
  {
  }

  // ---- one event, the whole state ----

  lemma StoredCells(k: Track, e: Event)
    ensures forall t :: At(TrackStep(k, e).rows.tables, t) == LandTable(At(k.rows.tables, t), FoldTable(None, TableOpOf(e, t)))
    ensures forall s :: At(TrackStep(k, e).rows.steps, s) == LandStep(At(k.rows.steps, s), FoldStep(None, StepOpOf(e, s)))
  {
    AloneAt(e);
    MergeAt(k.rows, FoldAll(NOTHING, [e]));
  }

  lemma OpFits(k: Track, e: Event, t: string)
    requires Fits(k, e) && PlanFirst(k.rows, e) && TableOpOf(e, t).Some?
    ensures TableFits(At(k.rows.tables, t), At(k.settled, t), TableOpOf(e, t).value)
    ensures Seeds(TableOpOf(e, t).value) ==> t !in k.rows.tables && TableOpOf(e, t).value.rowsDone == 0 && TableOpOf(e, t).value.pct == 0.0
  {
  }

  lemma ViewsAt(rows: Rows)
    ensures forall t :: At(BuildTables(rows.tables), t) == OptView(At(rows.tables, t))
    ensures forall s :: At(BuildSteps(rows.steps), s) == if s in STEP_ORDER then Some(ToStepView(At(rows.steps, s))) else None
  {
  }

  lemma TableEventShown(s: RunState, k: Track, e: Event, t: string)
    requires Shows(s, k.rows) && Fits(k, e) && PlanFirst(k.rows, e)
    ensures At(Reduce(s, e).tables, t) == At(BuildTables(TrackStep(k, e).rows.tables), t)
  {
    ReduceAt(s, e);
    StoredCells(k, e);
    ViewsAt(k.rows);
    ViewsAt(TrackStep(k, e).rows);
    if TableOpOf(e, t).Some? {
      OpFits(k, e, t);
      TableShown(At(k.rows.tables, t), At(k.settled, t), TableOpOf(e, t).value);
    }
  }

  lemma ShownCellAt(s: RunState, e: Event, n: string)
    ensures At(Reduce(s, e).steps, n) == ReducedStep(At(s.steps, n), StepOpOf(e, n))
  {
    ReduceAt(s, e);
  }

  lemma StepOpFits(k: Track, e: Event, n: string)
    requires Fits(k, e) && StepOpOf(e, n).Some?
    ensures StepFits(At(k.rows.steps, n), StepOpOf(e, n).value)
  {
  }

  /** The cells of step `n`, shown and stored, before and after one event. */
  lemma StepCellsAt(s: RunState, k: Track, e: Event, n: string)
    ensures At(Reduce(s, e).steps, n) == ReducedStep(At(s.steps, n), StepOpOf(e, n))
    ensures At(TrackStep(k, e).rows.steps, n) == LandStep(At(k.rows.steps, n), FoldStep(None, StepOpOf(e, n)))
    ensures Fits(k, e) && StepOpOf(e, n).Some? ==> StepFits(At(k.rows.steps, n), StepOpOf(e, n).value)
  {
    ShownCellAt(s, e, n);
    StoredCells(k, e);
    if Fits(k, e) && StepOpOf(e, n).Some? {
      StepOpFits(k, e, n);
    }
  }

  lemma StepEventShown(s: RunState, k: Track, e: Event, n: string)
    requires Shows(s, k.rows) && Fits(k, e)
    ensures At(Reduce(s, e).steps, n) == At(BuildSteps(TrackStep(k, e).rows.steps), n)
  {
    StepCellsAt(s, k, e, n);
    StepViewAt(k.rows, n);
    StepViewAt(TrackStep(k, e).rows, n);
    StepCellShown(At(k.rows.steps, n), StepOpOf(e, n));
  }

  lemma StepViewAt(rows: Rows, n: string)
    ensures At(BuildSteps(rows.steps), n) == if n in STEP_ORDER then Some(ToStepView(At(rows.steps, n))) else None
  {
    ViewsAt(rows);
  }

  lemma StepCellShown(row: Option<StepRow>, op: Option<StepOp>)
    requires op.Some? ==> StepFits(row, op.value)
    ensures ReducedStep(Some(ToStepView(row)), op) == Some(ToStepView(LandStep(row, FoldStep(None, op))))
  {
  }

  /** Ahead of the snapshot: one more event, shown and stored alike. */
  lemma EventShown(s: RunState, k: Track, e: Event)
    requires Shows(s, k.rows) && Fits(k, e) && PlanFirst(k.rows, e)
    ensures Shows(Reduce(s, e), TrackStep(k, e).rows)
  {
    var s', rows := Reduce(s, e), TrackStep(k, e).rows;
    forall t
      ensures At(s'.tables, t) == At(BuildTables(rows.tables), t)
    {
      TableEventShown(s, k, e, t);
    }
    forall n
      ensures At(s'.steps, n) == At(BuildSteps(rows.steps), n)
    {
      StepEventShown(s, k, e, n);
    }
    SameAt(s'.tables, BuildTables(rows.tables));
    SameAt(s'.steps, BuildSteps(rows.steps));
  }

  ghost predicate ShowsBetween(s: RunState, was: Rows, now: Rows) {
    && s.tables.Keys == now.tables.Keys
    && (forall t <- now.tables :: TableViewBetween(s.tables[t], At(was.tables, t), now.tables[t]))
    && (forall n :: n in s.steps <==> n in STEP_ORDER)
    && (forall n <- s.steps :: StepViewBetween(s.steps[n], ToStepView(At(was.steps, n)), ToStepView(At(now.steps, n))))
  }

  /** Behind the snapshot: one more event the snapshot already shows. */
  lemma EventOverlaps(s: RunState, k: Track, e: Event, now: Rows)
    requires ShowsBetween(s, k.rows, now) && Fits(k, e) && PlanFirst(k.rows, e)
    requires Grows(TrackStep(k, e).rows, now)
    ensures ShowsBetween(Reduce(s, e), TrackStep(k, e).rows, now)
  {
    var s', rows := Reduce(s, e), TrackStep(k, e).rows;
    ReducedTables(s, e);
    forall t | t in TablesOf(e)
      ensures t in now.tables
    {
      StoredCells(k, e);
      assert TableGrows(At(rows.tables, t), At(now.tables, t));
    }
    assert s'.tables.Keys == now.tables.Keys;
    forall t | t in now.tables
      ensures TableViewBetween(s'.tables[t], At(rows.tables, t), now.tables[t])
    {
      TableEventOverlaps(s, k, e, now, t);
    }
    forall n | n in s.steps
      ensures n in s'.steps && StepViewBetween(s'.steps[n], ToStepView(At(rows.steps, n)), ToStepView(At(now.steps, n)))
    {
      StepEventOverlaps(s, k, e, now, n);
    }
  }

  lemma StepEventOverlaps(s: RunState, k: Track, e: Event, now: Rows, n: string)
    requires ShowsBetween(s, k.rows, now) && Fits(k, e) && n in s.steps
    ensures n in Reduce(s, e).steps
    ensures StepViewBetween(Reduce(s, e).steps[n], ToStepView(At(TrackStep(k, e).rows.steps, n)), ToStepView(At(now.steps, n)))
  {
    StepCellsAt(s, k, e, n);
    var x, was, op := s.steps[n], At(k.rows.steps, n), StepOpOf(e, n);
    assert StepViewBetween(x, ToStepView(was), ToStepView(At(now.steps, n)));
    StepCellOverlaps(x, was, ToStepView(At(now.steps, n)), op);
    assert At(Reduce(s, e).steps, n) == ReducedStep(Some(x), op);
  }

  lemma StepCellOverlaps(x: StepView, was: Option<StepRow>, now: StepView, op: Option<StepOp>)
    requires (op.Some? ==> StepFits(was, op.value)) && StepViewBetween(x, ToStepView(was), now)
    ensures StepViewBetween(ReducedStep(Some(x), op).value, ToStepView(LandStep(was, FoldStep(None, op))), now)
  {
  }

  lemma ReducedTables(s: RunState, e: Event)
    ensures Reduce(s, e).tables.Keys == s.tables.Keys + TablesOf(e)
    ensures Reduce(s, e).steps.Keys == s.steps.Keys
  {
  }

  lemma TableEventOverlaps(s: RunState, k: Track, e: Event, now: Rows, t: string)
    requires ShowsBetween(s, k.rows, now) && Fits(k, e) && PlanFirst(k.rows, e) && t in now.tables
    requires Grows(TrackStep(k, e).rows, now)
    ensures t in Reduce(s, e).tables
    ensures TableViewBetween(Reduce(s, e).tables[t], At(TrackStep(k, e).rows.tables, t), now.tables[t])
  {
    StoredCells(k, e);
    StoringNeverTakesBack(k.rows, [e]);
    var rows := TrackStep(k, e).rows;
    assert TableGrows(At(k.rows.tables, t), At(rows.tables, t)) && TableGrows(At(rows.tables, t), At(now.tables, t));
    if TableOpOf(e, t).Some? {
      OpFits(k, e, t);
      TableOverlaps(s.tables[t], At(k.rows.tables, t), now.tables[t], At(k.settled, t), TableOpOf(e, t).value);
    }
  }

  // ---- whole deliveries ----

  lemma {:induction false} AheadShown(s: RunState, k: Track, log: seq<Event>)
    requires Shows(s, k.rows) && FitsLog(k, log) && PlansFirst(k, log)
    ensures Shows(ReduceAll(s, log), TrackAll(k, log).rows)
  {
    if log != [] {
      var before := log[..|log| - 1];
      AheadShown(s, k, before);
      EventShown(ReduceAll(s, before), TrackAll(k, before), log[|log| - 1]);
    }
  }

  lemma {:induction false} BehindShown(s: RunState, k: Track, log: seq<Event>, now: Rows)
    requires ShowsBetween(s, k.rows, now) && FitsLog(k, log) && PlansFirst(k, log) && Grows(TrackAll(k, log).rows, now)
    ensures ShowsBetween(ReduceAll(s, log), TrackAll(k, log).rows, now)
  {
    if log != [] {
      var before, e := log[..|log| - 1], log[|log| - 1];
      StoringNeverTakesBack(TrackAll(k, before).rows, [e]);
      GrowsTransitive(TrackAll(k, before).rows, TrackAll(k, log).rows, now);
      BehindShown(s, k, before, now);
      EventOverlaps(ReduceAll(s, before), TrackAll(k, before), e, now);
    }
  }

  lemma BetweenMeets(s: RunState, rows: Rows)
    requires ShowsBetween(s, rows, rows)
    ensures Shows(s, rows)
  {
    ViewsAt(rows);
    assert s.tables == BuildTables(rows.tables);
    assert s.steps == BuildSteps(rows.steps);
  }

  lemma BetweenBegins(s: RunState, was: Rows, now: Rows)
    requires Shows(s, now)
    ensures ShowsBetween(s, was, now)
  {
  }

  lemma {:induction false} PlansSplit(k: Track, a: seq<Event>, b: seq<Event>)
    ensures PlansFirst(k, a + b) <==> PlansFirst(k, a) && PlansFirst(TrackAll(k, a), b)
  {
    if b == [] {
      assert a + b == a;
    } else {
      var n := |b| - 1;
      assert (a + b)[..|a + b| - 1] == a + b[..n];
      PlansSplit(k, a, b[..n]);
      TrackAllAppend(k, a, b[..n]);
    }
  }

  lemma GrowsReflexive(rows: Rows)
    ensures Grows(rows, rows)
  {
  }

  /**
   The snapshot is read after `a + b` was stored; the events that reach the viewer begin already at
   `b`, and go on with `c`. What the viewer ends with is what the database ends with.
   */
  lemma {:induction false} SnapshotThenOverlap(k: Track, a: seq<Event>, b: seq<Event>, c: seq<Event>, s: RunState)
    requires FitsLog(k, a + (b + c)) && PlansFirst(k, a + (b + c)) && Shows(s, TrackAll(k, a + b).rows)
    ensures Shows(ReduceAll(s, b + c), TrackAll(k, a + (b + c)).rows)
  {
    var ka := TrackAll(k, a);
    FitsSplit(k, a, b + c);
    PlansSplit(k, a, b + c);
    FitsSplit(ka, b, c);
    PlansSplit(ka, b, c);
    TrackAllAppend(k, a, b);
    TrackAllAppend(k, a, b + c);
    TrackAllAppend(ka, b, c);
    var now := TrackAll(ka, b).rows;
    BetweenBegins(s, ka.rows, now);
    GrowsReflexive(now);
    BehindShown(s, ka, b, now);
    BetweenMeets(ReduceAll(s, b), now);
    AheadShown(ReduceAll(s, b), TrackAll(ka, b), c);
    ReduceAllAppend(s, b, c);
  }

  lemma {:induction false} LogsAreNoRows(base: RunState, events: seq<Event>, rows: Rows)
    requires Accepted(base.lastSeq, events) == events && Shows(ReduceAll(base, events), rows)
    ensures Shows(ApplyEvents(base, events), rows)
  {
  }

  /** One batch, tracked: its rows are those of the events one by one. */
  lemma {:induction false} BatchTracked(rows: Rows, log: seq<Event>)
    requires FitsLog(TrackFrom(rows), log)
    ensures Apply(rows, log) == TrackAll(TrackFrom(rows), log).rows
  {
    TrackFromTracked(rows);
    BatchIsOneByOne(TrackFrom(rows), log);
  }

  // ---- rows read at different moments, log lines withheld ----

  lemma ReduceParts(s: RunState, r: RunState, e: Event)
    ensures s.steps == r.steps ==> Reduce(s, e).steps == Reduce(r, e).steps
    ensures s.tables == r.tables ==> Reduce(s, e).tables == Reduce(r, e).tables
  {
  }

  /** Steps and tables are folded apart. */
  lemma {:induction false} FoldParts(s: RunState, r: RunState, events: seq<Event>)
    ensures s.steps == r.steps ==> ReduceAll(s, events).steps == ReduceAll(r, events).steps
    ensures s.tables == r.tables ==> ReduceAll(s, events).tables == ReduceAll(r, events).tables
  {
    if events != [] {
      var n := |events| - 1;
      FoldParts(s, r, events[..n]);
      ReduceParts(ReduceAll(s, events[..n]), ReduceAll(r, events[..n]), events[n]);
    }
  }

  lemma LogShowsNothing(s: RunState, e: Event)
    requires e.body.Log?
    ensures Reduce(s, e).steps == s.steps && Reduce(s, e).tables == s.tables
  {
  }

  lemma {:induction false} NoLogsThen(events: seq<Event>, e: Event)
    ensures NoLogs(events + [e]) == if e.body.Log? then NoLogs(events) else NoLogs(events) + [e]
    decreases |events|
  {
    if events == [] {
      assert [e][1..] == [];
    } else {
      assert (events + [e])[1..] == events[1..] + [e];
      NoLogsThen(events[1..], e);
    }
  }

  lemma {:induction false} ReduceThen(s: RunState, events: seq<Event>, e: Event)
    ensures ReduceAll(s, events + [e]) == Reduce(ReduceAll(s, events), e)
  {
    assert (events + [e])[..|events|] == events;
  }

  lemma {:induction false} NoLogsFold(s: RunState, events: seq<Event>, e: Event)
    ensures ReduceAll(s, NoLogs(events + [e])) ==
              var before := ReduceAll(s, NoLogs(events)); if e.body.Log? then before else Reduce(before, e)
  {
    NoLogsThen(events, e);
    if !e.body.Log? {
      ReduceThen(s, NoLogs(events), e);
    }
  }

  lemma {:induction false} LogsShowNothing(s: RunState, events: seq<Event>)
    ensures ReduceAll(s, NoLogs(events)).steps == ReduceAll(s, events).steps
    ensures ReduceAll(s, NoLogs(events)).tables == ReduceAll(s, events).tables
  {
    if events != [] {
      var before, e := events[..|events| - 1], events[|events| - 1];
      LogsShowNothing(s, before);
      assert events == before + [e];
      NoLogsFold(s, before, e);
      var x, y := ReduceAll(s, NoLogs(before)), ReduceAll(s, before);
      if e.body.Log? {
        LogShowsNothing(y, e);
      } else {
        ReduceParts(x, y, e);
      }
    }
  }

  lemma FromThere(log: seq<Event>, from: nat, n: nat)
    requires from <= n <= |log|
    ensures log[..from] + (log[from..n] + log[n..]) == log && log[from..n] + log[n..] == log[from..] && log[..from] + log[from..n] == log[..n]
  {
  }

  /** The rows of one moment, and the events from an earlier one on. */
  lemma {:induction false} OneMoment(rows: Rows, log: seq<Event>, from: nat, n: nat, s: RunState)
    requires FitsLog(TrackFrom(rows), log) && PlansFirst(TrackFrom(rows), log) && from <= n <= |log|
    requires Shows(s, Apply(rows, log[..n]))
    ensures Shows(ReduceAll(s, log[from..]), Apply(rows, log))
  {
    var k := TrackFrom(rows);
    FromThere(log, from, n);
    FrontFits(k, log[..from], log[from..n], log[n..]);
    BatchTracked(rows, log[..n]);
    BatchTracked(rows, log);
    SnapshotThenOverlap(k, log[..from], log[from..n], log[n..], s);
  }

  lemma {:induction false} TwoMoments(rows: Rows, log: seq<Event>, from: nat, p: nat, q: nat, run: WireRun, redacted: bool)
    requires FitsLog(TrackFrom(rows), log) && PlansFirst(TrackFrom(rows), log) && from <= p <= |log| && from <= q <= |log|
    ensures var base := SnapshotBase(Apply(rows, log[..p]), Apply(rows, log[..q]), run, redacted);
            Shows(ReduceAll(base, Visible(redacted, log[from..])), Apply(rows, log))
  {
    var atP, atQ := Apply(rows, log[..p]), Apply(rows, log[..q]);
    var base := SnapshotBase(atP, atQ, run, redacted);
    OneMoment(rows, log, from, p, SnapshotBase(atP, atP, run, redacted));
    OneMoment(rows, log, from, q, SnapshotBase(atQ, atQ, run, redacted));
    FoldParts(base, SnapshotBase(atP, atP, run, redacted), log[from..]);
    FoldParts(base, SnapshotBase(atQ, atQ, run, redacted), log[from..]);
    LogsShowNothing(base, log[from..]);
  }

  lemma {:induction false} FrontFits(k: Track, a: seq<Event>, b: seq<Event>, c: seq<Event>)
    requires FitsLog(k, a + (b + c))
    ensures FitsLog(k, a + b)
  {
    Associates(a, b, c);
    FitsSplit(k, a + b, c);
  }

  lemma Associates(a: seq<Event>, b: seq<Event>, c: seq<Event>)
    ensures a + (b + c) == (a + b) + c
  {
  }

  lemma {:induction false} NoLogsAscend(events: seq<Event>, s: nat)
    requires Ascending(events) && forall i :: 0 <= i < |events| ==> s < events[i].seqNo
    ensures Ascending(NoLogs(events)) && forall i :: 0 <= i < |NoLogs(events)| ==> s < NoLogs(events)[i].seqNo
    decreases |events|
  {
    if events != [] {
      NoLogsAscend(events[1..], events[0].seqNo);
    }
  }

  /**
   As the page does it: `applySnapshot` over step rows stored by `p` and table rows stored by `q`, with what
   its cohort sees of the events from any earlier moment on. It ends with the rows the database ends with.
   */
  lemma {:induction false} ViewerEndsWithDatabase(rows: Rows, log: seq<Event>, from: nat, p: nat, q: nat, run: WireRun, redacted: bool)
    requires FitsLog(TrackFrom(rows), log) && PlansFirst(TrackFrom(rows), log) && from <= p <= |log| && from <= q <= |log|
    requires Ascending(log[from..]) && forall i :: 0 <= i < |log[from..]| ==> 0 < log[from..][i].seqNo
    ensures Shows(ApplySnapshot(Apply(rows, log[..p]), Apply(rows, log[..q]), run, redacted, Visible(redacted, log[from..])),
                  Apply(rows, log))
  {
    var base := SnapshotBase(Apply(rows, log[..p]), Apply(rows, log[..q]), run, redacted);
    TwoMoments(rows, log, from, p, q, run, redacted);
    NoLogsAscend(log[from..], 0);
    AcceptedTwice(0, Visible(redacted, log[from..]));
    LogsAreNoRows(base, Visible(redacted, log[from..]), Apply(rows, log));
  }
}
