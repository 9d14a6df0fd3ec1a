/**
 The in-batch fold (`run-projection.ts`): a batch of events becomes one patch of the run row, and
 one of each step and table row it touches.
 */
module RunProjection {
  import opened Wrappers
  import opened RunQueue
  import opened RunEvents

  // ---- one table ----

  datatype TableStatus = Pending | Copying | Done | Broken

  predicate Over(s: TableStatus) {
    s == Done || s == Broken
  }

  /** A `run_table_progress` row; a batch's patch of it has the same fields. */
  datatype TableRow = TableRow(
    status: TableStatus,
    rowsDone: nat,
    rowsTotal: nat,
    pct: Percent,
    durationMs: Option<int>,
    error: Option<string>,
    finishedAt: Option<int>)

  /** What an event says of one table. */
  datatype TableOp =
    | Sample(status: TableStatus, rowsDone: nat, rowsTotal: nat, pct: Percent)
    | Finish(rowsCopied: nat, durationMs: int, success: bool, error: Option<string>, at: int)

  type LiveOp = op: TableOp | op.Sample? ==> !Over(op.status) witness Sample(Pending, 0, 0, 0.0)

  function Seed(estimates: map<string, nat>, table: string): LiveOp {
    Sample(Pending, 0, if table in estimates then estimates[table] else 0, 0.0)
  }

  function TableOpOf(e: Event, table: string): Option<LiveOp> {
    match e.body
    case PlanReady(order, estimates) =>
      if table in order then Some(Seed(estimates, table)) else None
    case TableProgress(t, done, total, pct) =>
      if t == table then Some(Sample(Copying, done, total, pct)) else None
    case TableFinished(t, copied, ms, success, error) =>
      if t == table then Some(Finish(copied, ms, success, error, e.at)) else None
    case _ => None
  }

  function TablesOf(e: Event): set<string> {
    match e.body
    case PlanReady(order, _) => set t <- order
    case TableProgress(t, _, _, _) => {t}
    case TableFinished(t, _, _, _, _) => {t}
    case _ => {}
  }

  /** `upsertTable`: later wins per field, but a finished table keeps its row and takes only the total. */
  function UpsertTable(existing: Option<TableRow>, op: LiveOp): TableRow {
    match op
    case Sample(status, done, total, pct) => (
      match existing
      case None => TableRow(status, done, total, pct, None, None, None)
      case Some(row) =>
        if Over(row.status) then row.(rowsTotal := Max(row.rowsTotal, total))
        else row.(status := status, rowsDone := done, rowsTotal := total, pct := pct)
    )
    case Finish(copied, ms, success, error, at) =>
      var before := if existing.Some? then existing.value.rowsTotal else 0;
      var pctBefore: Percent := if existing.Some? then existing.value.pct else 0.0;
      TableRow(if success then Done else Broken, copied, Max(copied, before),
               if success then 100.0 else pctBefore, Some(ms), error, Some(at))
  }

  function FoldTable(patch: Option<TableRow>, op: Option<LiveOp>): Option<TableRow> {
    if op.None? then patch else Some(UpsertTable(patch, op.value))
  }

  // ---- one step ----

  datatype StepRow = StepRow(
    ordinal: int,
    status: string,
    detail: Option<string>,
    failure: Option<Failure>,
    durationMs: Option<int>,
    startedAt: Option<int>,
    finishedAt: Option<int>)

  datatype StepOp =
    | Begin(ordinal: int, at: int)
    | End(ordinal: int, status: string, durationMs: int, detail: Option<string>, failure: Option<Failure>, at: int)

  function StepOpOf(e: Event, stepId: string): Option<StepOp> {
    match e.body
    case StepStarted(s, ordinal) => if s == stepId then Some(Begin(ordinal, e.at)) else None
    case StepFinished(s, status, ms, detail, failure) =>
      if s == stepId then Some(End(StepOrdinal(s), status, ms, detail, failure, e.at)) else None
    case _ => None
  }

  function StepsOf(e: Event): set<string> {
    match e.body
    case StepStarted(s, _) => {s}
    case StepFinished(s, _, _, _, _) => {s}
    case _ => {}
  }

  /** `upsertStep`: a spread, so a field the patch does not carry keeps its value. */
  function UpsertStep(existing: Option<StepRow>, op: StepOp): StepRow {
    match op
    case Begin(ordinal, at) => (
      match existing
      case None => StepRow(ordinal, "running", None, None, None, Some(at), None)
      case Some(row) => row.(ordinal := ordinal, status := "running", startedAt := Some(at))
    )
    case End(ordinal, status, ms, detail, failure, at) => (
      match existing
      case None => StepRow(ordinal, status, detail, failure, Some(ms), None, Some(at))
      case Some(row) => row.(ordinal := ordinal, status := status, detail := detail, failure := failure,
                             durationMs := Some(ms), finishedAt := Some(at))
    )
  }

  function FoldStep(patch: Option<StepRow>, op: Option<StepOp>): Option<StepRow> {
    if op.None? then patch else Some(UpsertStep(patch, op.value))
  }

  // ---- the run row ----

  /** `RunPatch`: only the fields the batch speaks of. `failure` may be set to nothing. */
  datatype RunPatch = RunPatch(
    status: Option<Status>,
    lastSeq: Option<nat>,
    rowsDone: Option<nat>,
    rowsTotal: Option<nat>,
    tablesDone: Option<nat>,
    tablesTotal: Option<nat>,
    startedAt: Option<int>,
    finishedAt: Option<int>,
    durationMs: Option<int>,
    failure: Option<Option<Failure>>)

  const NO_RUN_PATCH := RunPatch(None, None, None, None, None, None, None, None, None, None)

  function SumEstimates(order: seq<string>, estimates: map<string, nat>): nat {
    if order == [] then 0
    else var last := order[|order| - 1];
      SumEstimates(order[..|order| - 1], estimates) + if last in estimates then estimates[last] else 0
  }

  function FoldRun(p: RunPatch, e: Event): RunPatch {
    var p' := p.(lastSeq := Some(Max(p.lastSeq.GetOr(0), e.seqNo)));
    match e.body
    case RunStarted => p'.(status := Some(Running), startedAt := Some(e.at))
    case RunFinished(outcome, ms, failure) =>
      p'.(status := Some(outcome), finishedAt := Some(e.at), durationMs := Some(ms), failure := Some(failure))
    case PlanReady(order, estimates) => p'.(tablesTotal := Some(|order|), rowsTotal := Some(SumEstimates(order, estimates)))
    case OverallProgress(done, total, tablesDone, tablesTotal) =>
      p'.(rowsDone := Some(done), rowsTotal := Some(total), tablesDone := Some(tablesDone), tablesTotal := Some(tablesTotal))
    case _ => p'
  }

  // ---- the whole projection ----

  datatype Projection = Projection(
    events: seq<Event>,
    run: RunPatch,
    steps: map<string, StepRow>,
    tables: map<string, TableRow>)

  const NOTHING := Projection([], NO_RUN_PATCH, map[], map[])

  function Fold(p: Projection, e: Event): Projection {
    Projection(
      p.events + [e],
      FoldRun(p.run, e),
      map s <- p.steps.Keys + StepsOf(e) :: FoldStep(At(p.steps, s), StepOpOf(e, s)).value,
      map t <- p.tables.Keys + TablesOf(e) :: FoldTable(At(p.tables, t), TableOpOf(e, t)).value)
  }

  function FoldAll(p: Projection, events: seq<Event>): Projection {
    if events == [] then p else Fold(FoldAll(p, events[..|events| - 1]), events[|events| - 1])
  }

  lemma SameAt<T>(m: map<string, T>, n: map<string, T>)
    requires forall k :: At(m, k) == At(n, k)
    ensures m == n
  {
    assert forall k :: k in m <==> At(m, k).Some?;
    assert forall k :: k in n <==> At(n, k).Some?;
    assert forall k :: k in m ==> m[k] == At(m, k).value == At(n, k).value == n[k];
  }

  /** What one fold says of every table and step, touched or not. */
  lemma FoldAt(p: Projection, e: Event)
    ensures forall t :: At(Fold(p, e).tables, t) == FoldTable(At(p.tables, t), TableOpOf(e, t))
    ensures forall s :: At(Fold(p, e).steps, s) == FoldStep(At(p.steps, s), StepOpOf(e, s))
  {
  }

  /** The loop of `projectEvents`. */
  method ProjectEvents(events: seq<Event>) returns (projection: Projection)
    ensures projection == FoldAll(NOTHING, events)
  {
    var rows: seq<Event> := [];
    var run := NO_RUN_PATCH;
    var steps: map<string, StepRow> := map[];
    var tables: map<string, TableRow> := map[];
    for i := 0 to |events|
      invariant Projection(rows, run, steps, tables) == FoldAll(NOTHING, events[..i])
    {
      ghost var before := Projection(rows, run, steps, tables);
      rows := rows + [events[i]];
      run, steps, tables := ProjectOne(run, steps, tables, events[i]);
      FoldAt(before, events[i]);
      SameAt(steps, Fold(before, events[i]).steps);
      SameAt(tables, Fold(before, events[i]).tables);
      assert events[..i + 1][..i] == events[..i] && events[..i + 1][i] == events[i];
    }
    assert events[..|events|] == events;
    projection := Projection(rows, run, steps, tables);
  }

  /** Its switch. */
  method ProjectOne(run0: RunPatch, steps0: map<string, StepRow>, tables0: map<string, TableRow>, e: Event)
    returns (run: RunPatch, steps: map<string, StepRow>, tables: map<string, TableRow>)
    ensures run == FoldRun(run0, e)
    ensures forall s :: At(steps, s) == FoldStep(At(steps0, s), StepOpOf(e, s))
    ensures forall t :: At(tables, t) == FoldTable(At(tables0, t), TableOpOf(e, t))
  {
    run := run0.(lastSeq := Some(Max(run0.lastSeq.GetOr(0), e.seqNo)));
    steps, tables := steps0, tables0;
    match e.body {
      case RunStarted =>
        run := run.(status := Some(Running), startedAt := Some(e.at));
      case RunFinished(outcome, ms, failure) =>
        run := run.(status := Some(outcome), finishedAt := Some(e.at), durationMs := Some(ms), failure := Some(failure));
      case StepStarted(s, ordinal) =>
        steps := steps[s := UpsertStep(At(steps, s), Begin(ordinal, e.at))];
      case StepFinished(s, status, ms, detail, failure) =>
        steps := steps[s := UpsertStep(At(steps, s), End(StepOrdinal(s), status, ms, detail, failure, e.at))];
      case PlanReady(order, estimates) =>
        var total: nat;
        tables, total := SeedTables(tables, order, estimates);
        run := run.(tablesTotal := Some(|order|), rowsTotal := Some(total));
      case TableProgress(t, done, total, pct) =>
        tables := tables[t := UpsertTable(At(tables, t), Sample(Copying, done, total, pct))];
      case TableFinished(t, copied, ms, success, error) =>
        tables := tables[t := UpsertTable(At(tables, t), Finish(copied, ms, success, error, e.at))];
      case OverallProgress(done, total, tablesDone, tablesTotal) =>
        run := run.(rowsDone := Some(done), rowsTotal := Some(total), tablesDone := Some(tablesDone), tablesTotal := Some(tablesTotal));
      case Log(_, _, _) =>
    }
  }

  /** The inner loop of `plan_ready`: every table of the plan gets a row before it starts copying. */
  method SeedTables(before: map<string, TableRow>, order: seq<string>, estimates: map<string, nat>)
    returns (tables: map<string, TableRow>, total: nat)
    ensures tables == map t <- before.Keys + (set t <- order) ::
                        if t in order then UpsertTable(At(before, t), Seed(estimates, t)) else before[t]
    ensures total == SumEstimates(order, estimates)
  {
    tables, total := before, 0;
    for i := 0 to |order|
      invariant total == SumEstimates(order[..i], estimates)
      invariant forall t :: At(tables, t) == if t in order[..i] then Some(UpsertTable(At(before, t), Seed(estimates, t))) else At(before, t)
    {
      var t := order[i];
      total := total + if t in estimates then estimates[t] else 0;
      SeedTwice(At(before, t), Seed(estimates, t).rowsTotal);
      tables := tables[t := UpsertTable(At(tables, t), Seed(estimates, t))];
      assert order[..i + 1] == order[..i] + [t];
      assert order[..i + 1][..i] == order[..i];
    }
    assert order[..|order|] == order;
    assert forall t :: t in tables <==> At(tables, t).Some?;
  }

  /** A table named twice in the plan is seeded as if named once. */
  lemma SeedTwice(existing: Option<TableRow>, total: nat)
    ensures var op := Sample(Pending, 0, total, 0.0);
            UpsertTable(Some(UpsertTable(existing, op)), op) == UpsertTable(existing, op)
  {
  }
}
