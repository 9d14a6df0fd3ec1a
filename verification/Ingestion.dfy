/**
 The cross-batch merge (`ingestion.ts`): how a batch's projection lands on the rows already stored
 for the run, by the conflict rules of its INSERT and UPDATE statements.
 */
module Ingestion {
  import opened Wrappers
  import opened RunQueue
  import opened RunEvents
  import opened RunProjection

  /** The projected columns of one `runs` row. */
  datatype RunRecord = RunRecord(
    status: Status,
    lastSeq: nat,
    rowsDone: nat,
    rowsTotal: nat,
    tablesDone: nat,
    tablesTotal: nat,
    startedAt: Option<int>,
    finishedAt: Option<int>,
    durationMs: Option<int>,
    failure: Option<Failure>)

  /** Everything stored for one run; `events` is keyed by `seq`. */
  datatype Rows = Rows(
    run: RunRecord,
    steps: map<string, StepRow>,
    tables: map<string, TableRow>,
    events: map<nat, Event>)

  // ---- the conflict rules ----

  /** A started run keeps a cancel accepted between its claim and its launch. */
  function MergeStatus(stored: Status, patch: Option<Status>): Status {
    match patch
    case None => stored
    case Some(Running) => if stored == Cancelling then Cancelling else Running
    case Some(s) => s
  }

  function MergeRun(r: RunRecord, p: RunPatch): RunRecord {
    RunRecord(
      MergeStatus(r.status, p.status),
      Max(r.lastSeq, p.lastSeq.GetOr(0)),
      p.rowsDone.GetOr(r.rowsDone),
      p.rowsTotal.GetOr(r.rowsTotal),
      p.tablesDone.GetOr(r.tablesDone),
      p.tablesTotal.GetOr(r.tablesTotal),
      Coalesce(p.startedAt, r.startedAt),
      Coalesce(p.finishedAt, r.finishedAt),
      Coalesce(p.durationMs, r.durationMs),
      p.failure.GetOr(r.failure))
  }

  function MergeStep(stored: Option<StepRow>, patch: StepRow): StepRow {
    match stored
    case None => patch
    case Some(row) => row.(
      status := patch.status,
      detail := Coalesce(patch.detail, row.detail),
      failure := patch.failure,
      durationMs := Coalesce(patch.durationMs, row.durationMs),
      startedAt := Coalesce(row.startedAt, patch.startedAt),
      finishedAt := Coalesce(patch.finishedAt, row.finishedAt))
  }

  function MaxPct(a: Percent, b: Percent): Percent {
    if a >= b then a else b
  }

  function MergeTable(stored: Option<TableRow>, patch: TableRow): TableRow {
    match stored
    case None => patch
    case Some(row) => TableRow(
      if Over(row.status) && !Over(patch.status) then row.status else patch.status,
      Max(row.rowsDone, patch.rowsDone),
      Max(row.rowsTotal, patch.rowsTotal),
      MaxPct(row.pct, patch.pct),
      Coalesce(patch.durationMs, row.durationMs),
      Coalesce(patch.error, row.error),
      Coalesce(patch.finishedAt, row.finishedAt))
  }

  function LandStep(stored: Option<StepRow>, patch: Option<StepRow>): Option<StepRow> {
    if patch.None? then stored else Some(MergeStep(stored, patch.value))
  }

  function LandTable(stored: Option<TableRow>, patch: Option<TableRow>): Option<TableRow> {
    if patch.None? then stored else Some(MergeTable(stored, patch.value))
  }

  /** `ON CONFLICT DO NOTHING` on `(run_id, seq)`: the first of a seq stays. */
  function InsertEvents(stored: map<nat, Event>, events: seq<Event>): map<nat, Event> {
    if events == [] then stored
    else
      var before := InsertEvents(stored, events[..|events| - 1]);
      var e := events[|events| - 1];
      if e.seqNo in before then before else before[e.seqNo := e]
  }

  function Merge(rows: Rows, p: Projection): Rows {
    Rows(
      MergeRun(rows.run, p.run),
      map s <- rows.steps.Keys + p.steps.Keys :: LandStep(At(rows.steps, s), At(p.steps, s)).value,
      map t <- rows.tables.Keys + p.tables.Keys :: LandTable(At(rows.tables, t), At(p.tables, t)).value,
      InsertEvents(rows.events, p.events))
  }

  lemma MergeAt(rows: Rows, p: Projection)
    ensures forall s :: At(Merge(rows, p).steps, s) == LandStep(At(rows.steps, s), At(p.steps, s))
    ensures forall t :: At(Merge(rows, p).tables, t) == LandTable(At(rows.tables, t), At(p.tables, t))
  {
  }

  /** One batch, projected and stored. */
  function Apply(rows: Rows, batch: seq<Event>): Rows {
    Merge(rows, FoldAll(NOTHING, batch))
  }

  function ApplyBatches(rows: Rows, batches: seq<seq<Event>>): Rows
    decreases |batches|
  {
    if batches == [] then rows else ApplyBatches(Apply(rows, batches[0]), batches[1..])
  }

  /** The stored rows of one run. */
  class RunTables {
    var run: RunRecord
    var steps: map<string, StepRow>
    var tables: map<string, TableRow>
    var events: map<nat, Event>

    constructor (run: RunRecord)
      ensures State() == Rows(run, map[], map[], map[])
    {
      this.run, steps, tables, events := run, map[], map[], map[];
    }

    ghost function State(): Rows
      reads this
    {
      Rows(run, steps, tables, events)
    }

    /** `applyProjection`: the transaction, statement by statement. */
    method ApplyProjection(p: Projection)
      modifies this
      ensures State() == Merge(old(State()), p)
    {
      MergeAt(State(), p);
      if p == NOTHING {
        SameAt(steps, Merge(State(), p).steps);
        SameAt(tables, Merge(State(), p).tables);
        return;
      }
      InsertAll(p.events);
      UpsertSteps(p.steps);
      UpsertTables(p.tables);
      SameAt(steps, Merge(old(State()), p).steps);
      SameAt(tables, Merge(old(State()), p).tables);
      run := MergeRun(run, p.run);
    }

    method InsertAll(incoming: seq<Event>)
      modifies this`events
      ensures events == InsertEvents(old(events), incoming)
    {
      for i := 0 to |incoming|
        invariant events == InsertEvents(old(events), incoming[..i])
      {
        if incoming[i].seqNo !in events {
          events := events[incoming[i].seqNo := incoming[i]];
        }
        assert incoming[..i + 1][..i] == incoming[..i];
      }
      assert incoming[..|incoming|] == incoming;
    }

    method UpsertSteps(patches: map<string, StepRow>)
      modifies this`steps
      ensures forall s :: At(steps, s) == LandStep(At(old(steps), s), At(patches, s))
    {
      var left := patches.Keys;
      while left != {}
        invariant left <= patches.Keys
        invariant forall s :: At(steps, s) == if s in left then At(old(steps), s) else LandStep(At(old(steps), s), At(patches, s))
        decreases left
      {
        var s :| s in left;
        left := left - {s};
        steps := steps[s := MergeStep(At(steps, s), patches[s])];
      }
    }

    method UpsertTables(patches: map<string, TableRow>)
      modifies this`tables
      ensures forall t :: At(tables, t) == LandTable(At(old(tables), t), At(patches, t))
    {
      var left := patches.Keys;
      while left != {}
        invariant left <= patches.Keys
        invariant forall t :: At(tables, t) == if t in left then At(old(tables), t) else LandTable(At(old(tables), t), At(patches, t))
        decreases left
      {
        var t :| t in left;
        left := left - {t};
        tables := tables[t := MergeTable(At(tables, t), patches[t])];
      }
    }

    /** A batch from the writer: projected in memory, then stored. */
    method ApplyBatch(batch: seq<Event>)
      modifies this
      ensures State() == Apply(old(State()), batch)
    {
      var p := ProjectEvents(batch);
      ApplyProjection(p);
    }

    /** `finaliseRunIfUnsettled`: a run that reported its outcome keeps it. */
    method FinaliseIfUnsettled(outcome: Outcome, failure: Option<Failure>, now: int) returns (settled: bool)
      modifies this`run
      ensures settled <==> !Terminal(old(run).status)
      ensures run == if settled then old(run).(status := outcome, failure := failure, finishedAt := Some(now)) else old(run)
    {
      settled := !Terminal(run.status);
      if settled {
        run := run.(status := outcome, failure := failure, finishedAt := Some(now));
      }
    }
  }
}
