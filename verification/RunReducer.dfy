/**
 The browser's fold of the same events (`run-reducer.ts`). Steps and tables are kept as maps: the
 source's arrays are these maps' values, in timeline and in name order.
 */
module RunReducer {
  import opened Wrappers
  import opened RunQueue
  import opened RunEvents
  import opened RunProjection

  datatype Progress = Progress(rowsDone: nat, rowsTotal: nat, tablesDone: nat, tablesTotal: nat, pct: real)

  datatype WireRun = WireRun(
    status: Status,
    startedAt: Option<int>,
    finishedAt: Option<int>,
    durationMs: Option<int>,
    failure: Option<Failure>,
    progress: Progress)

  datatype StepView = StepView(status: string, durationMs: Option<int>, failure: Option<Failure>, detail: Option<string>)

  datatype TableView = TableView(
    status: TableStatus, rowsDone: nat, rowsTotal: nat, pct: Percent, durationMs: Option<int>, error: Option<string>)

  datatype LogLine = LogLine(seqNo: nat, at: int, level: string, message: string, logStep: Option<string>)

  datatype RunState = RunState(
    run: Option<WireRun>,
    steps: map<string, StepView>,
    tables: map<string, TableView>,
    logs: seq<LogLine>,
    lastSeq: nat,
    logsWithheld: bool)

  const MAX_LOG_LINES: nat := 2000

  const BLANK_TABLE := TableView(Pending, 0, 0, 0.0, None, None)

  function NormaliseStepStatus(s: string): string {
    if s in ["running", "ok", "failed", "skipped"] then s else "pending"
  }

  function PercentOf(done: nat, total: nat): real {
    if total == 0 then 0.0
    else var p := done as real / total as real * 100.0;
      if p > 100.0 then 100.0 else p
  }

  function MaxPercent(a: Percent, b: Percent): Percent {
    if a >= b then a else b
  }

  // ---- one accepted event ----

  function ViewStep(view: StepView, op: StepOp): StepView {
    match op
    case Begin(_, _) => view.(status := "running")
    case End(_, status, ms, detail, failure, _) =>
      StepView(NormaliseStepStatus(status), Some(ms), failure, if detail.Some? then detail else view.detail)
  }

  function ViewTable(view: Option<TableView>, op: LiveOp): TableView {
    var t := view.GetOr(BLANK_TABLE);
    match op
    case Sample(status, done, total, pct) =>
      if status.Pending? then (if view.Some? then t else BLANK_TABLE.(rowsTotal := total))
      else t.(status := if Over(t.status) then t.status else Copying,
         rowsDone := Max(t.rowsDone, done), rowsTotal := Max(t.rowsTotal, total), pct := MaxPercent(t.pct, pct))
    case Finish(copied, ms, success, error, _) =>
      TableView(if success then Done else Broken, copied, Max(t.rowsTotal, copied),
                if success then 100.0 else t.pct, Some(ms), error)
  }

  function ReduceRun(run: WireRun, e: Event): WireRun {
    match e.body
    case RunStarted => run.(status := Running, startedAt := Some(e.at))
    case RunFinished(outcome, ms, failure) =>
      run.(status := outcome, finishedAt := Some(e.at), durationMs := Some(ms), failure := failure)
    case OverallProgress(done, total, tablesDone, tablesTotal) =>
      run.(progress := Progress(done, total, tablesDone, tablesTotal, PercentOf(done, total)))
    case _ => run
  }

  /** Everything but the log pane. */
  function Reduce(s: RunState, e: Event): RunState {
    s.(lastSeq := e.seqNo,
       run := if s.run.Some? then Some(ReduceRun(s.run.value, e)) else None,
       steps := map k <- s.steps :: if StepOpOf(e, k).Some? then ViewStep(s.steps[k], StepOpOf(e, k).value) else s.steps[k],
       tables := map t <- s.tables.Keys + TablesOf(e) ::
                   if TableOpOf(e, t).Some? then ViewTable(At(s.tables, t), TableOpOf(e, t).value) else s.tables[t])
  }

  function ReduceAll(s: RunState, events: seq<Event>): RunState {
    if events == [] then s else Reduce(ReduceAll(s, events[..|events| - 1]), events[|events| - 1])
  }

  // ---- a delivery ----

  /** The events a delivery gets past the `lastSeq` check: each above every one before it. */
  function Accepted(lastSeq: nat, events: seq<Event>): seq<Event>
    decreases |events|
  {
    if events == [] then []
    else if events[0].seqNo <= lastSeq then Accepted(lastSeq, events[1..])
    else [events[0]] + Accepted(events[0].seqNo, events[1..])
  }

  function LogLines(events: seq<Event>): seq<LogLine> {
    if events == [] then []
    else
      var before, e := LogLines(events[..|events| - 1]), events[|events| - 1];
      if e.body.Log? then before + [LogLine(e.seqNo, e.at, e.body.level, e.body.message, e.body.logStep)] else before
  }

  function CapLogs(lines: seq<LogLine>): seq<LogLine> {
    if |lines| <= MAX_LOG_LINES then lines else lines[|lines| - MAX_LOG_LINES..]
  }

  /** `applyEvents`. */
  function ApplyEvents(s: RunState, events: seq<Event>): RunState {
    var taken := Accepted(s.lastSeq, events);
    ReduceAll(s, taken).(logs := LogPane(s.logs, LogLines(taken)))
  }

  /** The loop of `applyEvents` over its local maps. */
  method FoldEvents(state: RunState, events: seq<Event>) returns (next: RunState)
    ensures next == ApplyEvents(state, events)
  {
    var run, lastSeq, steps, tables := state.run, state.lastSeq, state.steps, state.tables;
    var logs: seq<LogLine> := [];
    ghost var taken: seq<Event> := [];
    for i := 0 to |events|
      invariant Accepted(state.lastSeq, events) == taken + Accepted(lastSeq, events[i..])
      invariant ReduceAll(state, taken) == state.(run := run, steps := steps, tables := tables, lastSeq := lastSeq)
      invariant logs == LogLines(taken)
    {
      var e := events[i];
      assert events[i..] == [e] + events[i + 1..];
      if e.seqNo <= lastSeq {
        continue;
      }
      ghost var before := state.(run := run, steps := steps, tables := tables, lastSeq := lastSeq);
      lastSeq := e.seqNo;
      run, steps, tables := FoldOne(run, steps, tables, e);
      if e.body.Log? {
        logs := logs + [LogLine(e.seqNo, e.at, e.body.level, e.body.message, e.body.logStep)];
      }
      ReduceAt(before, e);
      SameAt(steps, Reduce(before, e).steps);
      SameAt(tables, Reduce(before, e).tables);
      assert (taken + [e])[..|taken|] == taken;
      taken := taken + [e];
    }
    assert taken == Accepted(state.lastSeq, events);
    next := RunState(run, steps, tables, if |logs| > 0 then CapLogs(state.logs + logs) else state.logs, lastSeq, state.logsWithheld);
  }

  /** Its switch. */
  method FoldOne(run0: Option<WireRun>, steps0: map<string, StepView>, tables0: map<string, TableView>, e: Event)
    returns (run: Option<WireRun>, steps: map<string, StepView>, tables: map<string, TableView>)
    ensures run == if run0.Some? then Some(ReduceRun(run0.value, e)) else None
    ensures forall k :: At(steps, k) == ReducedStep(At(steps0, k), StepOpOf(e, k))
    ensures forall t :: At(tables, t) == ReducedTable(At(tables0, t), TableOpOf(e, t))
  {
    run, steps, tables := run0, steps0, tables0;
    match e.body {
      case RunStarted | RunFinished(_, _, _) | OverallProgress(_, _, _, _) =>
        run := if run.Some? then Some(ReduceRun(run.value, e)) else None;
      case StepStarted(k, ordinal) =>
        if k in steps {
          steps := steps[k := ViewStep(steps[k], Begin(ordinal, e.at))];
        }
      case StepFinished(k, status, ms, detail, failure) =>
        if k in steps {
          steps := steps[k := ViewStep(steps[k], End(StepOrdinal(k), status, ms, detail, failure, e.at))];
        }
      case PlanReady(order, estimates) =>
        tables := SeedGrid(tables, order, estimates);
      case TableProgress(t, done, total, pct) =>
        tables := tables[t := ViewTable(At(tables, t), Sample(Copying, done, total, pct))];
      case TableFinished(t, copied, ms, success, error) =>
        tables := tables[t := ViewTable(At(tables, t), Finish(copied, ms, success, error, e.at))];
      case Log(_, _, _) =>
    }
  }

  method SeedGrid(before: map<string, TableView>, order: seq<string>, estimates: map<string, nat>) returns (tables: map<string, TableView>)
    ensures forall t :: At(tables, t) == if t in order then Some(ViewTable(At(before, t), Seed(estimates, t))) else At(before, t)
  {
    tables := before;
    for i := 0 to |order|
      invariant forall t :: At(tables, t) == if t in order[..i] then Some(ViewTable(At(before, t), Seed(estimates, t))) else At(before, t)
    {
      var t := order[i];
      assert order[..i + 1] == order[..i] + [t];
      if t !in tables {
        tables := tables[t := BLANK_TABLE.(rowsTotal := if t in estimates then estimates[t] else 0)];
      }
    }
    assert order[..|order|] == order;
  }

  function ReducedStep(view: Option<StepView>, op: Option<StepOp>): Option<StepView> {
    if view.Some? && op.Some? then Some(ViewStep(view.value, op.value)) else view
  }

  function ReducedTable(view: Option<TableView>, op: Option<LiveOp>): Option<TableView> {
    if op.Some? then Some(ViewTable(view, op.value)) else view
  }

  lemma ReduceAt(s: RunState, e: Event)
    ensures forall k :: At(Reduce(s, e).steps, k) == ReducedStep(At(s.steps, k), StepOpOf(e, k))
    ensures forall t :: At(Reduce(s, e).tables, t) == ReducedTable(At(s.tables, t), TableOpOf(e, t))
  {
  }

  // ---- deliveries compose ----

  lemma {:induction false} ReduceAllAppend(s: RunState, a: seq<Event>, b: seq<Event>)
    ensures ReduceAll(s, a + b) == ReduceAll(ReduceAll(s, a), b)
  {
    if b == [] {
      assert a + b == a;
    } else {
      var n := |b| - 1;
      assert (a + b)[..|a + b| - 1] == a + b[..n];
      ReduceAllAppend(s, a, b[..n]);
    }
  }

  lemma {:induction false} LogLinesAppend(a: seq<Event>, b: seq<Event>)
    ensures LogLines(a + b) == LogLines(a) + LogLines(b)
  {
    if b == [] {
      assert a + b == a;
    } else {
      var n := |b| - 1;
      assert (a + b)[..|a + b| - 1] == a + b[..n];
      LogLinesAppend(a, b[..n]);
    }
  }

  function LastOr(lastSeq: nat, taken: seq<Event>): nat {
    if taken == [] then lastSeq else taken[|taken| - 1].seqNo
  }

  lemma {:induction false} AcceptedAppend(lastSeq: nat, a: seq<Event>, b: seq<Event>)
    ensures Accepted(lastSeq, a + b) == Accepted(lastSeq, a) + Accepted(LastOr(lastSeq, Accepted(lastSeq, a)), b)
    decreases |a|
  {
    if a == [] {
      assert a + b == b;
    } else {
      assert (a + b)[1..] == a[1..] + b;
      AcceptedAppend(if a[0].seqNo <= lastSeq then lastSeq else a[0].seqNo, a[1..], b);
    }
  }

  lemma {:induction false} ReduceAllLast(s: RunState, events: seq<Event>)
    ensures ReduceAll(s, events).lastSeq == LastOr(s.lastSeq, events) && ReduceAll(s, events).logs == s.logs
    ensures forall logs :: ReduceAll(s.(logs := logs), events) == ReduceAll(s, events).(logs := logs)
  {
    if events != [] {
      ReduceAllLast(s, events[..|events| - 1]);
    }
  }

  lemma CapTwice(x: seq<LogLine>, y: seq<LogLine>)
    ensures CapLogs(CapLogs(x) + y) == CapLogs(x + y)
  {
    if |x| > MAX_LOG_LINES {
      assert CapLogs(x) + y == (x + y)[|x| - MAX_LOG_LINES..];
    }
  }

  function LogPane(logs: seq<LogLine>, more: seq<LogLine>): seq<LogLine> {
    if more == [] then logs else CapLogs(logs + more)
  }

  lemma PanesCompose(logs: seq<LogLine>, a: seq<LogLine>, b: seq<LogLine>)
    ensures LogPane(LogPane(logs, a), b) == LogPane(logs, a + b)
  {
    assert (logs + a) + b == logs + (a + b);
    if a == [] {
      assert a + b == b;
    } else if b == [] {
      assert a + b == a;
    } else {
      CapTwice(logs + a, b);
    }
  }

  /** Folding two deliveries one after the other is folding them as one, log cap and all. */
  lemma DeliveriesCompose(s: RunState, a: seq<Event>, b: seq<Event>)
    ensures ApplyEvents(ApplyEvents(s, a), b) == ApplyEvents(s, a + b)
  {
    var fa := Accepted(s.lastSeq, a);
    var mid := ApplyEvents(s, a);
    var fb := Accepted(mid.lastSeq, b);
    AcceptedAppend(s.lastSeq, a, b);
    ReduceAllLast(s, fa);
    ReduceAllLast(ReduceAll(s, fa), fb);
    ReduceAllAppend(s, fa, fb);
    LogLinesAppend(fa, fb);
    PanesCompose(s.logs, LogLines(fa), LogLines(fb));
  }

  lemma {:induction false} AcceptedAscends(lastSeq: nat, events: seq<Event>)
    ensures var taken := Accepted(lastSeq, events);
            Ascending(taken) && (forall i :: 0 <= i < |taken| ==> lastSeq < taken[i].seqNo)
    decreases |events|
  {
    if events != [] {
      AcceptedAscends(Max(lastSeq, events[0].seqNo), events[1..]);
    }
  }

  lemma {:induction false} AcceptedTwice(lastSeq: nat, events: seq<Event>)
    requires Ascending(events) && forall i :: 0 <= i < |events| ==> lastSeq < events[i].seqNo
    ensures Accepted(lastSeq, events) == events
    decreases |events|
  {
    if events != [] {
      AcceptedTwice(events[0].seqNo, events[1..]);
    }
  }

  /** After a delivery nothing in it is news. */
  lemma {:induction false} LastCovers(lastSeq: nat, events: seq<Event>)
    ensures lastSeq <= LastOr(lastSeq, Accepted(lastSeq, events))
    ensures forall i :: 0 <= i < |events| ==> events[i].seqNo <= LastOr(lastSeq, Accepted(lastSeq, events))
    decreases |events|
  {
    if events != [] {
      var next: nat := Max(lastSeq, events[0].seqNo);
      LastCovers(next, events[1..]);
      assert LastOr(lastSeq, Accepted(lastSeq, events)) == LastOr(next, Accepted(next, events[1..]));
      assert forall i :: 0 < i < |events| ==> events[i] == events[1..][i - 1];
    }
  }

  lemma {:induction false} NothingNew(lastSeq: nat, events: seq<Event>)
    requires forall i :: 0 <= i < |events| ==> events[i].seqNo <= lastSeq
    ensures Accepted(lastSeq, events) == []
    decreases |events|
  {
    if events != [] {
      NothingNew(lastSeq, events[1..]);
    }
  }

  /**
   Whatever a delivery repeats or brings late is as if it had not been sent: only the events above
   everything before them count, and sending a whole delivery again changes nothing.
   */
  lemma {:induction false} OverlapIsDropped(s: RunState, events: seq<Event>)
    ensures ApplyEvents(s, events) == ApplyEvents(s, Accepted(s.lastSeq, events))
    ensures Ascending(Accepted(s.lastSeq, events))
    ensures ApplyEvents(ApplyEvents(s, events), events) == ApplyEvents(s, events)
  {
    var taken := Accepted(s.lastSeq, events);
    AcceptedAscends(s.lastSeq, events);
    AcceptedTwice(s.lastSeq, taken);
    LastCovers(s.lastSeq, events);
    ReduceAllLast(s, taken);
    NothingNew(ApplyEvents(s, events).lastSeq, events);
  }
}
