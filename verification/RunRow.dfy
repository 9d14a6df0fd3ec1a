/**
 The run's own row, told from its log: what is stored of it after any batches, and what a page shows of it
 after any deliveries.
 */
module RunRow {
  import opened Wrappers
  import opened RunQueue
  import opened RunEvents
  import opened RunProjection
  import opened Ingestion
  import opened RunReducer
  import opened SnapshotAgreement

  // ---- what the log says last ----

  predicate IsStart(e: Event) {
    e.body.RunStarted?
  }

  predicate IsEnd(e: Event) {
    e.body.RunFinished?
  }

  predicate IsTurn(e: Event) {
    IsStart(e) || IsEnd(e)
  }

  predicate IsProgress(e: Event) {
    e.body.OverallProgress?
  }

  /** Overall progress carries the totals, and so does a plan. */
  predicate SetsTotals(e: Event) {
    IsProgress(e) || e.body.PlanReady?
  }

  function LastOf(log: seq<Event>, p: Event -> bool): (last: Option<Event>)
    ensures last.Some? ==> p(last.value) && last.value in log
    ensures last.None? ==> forall e <- log :: !p(e)
  {
    if log == [] then None
    else if p(log[|log| - 1]) then Some(log[|log| - 1]) else LastOf(log[..|log| - 1], p)
  }

  lemma {:induction false} LastOfAppend(a: seq<Event>, b: seq<Event>, p: Event -> bool)
    ensures LastOf(a + b, p) == if LastOf(b, p).Some? then LastOf(b, p) else LastOf(a, p)
    decreases |b|
  {
    if b == [] {
      assert a + b == a;
    } else {
      assert (a + b)[..|a| + |b| - 1] == a + b[..|b| - 1];
      LastOfAppend(a, b[..|b| - 1], p);
    }
  }

  /** Adding up estimates: nothing for an empty plan, and a table's own for each table. */
  lemma {:induction false} SumsUp(a: seq<string>, b: seq<string>, estimates: map<string, nat>)
    ensures SumEstimates(a + b, estimates) == SumEstimates(a, estimates) + SumEstimates(b, estimates)
    decreases |b|
  {
    if b == [] {
      assert a + b == a;
    } else {
      assert (a + b)[..|a| + |b| - 1] == a + b[..|b| - 1];
      SumsUp(a, b[..|b| - 1], estimates);
    }
  }

  lemma {:induction false} SumOfOne(t: string, estimates: map<string, nat>)
    ensures SumEstimates([], estimates) == 0
    ensures SumEstimates([t], estimates) == if t in estimates then estimates[t] else 0
  {
    assert [t][..0] == [];
  }

  // ---- the stored row ----

  /** Every field but the status, as the last event that speaks of it left it. */
  ghost predicate FieldsOf(start: RunRecord, log: seq<Event>, run: RunRecord) {
    && run.startedAt == (match LastOf(log, IsStart) case None => start.startedAt case Some(e) => Some(e.at))
    && (match LastOf(log, IsEnd)
        case None => run.finishedAt == start.finishedAt && run.durationMs == start.durationMs && run.failure == start.failure
        case Some(e) => run.finishedAt == Some(e.at) && run.durationMs == Some(e.body.durationMs) && run.failure == e.body.failure)
    && (match LastOf(log, IsProgress)
        case None => run.rowsDone == start.rowsDone && run.tablesDone == start.tablesDone
        case Some(e) => run.rowsDone == e.body.rowsDone && run.tablesDone == e.body.tablesDone)
    && (match LastOf(log, SetsTotals)
        case None => run.rowsTotal == start.rowsTotal && run.tablesTotal == start.tablesTotal
        case Some(e) =>
          if e.body.PlanReady? then run.rowsTotal == SumEstimates(e.body.loadOrder, e.body.estimates) && run.tablesTotal == |e.body.loadOrder|
          else run.rowsTotal == e.body.rowsTotal && run.tablesTotal == e.body.tablesTotal)
    && start.lastSeq <= run.lastSeq && (forall e <- log :: e.seqNo <= run.lastSeq)
    && (run.lastSeq == start.lastSeq || exists e <- log :: e.seqNo == run.lastSeq)
  }

  /** The outcome of the last finish; running, or still cancelling, after a start. */
  ghost predicate StatusOf(start: Status, log: seq<Event>, status: Status) {
    match LastOf(log, IsTurn)
    case None => status == start
    case Some(e) =>
      if IsEnd(e) then status == e.body.outcome
      else
        && (status == Running || status == Cancelling) && (status == Cancelling ==> start == Cancelling)
        && (start == Cancelling && LastOf(log, IsEnd).None? ==> status == Cancelling)
  }

  /** A batch's patch, told from the batch. */
  ghost predicate PatchOf(log: seq<Event>, p: RunPatch) {
    && p.status == (match LastOf(log, IsTurn) case None => None case Some(e) => if IsEnd(e) then Some(e.body.outcome) else Some(Running))
    && p.startedAt == (match LastOf(log, IsStart) case None => None case Some(e) => Some(e.at))
    && (match LastOf(log, IsEnd)
        case None => p.finishedAt == None && p.durationMs == None && p.failure == None
        case Some(e) => p.finishedAt == Some(e.at) && p.durationMs == Some(e.body.durationMs) && p.failure == Some(e.body.failure))
    && (match LastOf(log, IsProgress)
        case None => p.rowsDone == None && p.tablesDone == None
        case Some(e) => p.rowsDone == Some(e.body.rowsDone) && p.tablesDone == Some(e.body.tablesDone))
    && (match LastOf(log, SetsTotals)
        case None => p.rowsTotal == None && p.tablesTotal == None
        case Some(e) =>
          if e.body.PlanReady?
          then p.rowsTotal == Some(SumEstimates(e.body.loadOrder, e.body.estimates)) && p.tablesTotal == Some(|e.body.loadOrder|)
          else p.rowsTotal == Some(e.body.rowsTotal) && p.tablesTotal == Some(e.body.tablesTotal))
  }

  ghost predicate TopSeq(log: seq<Event>, top: Option<nat>) {
    match top
    case None => log == []
    case Some(m) => (forall e <- log :: e.seqNo <= m) && (m == 0 || exists e <- log :: e.seqNo == m)
  }

  lemma {:induction false} LastOfThen(log: seq<Event>, e: Event, p: Event -> bool)
    ensures LastOf(log + [e], p) == if p(e) then Some(e) else LastOf(log, p)
  {
    assert (log + [e])[..|log|] == log;
  }

  lemma PatchThen(log: seq<Event>, p: RunPatch, e: Event)
    requires PatchOf(log, p)
    ensures PatchOf(log + [e], FoldRun(p, e))
  {
    LastOfThen(log, e, IsTurn);
    LastOfThen(log, e, IsStart);
    LastOfThen(log, e, IsEnd);
    LastOfThen(log, e, IsProgress);
    LastOfThen(log, e, SetsTotals);
  }

  lemma TopThen(log: seq<Event>, p: RunPatch, e: Event)
    requires TopSeq(log, p.lastSeq)
    ensures TopSeq(log + [e], FoldRun(p, e).lastSeq)
  {
    assert forall x :: x in log + [e] <==> x in log || x == e;
    assert e in log + [e];
  }

  lemma {:induction false} PatchIs(log: seq<Event>)
    ensures PatchOf(log, FoldAll(NOTHING, log).run)
  {
    if log != [] {
      var n := |log| - 1;
      PatchIs(log[..n]);
      PatchThen(log[..n], FoldAll(NOTHING, log[..n]).run, log[n]);
      assert FoldAll(NOTHING, log).run == FoldRun(FoldAll(NOTHING, log[..n]).run, log[n]);
      assert log == log[..n] + [log[n]];
    }
  }

  lemma {:induction false} TopIs(log: seq<Event>)
    ensures TopSeq(log, FoldAll(NOTHING, log).run.lastSeq)
  {
    if log != [] {
      var n := |log| - 1;
      TopIs(log[..n]);
      TopThen(log[..n], FoldAll(NOTHING, log[..n]).run, log[n]);
      assert log == log[..n] + [log[n]];
    }
  }

  /** One batch: the row it leaves. */
  lemma BatchLeaves(rows: Rows, batch: seq<Event>)
    ensures FieldsOf(rows.run, batch, Apply(rows, batch).run) && StatusOf(rows.run.status, batch, Apply(rows, batch).run.status)
  {
    PatchIs(batch);
    TopIs(batch);
  }

  lemma FieldsCompose(start: RunRecord, a: seq<Event>, mid: RunRecord, b: seq<Event>, end: RunRecord)
    requires FieldsOf(start, a, mid) && FieldsOf(mid, b, end)
    ensures FieldsOf(start, a + b, end)
  {
    LastOfAppend(a, b, IsStart);
    LastOfAppend(a, b, IsEnd);
    LastOfAppend(a, b, IsProgress);
    LastOfAppend(a, b, SetsTotals);
    assert forall x :: x in a + b <==> x in a || x in b;
  }

  lemma StatusesCompose(start: Status, a: seq<Event>, mid: Status, b: seq<Event>, end: Status)
    requires StatusOf(start, a, mid) && StatusOf(mid, b, end)
    ensures StatusOf(start, a + b, end)
  {
    LastOfAppend(a, b, IsTurn);
    LastOfAppend(a, b, IsEnd);
    NoEndNoEnd(a);
    NoEndNoEnd(b);
  }

  lemma {:induction false} NoEndNoEnd(log: seq<Event>)
    ensures LastOf(log, IsTurn).Some? && IsEnd(LastOf(log, IsTurn).value) ==> LastOf(log, IsEnd).Some?
    ensures LastOf(log, IsTurn).None? ==> LastOf(log, IsEnd).None?
  {
  }

  /**
   However a log is cut into batches, and whatever they are: the stored run has the outcome, failure,
   duration and time of its last finish, unless a start came after it; the time of its last start; and the
   figures of its last progress, or the totals of a later plan.
   */
  lemma {:induction false} StoredRunIs(rows: Rows, batches: seq<seq<Event>>)
    ensures var run := ApplyBatches(rows, batches).run;
            FieldsOf(rows.run, Flatten(batches), run) && StatusOf(rows.run.status, Flatten(batches), run.status)
    decreases |batches|
  {
    if batches != [] {
      var first, rest := batches[0], batches[1..];
      var mid := Apply(rows, first);
      BatchLeaves(rows, first);
      StoredRunIs(mid, rest);
      FieldsCompose(rows.run, first, mid.run, Flatten(rest), ApplyBatches(mid, rest).run);
      StatusesCompose(rows.run.status, first, mid.run.status, Flatten(rest), ApplyBatches(mid, rest).run.status);
    }
  }

  /** A run whose last turn is a finish is stored with that outcome. */
  lemma {:induction false} OutcomeIsStored(rows: Rows, batches: seq<seq<Event>>, e: Event)
    requires LastOf(Flatten(batches), IsTurn) == Some(e) && e.body.RunFinished?
    ensures var run := ApplyBatches(rows, batches).run;
            && run.status == e.body.outcome && run.failure == e.body.failure
            && run.durationMs == Some(e.body.durationMs) && run.finishedAt == Some(e.at)
  {
    StoredRunIs(rows, batches);
    LastEndIs(Flatten(batches));
  }

  lemma {:induction false} LastEndIs(log: seq<Event>)
    ensures LastOf(log, IsTurn).Some? && IsEnd(LastOf(log, IsTurn).value) ==> LastOf(log, IsEnd) == LastOf(log, IsTurn)
  {
    if log != [] {
      LastEndIs(log[..|log| - 1]);
    }
  }

  // ---- the page's row ----

  /** What a page shows of the run after some events that counted. */
  ghost predicate ShownRun(start: WireRun, log: seq<Event>, run: WireRun) {
    && run.status == (match LastOf(log, IsTurn) case None => start.status case Some(e) => if IsEnd(e) then e.body.outcome else Running)
    && run.startedAt == (match LastOf(log, IsStart) case None => start.startedAt case Some(e) => Some(e.at))
    && (match LastOf(log, IsEnd)
        case None => run.finishedAt == start.finishedAt && run.durationMs == start.durationMs && run.failure == start.failure
        case Some(e) => run.finishedAt == Some(e.at) && run.durationMs == Some(e.body.durationMs) && run.failure == e.body.failure)
    && (match LastOf(log, IsProgress)
        case None => run.progress == start.progress
        case Some(e) =>
          && run.progress.rowsDone == e.body.rowsDone && run.progress.rowsTotal == e.body.rowsTotal
          && run.progress.tablesDone == e.body.tablesDone && run.progress.tablesTotal == e.body.tablesTotal
          && PercentRight(run.progress.pct, e.body.rowsDone, e.body.rowsTotal))
  }

  /** A hundred times the part done, at most a hundred; nothing of nothing. */
  predicate PercentRight(pct: real, done: nat, total: nat) {
    if total == 0 then pct == 0.0
    else if done >= total then pct == 100.0 else pct * total as real == done as real * 100.0
  }

  lemma PartOf(d: real, t: real)
    requires t > 0.0
    ensures d / t * 100.0 * t == d * 100.0
    ensures d / t * 100.0 > 100.0 <==> d > t
  {
    assert d / t * t == d;
    assert d / t > 1.0 <==> d > t;
  }

  lemma PercentIsRight(done: nat, total: nat)
    ensures PercentRight(PercentOf(done, total), done, total)
  {
    if total > 0 {
      PartOf(done as real, total as real);
      if done == total {
        assert done as real / total as real == 1.0;
      }
    }
  }

  lemma ShownThen(start: WireRun, log: seq<Event>, run: WireRun, e: Event)
    requires ShownRun(start, log, run)
    ensures ShownRun(start, log + [e], ReduceRun(run, e))
  {
    assert (log + [e])[..|log|] == log;
    if IsProgress(e) {
      PercentIsRight(e.body.rowsDone, e.body.rowsTotal);
    }
  }

  lemma {:induction false} ReducedRunIs(s: RunState, log: seq<Event>)
    requires s.run.Some?
    ensures ReduceAll(s, log).run.Some? && ShownRun(s.run.value, log, ReduceAll(s, log).run.value)
  {
    if log != [] {
      var n := |log| - 1;
      ReducedRunIs(s, log[..n]);
      ShownThen(s.run.value, log[..n], ReduceAll(s, log[..n]).run.value, log[n]);
      assert log == log[..n] + [log[n]];
    }
  }

  /** A delivery leaves the page's run as its accepted events say, and no run if there was none. */
  lemma {:induction false} PageRunIs(s: RunState, events: seq<Event>)
    ensures ApplyEvents(s, events).run.Some? <==> s.run.Some?
    ensures s.run.Some? ==> ShownRun(s.run.value, Accepted(s.lastSeq, events), ApplyEvents(s, events).run.value)
  {
    if s.run.Some? {
      ReducedRunIs(s, Accepted(s.lastSeq, events));
    } else {
      NoRun(s, Accepted(s.lastSeq, events));
    }
  }

  lemma {:induction false} NoRun(s: RunState, log: seq<Event>)
    requires s.run.None?
    ensures ReduceAll(s, log).run.None?
  {
    if log != [] {
      NoRun(s, log[..|log| - 1]);
    }
  }

  /** Once the finish is among what counted, page and database say the same of how the run ended. */
  lemma {:induction false} PageAndRowAgree(rows: Rows, batches: seq<seq<Event>>, s: RunState, events: seq<Event>, e: Event)
    requires s.run.Some? && LastOf(Flatten(batches), IsTurn) == Some(e) && e.body.RunFinished?
    requires LastOf(Accepted(s.lastSeq, events), IsTurn) == Some(e)
    ensures var run, page := ApplyBatches(rows, batches).run, ApplyEvents(s, events).run;
            && page.Some? && page.value.status == run.status == e.body.outcome && page.value.failure == run.failure
            && page.value.durationMs == run.durationMs && page.value.finishedAt == run.finishedAt
  {
    OutcomeIsStored(rows, batches, e);
    PageRunIs(s, events);
    LastEndIs(Accepted(s.lastSeq, events));
  }

  // ---- the page's log pane ----

  /** The pane is the newest lines of what it held and what came, never more than its limit, and untouched if nothing came. */
  lemma {:induction false} PaneKeepsNewest(s: RunState, events: seq<Event>)
    ensures var lines, pane := s.logs + LogLines(Accepted(s.lastSeq, events)), ApplyEvents(s, events).logs;
            if LogLines(Accepted(s.lastSeq, events)) == [] then pane == s.logs
            else |pane| == Min(|lines|, 2000) && pane == lines[|lines| - |pane|..]
  {
  }

  function LogsOf(events: seq<Event>): seq<Event> {
    if events == [] then []
    else if events[0].body.Log? then [events[0]] + LogsOf(events[1..]) else LogsOf(events[1..])
  }

  lemma {:induction false} LogsOfThen(events: seq<Event>, e: Event)
    ensures LogsOf(events + [e]) == if e.body.Log? then LogsOf(events) + [e] else LogsOf(events)
    decreases |events|
  {
    if events == [] {
      assert [e][1..] == [];
    } else {
      assert (events + [e])[1..] == events[1..] + [e];
      LogsOfThen(events[1..], e);
    }
  }

  /** The pane's new lines are the log events, in order, each under its own seq, time, level, text and step. */
  lemma {:induction false} LinesAreLogs(events: seq<Event>)
    ensures |LogLines(events)| == |LogsOf(events)|
    ensures forall i :: 0 <= i < |LogsOf(events)| ==>
              var e, line := LogsOf(events)[i], LogLines(events)[i];
              && e.body.Log? && line.seqNo == e.seqNo && line.at == e.at
              && line.level == e.body.level && line.message == e.body.message && line.logStep == e.body.logStep
  {
    if events != [] {
      var n := |events| - 1;
      LinesAreLogs(events[..n]);
      LogsOfThen(events[..n], events[n]);
      assert events == events[..n] + [events[n]];
    }
  }

  /** A snapshot shows the run it brought, moved on by the events that came with it, and these alone in the pane. */
  lemma {:induction false} SnapshotRunIs(stepsThen: Rows, tablesThen: Rows, run: WireRun, redacted: bool, events: seq<Event>)
    ensures var s, lines := ApplySnapshot(stepsThen, tablesThen, run, redacted, events), LogLines(Accepted(0, events));
            && s.run.Some? && ShownRun(run, Accepted(0, events), s.run.value) && s.logsWithheld == redacted
            && s.logs == lines[Max(0, |lines| - 2000)..]
  {
    PageRunIs(SnapshotBase(stepsThen, tablesThen, run, redacted), events);
    PaneKeepsNewest(SnapshotBase(stepsThen, tablesThen, run, redacted), events);
    assert [] + LogLines(Accepted(0, events)) == LogLines(Accepted(0, events));
    WithheldStays(SnapshotBase(stepsThen, tablesThen, run, redacted), Accepted(0, events));
  }

  lemma {:induction false} WithheldStays(s: RunState, log: seq<Event>)
    ensures ReduceAll(s, log).logsWithheld == s.logsWithheld
  {
    if log != [] {
      WithheldStays(s, log[..|log| - 1]);
    }
  }
}
