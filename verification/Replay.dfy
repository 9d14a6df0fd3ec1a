/**
 At-least-once delivery: the journal tailer re-delivers events IPC already delivered, and storing
 any suffix of the log again, in any batches, leaves every row as it was.
 */
module Replay {
  import opened Wrappers
  import opened RunQueue
  import opened RunEvents
  import opened RunProjection
  import opened Ingestion
  import opened BatchCuts

  // ---- what storing never takes back ----

  predicate StepGrows(a: Option<StepRow>, b: Option<StepRow>) {
    a.Some? ==> b.Some? && b.value.ordinal == a.value.ordinal && (a.value.startedAt.Some? ==> b.value.startedAt == a.value.startedAt)
  }

  predicate TableGrows(a: Option<TableRow>, b: Option<TableRow>) {
    a.Some? ==> b.Some? && a.value.rowsDone <= b.value.rowsDone && a.value.rowsTotal <= b.value.rowsTotal
                && a.value.pct <= b.value.pct && (Over(a.value.status) ==> Over(b.value.status))
  }

  ghost predicate Grows(a: Rows, b: Rows) {
    && a.run.lastSeq <= b.run.lastSeq
    && (b.run.status == Cancelling ==> a.run.status == Cancelling)
    && (forall s :: StepGrows(At(a.steps, s), At(b.steps, s)))
    && (forall t :: TableGrows(At(a.tables, t), At(b.tables, t)))
    && (forall n :: n in a.events ==> n in b.events && b.events[n] == a.events[n])
  }

  lemma {:induction false} InsertKeeps(stored: map<nat, Event>, events: seq<Event>)
    ensures forall n :: n in stored ==> n in InsertEvents(stored, events) && InsertEvents(stored, events)[n] == stored[n]
    ensures forall e :: e in events ==> e.seqNo in InsertEvents(stored, events)
    ensures (forall e :: e in events ==> e.seqNo in stored) ==> InsertEvents(stored, events) == stored
  {
    if events != [] {
      var before, last := events[..|events| - 1], events[|events| - 1];
      InsertKeeps(stored, before);
      assert forall e :: e in events ==> e in before || e == last;
      assert last in events && forall e :: e in before ==> e in events;
    }
  }

  lemma {:induction false} PatchStatus(log: seq<Event>)
    ensures FoldAll(NOTHING, log).run.status != Some(Cancelling)
    ensures FoldAll(NOTHING, log).events == log
  {
    if log != [] {
      PatchStatus(log[..|log| - 1]);
    }
  }

  /**
   Whatever arrives, in whatever order: the cursor never falls, a stored event is never replaced, a
   finished table stays finished and no table's counts go down.
   */
  lemma StoringNeverTakesBack(rows: Rows, batch: seq<Event>)
    ensures Grows(rows, Apply(rows, batch))
  {
    var p := FoldAll(NOTHING, batch);
    PatchStatus(batch);
    MergeAt(rows, p);
    InsertKeeps(rows.events, p.events);
    forall t
      ensures TableGrows(At(rows.tables, t), At(Apply(rows, batch).tables, t))
    {
    }
    forall s
      ensures StepGrows(At(rows.steps, s), At(Apply(rows, batch).steps, s))
    {
    }
  }

  lemma GrowsTransitive(a: Rows, b: Rows, c: Rows)
    requires Grows(a, b) && Grows(b, c)
    ensures Grows(a, c)
  {
  }

  lemma {:induction false} TrackGrows(k: Track, log: seq<Event>)
    ensures Grows(k.rows, TrackAll(k, log).rows)
  {
    if log != [] {
      var before := TrackAll(k, log[..|log| - 1]);
      TrackGrows(k, log[..|log| - 1]);
      StoringNeverTakesBack(before.rows, [log[|log| - 1]]);
      GrowsTransitive(k.rows, before.rows, TrackAll(k, log).rows);
    }
  }

  // ---- a replay in progress ----

  /** `x` is what it was when the replay began, or what the replayed events had made of it. */
  predicate Between<T(==)>(x: T, was: Option<T>, now: T) {
    x == now || was == Some(x)
  }

  predicate StepBetween(x: Option<StepRow>, was: Option<StepRow>, now: Option<StepRow>) {
    if now.None? then x.None?
    else
      && x.Some? && x.value.ordinal == now.value.ordinal && x.value.startedAt == now.value.startedAt
      && Between(x.value.status, if was.Some? then Some(was.value.status) else None, now.value.status)
      && Between(x.value.detail, if was.Some? then Some(was.value.detail) else None, now.value.detail)
      && Between(x.value.failure, if was.Some? then Some(was.value.failure) else None, now.value.failure)
      && Between(x.value.durationMs, if was.Some? then Some(was.value.durationMs) else None, now.value.durationMs)
      && Between(x.value.finishedAt, if was.Some? then Some(was.value.finishedAt) else None, now.value.finishedAt)
  }

  predicate TableBetween(x: Option<TableRow>, was: Option<TableRow>, now: Option<TableRow>) {
    if now.None? then x.None?
    else
      && x.Some? && x.value.rowsDone == now.value.rowsDone && x.value.rowsTotal == now.value.rowsTotal && x.value.pct == now.value.pct
      && (Over(now.value.status) ==> Over(x.value.status))
      && Between(x.value.status, if was.Some? then Some(was.value.status) else None, now.value.status)
      && Between(x.value.durationMs, if was.Some? then Some(was.value.durationMs) else None, now.value.durationMs)
      && Between(x.value.error, if was.Some? then Some(was.value.error) else None, now.value.error)
      && Between(x.value.finishedAt, if was.Some? then Some(was.value.finishedAt) else None, now.value.finishedAt)
  }

  predicate RunBetween(x: RunRecord, was: RunRecord, now: RunRecord) {
    && x.lastSeq == now.lastSeq
    // A replayed start finds the outcome in place of the cancel it once found.
    && (Between(x.status, Some(was.status), now.status) || (x.status == Running && was.status == Cancelling && now.status != Cancelling))
    && (now.status == Cancelling ==> x.status == Cancelling)
    && Between(x.rowsDone, Some(was.rowsDone), now.rowsDone)
    && Between(x.rowsTotal, Some(was.rowsTotal), now.rowsTotal)
    && Between(x.tablesDone, Some(was.tablesDone), now.tablesDone)
    && Between(x.tablesTotal, Some(was.tablesTotal), now.tablesTotal)
    && Between(x.startedAt, Some(was.startedAt), now.startedAt)
    && Between(x.finishedAt, Some(was.finishedAt), now.finishedAt)
    && Between(x.durationMs, Some(was.durationMs), now.durationMs)
    && Between(x.failure, Some(was.failure), now.failure)
  }

  ghost predicate Replaying(x: Rows, was: Rows, now: Rows) {
    && RunBetween(x.run, was.run, now.run)
    && (forall s :: StepBetween(At(x.steps, s), At(was.steps, s), At(now.steps, s)))
    && (forall t :: TableBetween(At(x.tables, t), At(was.tables, t), At(now.tables, t)))
    && x.events == now.events
  }

  lemma StepReplays(x: Option<StepRow>, i: Option<StepRow>, p: Option<StepRow>, now: Option<StepRow>)
    requires StepBetween(x, i, now) && StepGrows(LandStep(i, p), now)
    ensures StepBetween(LandStep(x, p), LandStep(i, p), now)
  {
  }

  lemma TableReplays(x: Option<TableRow>, i: Option<TableRow>, p: Option<TableRow>, now: Option<TableRow>)
    requires TableBetween(x, i, now) && TableGrows(LandTable(i, p), now) && TableGrows(i, now)
    ensures TableBetween(LandTable(x, p), LandTable(i, p), now)
  {
  }

  lemma RunReplays(x: RunRecord, i: RunRecord, p: RunPatch, now: RunRecord)
    requires RunBetween(x, i, now) && MergeRun(i, p).lastSeq <= now.lastSeq && p.status != Some(Cancelling)
    requires now.status == Cancelling ==> i.status == Cancelling && MergeRun(i, p).status == Cancelling
    ensures RunBetween(MergeRun(x, p), MergeRun(i, p), now)
  {
  }

  /** One re-delivered batch. */
  lemma BatchReplays(x: Rows, i: Rows, b: seq<Event>, now: Rows)
    requires Replaying(x, i, now) && Grows(Apply(i, b), now)
    ensures Replaying(Apply(x, b), Apply(i, b), now)
  {
    var p, j := FoldAll(NOTHING, b), Apply(i, b);
    PatchStatus(b);
    StoringNeverTakesBack(i, b);
    MergeAt(x, p);
    MergeAt(i, p);
    forall s
      ensures StepBetween(At(Apply(x, b).steps, s), At(j.steps, s), At(now.steps, s))
    {
      assert StepBetween(At(x.steps, s), At(i.steps, s), At(now.steps, s));
      assert StepGrows(At(j.steps, s), At(now.steps, s));
      StepReplays(At(x.steps, s), At(i.steps, s), At(p.steps, s), At(now.steps, s));
    }
    forall t
      ensures TableBetween(At(Apply(x, b).tables, t), At(j.tables, t), At(now.tables, t))
    {
      assert TableBetween(At(x.tables, t), At(i.tables, t), At(now.tables, t));
      assert TableGrows(At(j.tables, t), At(now.tables, t)) && TableGrows(At(i.tables, t), At(j.tables, t));
      TableReplays(At(x.tables, t), At(i.tables, t), At(p.tables, t), At(now.tables, t));
    }
    RunReplays(x.run, i.run, p.run, now.run);
    EventsReplay(i, b, now);
  }

  lemma {:induction false} EventsReplay(i: Rows, b: seq<Event>, now: Rows)
    requires Grows(Apply(i, b), now)
    ensures InsertEvents(now.events, FoldAll(NOTHING, b).events) == now.events
  {
    PatchStatus(b);
    InsertKeeps(i.events, b);
    InsertKeeps(now.events, b);
  }

  lemma ReplayEnds(x: Rows, now: Rows)
    requires Replaying(x, now, now)
    ensures x == now
  {
    forall s
      ensures At(x.steps, s) == At(now.steps, s)
    {
      assert StepBetween(At(x.steps, s), At(now.steps, s), At(now.steps, s));
    }
    forall t
      ensures At(x.tables, t) == At(now.tables, t)
    {
      assert TableBetween(At(x.tables, t), At(now.tables, t), At(now.tables, t));
    }
    SameAt(x.steps, now.steps);
    SameAt(x.tables, now.tables);
  }

  lemma ReplayBegins(was: Rows, now: Rows)
    ensures Replaying(now, was, now)
  {
  }

  lemma {:induction false} ReplayFrom(k: Track, batches: seq<seq<Event>>, x: Rows, now: Rows)
    requires Tracked(k) && FitsLog(k, Flatten(batches)) && now == TrackAll(k, Flatten(batches)).rows
    requires Replaying(x, k.rows, now)
    ensures ApplyBatches(x, batches) == now
    decreases |batches|
  {
    if batches == [] {
      ReplayEnds(x, now);
    } else {
      var b, rest := batches[0], Flatten(batches[1..]);
      FitsSplit(k, b, rest);
      BatchIsOneByOne(k, b);
      TrackAllAppend(k, b, rest);
      TrackGrows(TrackAll(k, b), rest);
      BatchReplays(x, k.rows, b, now);
      ReplayFrom(TrackAll(k, b), batches[1..], Apply(x, b), now);
    }
  }

  /** Re-storing any suffix of a stored log, in any batches, changes no row and no stored event. */
  lemma {:induction false} ReplayIsHarmless(rows: Rows, stored: seq<Event>, again: seq<seq<Event>>)
    requires FitsLog(TrackFrom(rows), stored + Flatten(again))
    ensures var now := Apply(rows, stored + Flatten(again));
            ApplyBatches(now, again) == now
  {
    var k := TrackFrom(rows);
    TrackFromTracked(rows);
    FitsSplit(k, stored, Flatten(again));
    BatchIsOneByOne(k, stored);
    BatchIsOneByOne(k, stored + Flatten(again));
    TrackAllAppend(k, stored, Flatten(again));
    var now := TrackAll(k, stored + Flatten(again)).rows;
    ReplayBegins(TrackAll(k, stored).rows, now);
    ReplayFrom(TrackAll(k, stored), again, now, now);
  }
}
