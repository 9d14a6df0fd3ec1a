/**
 Batch cuts: the rows a run ends with do not depend on where its event log was cut into batches,
 exactly when every event fits the rows the events before it left.
 */
module BatchCuts {
  import opened Wrappers
  import opened RunQueue
  import opened RunEvents
  import opened RunProjection
  import opened Ingestion

  /**
   The rows after some events stored one by one, and two things the rows do not show: the total each
   finished table was settled with, and whether the run was being cancelled when it started.
   */
  datatype Track = Track(rows: Rows, settled: map<string, nat>, cancelling: bool)

  function TrackFrom(rows: Rows): Track {
    Track(rows, map t <- rows.tables | Over(rows.tables[t].status) :: rows.tables[t].rowsTotal, rows.run.status == Cancelling)
  }

  function TrackStep(k: Track, e: Event): Track {
    var rows := Apply(k.rows, [e]);
    k.(rows := rows,
       settled := if e.body.TableFinished? && e.body.table in rows.tables
                  then k.settled[e.body.table := rows.tables[e.body.table].rowsTotal] else k.settled)
  }

  function TrackAll(k: Track, log: seq<Event>): Track {
    if log == [] then k else TrackStep(TrackAll(k, log[..|log| - 1]), log[|log| - 1])
  }

  // ---- what it means for an event to fit ----

  /**
   A sample of a live table never reports less than its row; one that trails the finish reports no
   more rows than the finish did, and no less of a total than an earlier trailing sample did. A finish
   never reports fewer rows than were seen, nor clears an error.
   */
  predicate TableFits(row: Option<TableRow>, settled: Option<nat>, op: LiveOp) {
    row.Some? ==>
      match op
      case Sample(_, done, total, pct) =>
        if Over(row.value.status) then
          done <= row.value.rowsDone && pct <= row.value.pct && (row.value.rowsTotal <= total || settled == Some(row.value.rowsTotal))
        else row.value.rowsDone <= done && row.value.rowsTotal <= total && row.value.pct <= pct
      case Finish(copied, _, success, error, _) =>
        row.value.rowsDone <= copied && (success ==> row.value.pct <= 100.0) && (row.value.error.Some? ==> error.Some?)
  }

  /** A step begins once, cleanly, under one ordinal; it never ends with less detail than before. */
  predicate StepFits(row: Option<StepRow>, op: StepOp) {
    row.Some? ==>
      && row.value.ordinal == op.ordinal
      && match op
         case Begin(_, at) => row.value.failure.None? && (row.value.startedAt.Some? ==> row.value.startedAt == Some(at))
         case End(_, _, _, detail, _, _) => row.value.detail.Some? ==> detail.Some?
  }

  ghost predicate Fits(k: Track, e: Event) {
    && (forall t <- TablesOf(e) :: TableFits(At(k.rows.tables, t), At(k.settled, t), TableOpOf(e, t).value))
    && (forall s <- StepsOf(e) :: StepFits(At(k.rows.steps, s), StepOpOf(e, s).value))
    && (e.body.RunStarted? && Terminal(k.rows.run.status) ==> !k.cancelling)
  }

  /** Every event fits what the events before it left. */
  ghost predicate FitsLog(k: Track, log: seq<Event>) {
    log != [] ==>
      var before := log[..|log| - 1];
      FitsLog(k, before) && Fits(TrackAll(k, before), log[|log| - 1])
  }

  // ---- one more event in the batch, cell by cell ----

  predicate TableSound(r: Option<TableRow>, p: Option<TableRow>, settled: Option<nat>) {
    var now := LandTable(r, p);
    && (now.Some? && Over(now.value.status) ==> settled.Some? && settled.value <= now.value.rowsTotal)
    && (r.Some? && Over(r.value.status) && (p.None? || !Over(p.value.status)) ==>
          settled.Some? && settled.value <= r.value.rowsTotal
          && (p.Some? ==> p.value.rowsDone <= r.value.rowsDone && p.value.pct <= r.value.pct))
  }

  lemma TableCommute(r: Option<TableRow>, p: Option<TableRow>, settled: Option<nat>, op: LiveOp)
    requires TableSound(r, p, settled) && TableFits(LandTable(r, p), settled, op)
    ensures var now := MergeTable(LandTable(r, p), UpsertTable(None, op));
            && LandTable(r, Some(UpsertTable(p, op))) == Some(now)
            && TableSound(r, Some(UpsertTable(p, op)), if op.Finish? then Some(now.rowsTotal) else settled)
  {
  }

  lemma StepCommute(r: Option<StepRow>, p: Option<StepRow>, op: StepOp)
    requires StepFits(LandStep(r, p), op)
    ensures LandStep(r, Some(UpsertStep(p, op))) == Some(MergeStep(LandStep(r, p), UpsertStep(None, op)))
  {
  }

  predicate RunSound(r: RunRecord, p: RunPatch, cancelling: bool) {
    && (r.status == Cancelling ==> cancelling)
    && (p.status.Some? ==> p.status.value == Running || Terminal(p.status.value))
  }

  lemma RunCommute(r: RunRecord, p: RunPatch, e: Event, cancelling: bool)
    requires RunSound(r, p, cancelling)
    requires e.body.RunStarted? && Terminal(MergeRun(r, p).status) ==> !cancelling
    ensures MergeRun(r, FoldRun(p, e)) == MergeRun(MergeRun(r, p), FoldRun(NO_RUN_PATCH, e))
    ensures RunSound(r, FoldRun(p, e), cancelling) && RunSound(MergeRun(r, FoldRun(p, e)), NO_RUN_PATCH, cancelling)
  {
  }

  // ---- the whole projection ----

  ghost predicate Sound(rows: Rows, p: Projection, k: Track) {
    && k.rows == Merge(rows, p)
    && RunSound(rows.run, p.run, k.cancelling) && RunSound(k.rows.run, NO_RUN_PATCH, k.cancelling)
    && forall t :: TableSound(At(rows.tables, t), At(p.tables, t), At(k.settled, t))
  }

  ghost predicate Tracked(k: Track) {
    Sound(k.rows, NOTHING, k)
  }

  lemma MergeNothing(rows: Rows)
    ensures Merge(rows, NOTHING) == rows
  {
  }

  lemma TrackFromTracked(rows: Rows)
    ensures Tracked(TrackFrom(rows))
  {
    MergeNothing(rows);
  }

  lemma AloneAt(e: Event)
    ensures var p := FoldAll(NOTHING, [e]);
            && p == Fold(NOTHING, e) && p.events == [e] && p.run == FoldRun(NO_RUN_PATCH, e)
            && (forall t :: At(p.tables, t) == FoldTable(None, TableOpOf(e, t)))
            && (forall s :: At(p.steps, s) == FoldStep(None, StepOpOf(e, s)))
  {
  }

  lemma EventsCommute(rows: Rows, p: Projection, e: Event)
    ensures InsertEvents(rows.events, p.events + [e]) == InsertEvents(InsertEvents(rows.events, p.events), [e])
  {
  }

  /** The cells of table `t` on both sides of `OneMoreEvent`. */
  lemma TableCells(rows: Rows, p: Projection, k: Track, e: Event, t: string)
    requires k.rows == Merge(rows, p)
    ensures At(k.rows.tables, t) == LandTable(At(rows.tables, t), At(p.tables, t))
    ensures At(Fold(p, e).tables, t) == FoldTable(At(p.tables, t), TableOpOf(e, t))
    ensures At(Merge(rows, Fold(p, e)).tables, t) == LandTable(At(rows.tables, t), FoldTable(At(p.tables, t), TableOpOf(e, t)))
    ensures At(TrackStep(k, e).rows.tables, t) == LandTable(At(k.rows.tables, t), FoldTable(None, TableOpOf(e, t)))
  {
    AloneAt(e);
    FoldAt(p, e);
    MergeAt(rows, p);
    MergeAt(rows, Fold(p, e));
    MergeAt(k.rows, FoldAll(NOTHING, [e]));
  }

  lemma SettledCell(k: Track, e: Event, t: string)
    ensures At(TrackStep(k, e).settled, t) ==
            if TableOpOf(e, t).Some? && TableOpOf(e, t).value.Finish?
            then Some(MergeTable(At(k.rows.tables, t), UpsertTable(None, TableOpOf(e, t).value)).rowsTotal) else At(k.settled, t)
  {
    MergeNothing(k.rows);
    TableCells(k.rows, NOTHING, k, e, t);
  }

  /** `TableCommute`, for a table the event may not speak of. */
  lemma TableCellsCommute(r: Option<TableRow>, p: Option<TableRow>, settled: Option<nat>, op: Option<LiveOp>)
    requires TableSound(r, p, settled) && (op.Some? ==> TableFits(LandTable(r, p), settled, op.value))
    ensures LandTable(r, FoldTable(p, op)) == LandTable(LandTable(r, p), FoldTable(None, op))
    ensures TableSound(r, FoldTable(p, op), if op.Some? && op.value.Finish?
                                            then Some(MergeTable(LandTable(r, p), UpsertTable(None, op.value)).rowsTotal) else settled)
  {
    if op.Some? {
      TableCommute(r, p, settled, op.value);
    }
  }

  lemma SoundAndFitsAt(rows: Rows, p: Projection, k: Track, e: Event, t: string)
    requires Sound(rows, p, k) && Fits(k, e)
    ensures TableSound(At(rows.tables, t), At(p.tables, t), At(k.settled, t))
    ensures TableOpOf(e, t).Some? ==> TableFits(At(k.rows.tables, t), At(k.settled, t), TableOpOf(e, t).value)
  {
  }

  lemma OneMoreTable(rows: Rows, p: Projection, k: Track, e: Event, t: string)
    requires Sound(rows, p, k) && Fits(k, e)
    ensures At(Merge(rows, Fold(p, e)).tables, t) == At(TrackStep(k, e).rows.tables, t)
    ensures TableSound(At(rows.tables, t), At(Fold(p, e).tables, t), At(TrackStep(k, e).settled, t))
  {
    SoundAndFitsAt(rows, p, k, e, t);
    TableCells(rows, p, k, e, t);
    SettledCell(k, e, t);
    TableCellsCommute(At(rows.tables, t), At(p.tables, t), At(k.settled, t), TableOpOf(e, t));
  }

  /** The cells of step `s` on both sides of `OneMoreEvent`. */
  lemma StepCells(rows: Rows, p: Projection, k: Track, e: Event, s: string)
    requires k.rows == Merge(rows, p)
    ensures At(k.rows.steps, s) == LandStep(At(rows.steps, s), At(p.steps, s))
    ensures At(Merge(rows, Fold(p, e)).steps, s) == LandStep(At(rows.steps, s), FoldStep(At(p.steps, s), StepOpOf(e, s)))
    ensures At(TrackStep(k, e).rows.steps, s) == LandStep(At(k.rows.steps, s), FoldStep(None, StepOpOf(e, s)))
  {
    AloneAt(e);
    FoldAt(p, e);
    MergeAt(rows, p);
    MergeAt(rows, Fold(p, e));
    MergeAt(k.rows, FoldAll(NOTHING, [e]));
  }

  lemma StepFitsAt(rows: Rows, p: Projection, k: Track, e: Event, s: string)
    requires Sound(rows, p, k) && Fits(k, e)
    ensures k.rows == Merge(rows, p)
    ensures StepOpOf(e, s).Some? ==> StepFits(At(k.rows.steps, s), StepOpOf(e, s).value)
  {
  }

  /** `StepCommute`, for a step the event may not speak of. */
  lemma StepCellsCommute(r: Option<StepRow>, p: Option<StepRow>, op: Option<StepOp>)
    requires op.Some? ==> StepFits(LandStep(r, p), op.value)
    ensures LandStep(r, FoldStep(p, op)) == LandStep(LandStep(r, p), FoldStep(None, op))
  {
    if op.Some? {
      StepCommute(r, p, op.value);
    }
  }

  lemma OneMoreStep(rows: Rows, p: Projection, k: Track, e: Event, s: string)
    requires Sound(rows, p, k) && Fits(k, e)
    ensures At(Merge(rows, Fold(p, e)).steps, s) == At(TrackStep(k, e).rows.steps, s)
  {
    StepFitsAt(rows, p, k, e, s);
    StepCells(rows, p, k, e, s);
    StepCellsCommute(At(rows.steps, s), At(p.steps, s), StepOpOf(e, s));
  }

  /** One more event in the batch, or one more batch: the rows come out the same. */
  lemma OneMoreEvent(rows: Rows, p: Projection, k: Track, e: Event)
    requires Sound(rows, p, k) && Fits(k, e)
    ensures Sound(rows, Fold(p, e), TrackStep(k, e))
  {
    var k', merged := TrackStep(k, e), Merge(rows, Fold(p, e));
    forall t
      ensures At(merged.tables, t) == At(k'.rows.tables, t)
      ensures TableSound(At(rows.tables, t), At(Fold(p, e).tables, t), At(k'.settled, t))
    {
      OneMoreTable(rows, p, k, e, t);
    }
    forall s
      ensures At(merged.steps, s) == At(k'.rows.steps, s)
    {
      OneMoreStep(rows, p, k, e, s);
    }
    SameAt(merged.tables, k'.rows.tables);
    SameAt(merged.steps, k'.rows.steps);
    AloneAt(e);
    RunCommute(rows.run, p.run, e, k.cancelling);
    EventsCommute(rows, p, e);
  }

  // ---- any cut ----

  lemma {:induction false} FoldAllAppend(p: Projection, a: seq<Event>, b: seq<Event>)
    ensures FoldAll(p, a + b) == FoldAll(FoldAll(p, a), b)
  {
    if b == [] {
      assert a + b == a;
    } else {
      var n := |b| - 1;
      assert (a + b)[..|a + b| - 1] == a + b[..n];
      FoldAllAppend(p, a, b[..n]);
    }
  }

  lemma {:induction false} TrackAllAppend(k: Track, a: seq<Event>, b: seq<Event>)
    ensures TrackAll(k, a + b) == TrackAll(TrackAll(k, a), b)
  {
    if b == [] {
      assert a + b == a;
    } else {
      var n := |b| - 1;
      assert (a + b)[..|a + b| - 1] == a + b[..n];
      TrackAllAppend(k, a, b[..n]);
    }
  }

  lemma {:induction false} FitsSplit(k: Track, a: seq<Event>, b: seq<Event>)
    ensures FitsLog(k, a + b) <==> FitsLog(k, a) && FitsLog(TrackAll(k, a), b)
  {
    if b == [] {
      assert a + b == a;
    } else {
      var n := |b| - 1;
      assert (a + b)[..|a + b| - 1] == a + b[..n];
      FitsSplit(k, a, b[..n]);
      TrackAllAppend(k, a, b[..n]);
    }
  }

  /** One batch of events that fit does what storing them one by one does. */
  lemma {:induction false} BatchIsOneByOne(k: Track, batch: seq<Event>)
    requires Tracked(k) && FitsLog(k, batch)
    ensures Sound(k.rows, FoldAll(NOTHING, batch), TrackAll(k, batch)) && Tracked(TrackAll(k, batch))
    ensures Apply(k.rows, batch) == TrackAll(k, batch).rows
  {
    if batch == [] {
      MergeNothing(k.rows);
    } else {
      var before, e := batch[..|batch| - 1], batch[|batch| - 1];
      BatchIsOneByOne(k, before);
      OneMoreBatch(k.rows, FoldAll(NOTHING, before), TrackAll(k, before), e);
    }
  }

  lemma OneMoreBatch(rows: Rows, p: Projection, k: Track, e: Event)
    requires Sound(rows, p, k) && Tracked(k) && Fits(k, e)
    ensures Sound(rows, Fold(p, e), TrackStep(k, e)) && Tracked(TrackStep(k, e))
  {
    OneMoreEvent(rows, p, k, e);
    OneMoreEvent(k.rows, NOTHING, k, e);
    StillTracked(k, e);
  }

  lemma StillTracked(k: Track, e: Event)
    requires Sound(k.rows, Fold(NOTHING, e), TrackStep(k, e))
    ensures Tracked(TrackStep(k, e))
  {
    var k' := TrackStep(k, e);
    MergeNothing(k'.rows);
    MergeAt(k.rows, Fold(NOTHING, e));
    forall t
      ensures TableSound(At(k'.rows.tables, t), None, At(k'.settled, t))
    {
      assert TableSound(At(k.rows.tables, t), At(Fold(NOTHING, e).tables, t), At(k'.settled, t));
    }
  }

  /**
   Batch by batch, however the log is cut, ends in the rows that storing it event by event ends in.
   So stopping at any stored `last_seq` and replaying the rest equals never having stopped.
   */
  lemma {:induction false} AnyCut(k: Track, batches: seq<seq<Event>>)
    requires Tracked(k) && FitsLog(k, Flatten(batches))
    ensures ApplyBatches(k.rows, batches) == TrackAll(k, Flatten(batches)).rows
    decreases |batches|
  {
    if batches != [] {
      FitsSplit(k, batches[0], Flatten(batches[1..]));
      BatchIsOneByOne(k, batches[0]);
      AnyCut(TrackAll(k, batches[0]), batches[1..]);
      TrackAllAppend(k, batches[0], Flatten(batches[1..]));
    }
  }

  /** Two ways of cutting one log that fits. */
  lemma {:induction false} CutsAgree(rows: Rows, one: seq<seq<Event>>, other: seq<seq<Event>>)
    requires Flatten(one) == Flatten(other) && FitsLog(TrackFrom(rows), Flatten(one))
    ensures ApplyBatches(rows, one) == ApplyBatches(rows, other)
  {
    TrackFromTracked(rows);
    AnyCut(TrackFrom(rows), one);
    AnyCut(TrackFrom(rows), other);
  }
}
