/**
 The pieces put together: from the writer's pushes to the stored rows, and from the stored log through the
 feed to a page that was opened while the run went on.
 */
module EndToEnd {
  import opened Wrappers
  import opened RunEvents
  import opened RunProjection
  import opened Ingestion
  import opened BatchCuts
  import opened RunReducer
  import opened SnapshotAgreement
  import Feed = RunEventFeedModel
  import Writer = EventWriterModel

  // ---- from pushes to rows ----

  lemma {:induction false} OneBatch(rows: Rows, log: seq<Event>)
    ensures ApplyBatches(rows, [log]) == Apply(rows, log) && Flatten([log]) == log
  {
    assert [log][1..] == [];
    assert log + [] == log;
  }

  /**
   Whatever the timer, full batches and flushes cut a run's events into, once the writer rests the stored
   rows are those of everything it accepted, stored as one batch.
   */
  lemma {:induction false} WritesLandAsOne(steps: seq<Writer.Step>, maxBatch: nat, maxLogs: nat, rows: Rows)
    requires var w := Writer.Outcome(steps, maxBatch, maxLogs);
             && !w.timer && w.lane.inFlight.None? && !Writer.Waiting(w.lane)
             && FitsLog(TrackFrom(rows), w.lane.accepted)
    ensures var l := Writer.Outcome(steps, maxBatch, maxLogs).lane;
            ApplyBatches(rows, l.handed) == Apply(rows, l.accepted)
  {
    var l := Writer.Outcome(steps, maxBatch, maxLogs).lane;
    Writer.NothingLeftBehind(steps, maxBatch, maxLogs);
    OneBatch(rows, l.accepted);
    CutsAgree(rows, l.handed, [l.accepted]);
  }

  // ---- from the log to an open page ----

  /** What passes a higher bar is what passed a lower one, above the bar. */
  lemma {:induction false} HigherBar(s: nat, m: nat, events: seq<Event>)
    requires s <= m
    ensures Accepted(m, events) == Feed.Above(Accepted(s, events), m)
    decreases |events|
  {
    if events != [] {
      var e, rest := events[0], events[1..];
      if e.seqNo <= s {
        HigherBar(s, m, rest);
      } else {
        Feed.AboveAppend([e], Accepted(e.seqNo, rest), m);
        Feed.AboveHead(e, m);
        if e.seqNo <= m {
          HigherBar(e.seqNo, m, rest);
        } else {
          AcceptedIsOver(e.seqNo, rest);
          Feed.OverLower(Accepted(e.seqNo, rest), m, e.seqNo);
          Feed.AboveAll(Accepted(e.seqNo, rest), m);
        }
      }
    }
  }

  lemma {:induction false} AcceptedIsOver(s: nat, events: seq<Event>)
    ensures Feed.Over(Accepted(s, events), s)
  {
    AcceptedAscends(s, events);
  }

  lemma {:induction false} AboveTheStored(stored: seq<Event>, more: seq<Event>)
    requires Ascending(stored + more) && Feed.Over(stored + more, 0)
    ensures Feed.Above(stored + more, LastOr(0, stored)) == more && Accepted(0, stored) == stored
  {
    var m := LastOr(0, stored);
    Feed.AscendingPieces(stored, more, 0);
    Feed.AboveNone(stored, m);
    Feed.AboveAll(more, m);
    Feed.AboveAppend(stored, more, m);
    assert forall i :: 0 <= i < |stored| ==> (stored + more)[i] == stored[i];
    AcceptedTwice(0, stored);
  }

  // ---- what a cohort sees ----

  lemma {:induction false} NoLogsAppend(a: seq<Event>, b: seq<Event>)
    ensures NoLogs(a + b) == NoLogs(a) + NoLogs(b)
    decreases |a|
  {
    if a == [] {
      assert a + b == b;
    } else {
      assert (a + b)[1..] == a[1..] + b;
      NoLogsAppend(a[1..], b);
    }
  }

  lemma {:induction false} NoLogsHas(events: seq<Event>, e: Event)
    ensures e in NoLogs(events) <==> e in events && !e.body.Log?
    decreases |events|
  {
    if events != [] {
      NoLogsHas(events[1..], e);
    }
  }

  lemma {:induction false} AboveThen(log: seq<Event>, e: Event, s: nat)
    ensures Feed.Above(log + [e], s) == if s < e.seqNo then Feed.Above(log, s) + [e] else Feed.Above(log, s)
  {
    assert (log + [e])[..|log|] == log;
  }

  lemma {:induction false} AcceptedThen(s: nat, events: seq<Event>, e: Event)
    ensures var taken := Accepted(s, events);
            Accepted(s, events + [e]) == if e.seqNo <= LastOr(s, taken) then taken else taken + [e]
  {
    AcceptedAppend(s, events, [e]);
    assert [e][1..] == [];
  }

  lemma {:induction false} NoLogsAbove(log: seq<Event>, s: nat)
    ensures NoLogs(Feed.Above(log, s)) == Feed.Above(NoLogs(log), s)
  {
    if log != [] {
      var before, e := log[..|log| - 1], log[|log| - 1];
      NoLogsAbove(before, s);
      assert log == before + [e];
      NoLogsThen(before, e);
      AboveThen(before, e, s);
      NoLogsThen(Feed.Above(before, s), e);
      AboveThen(NoLogs(before), e, s);
    }
  }

  lemma {:induction false} NoLogsReach(taken: seq<Event>, s: nat)
    requires Ascending(taken) && Feed.Over(taken, s)
    ensures s <= LastOr(s, NoLogs(taken)) <= LastOr(s, taken) && Feed.Under(NoLogs(taken), LastOr(s, NoLogs(taken)))
  {
    NoLogsAscend(taken, s);
    if NoLogs(taken) != [] {
      NoLogsHas(taken, NoLogs(taken)[|NoLogs(taken)| - 1]);
    }
  }

  /** An event of the log at or below what has been taken, and above the start, has been taken. */
  lemma {:induction false} TakenHolds(log: seq<Event>, start: nat, taken: seq<Event>, e: Event)
    requires Ascending(log) && taken <= Feed.Above(log, start) && e in log && start < e.seqNo <= LastOr(start, taken)
    ensures e in taken
  {
    Feed.TakenThenRest(log, start, taken);
    Feed.AboveHas(log, start, e);
    Feed.AboveIsOver(log, LastOr(start, taken));
  }

  /** What the redacted cohort has taken reaches as far as it can see. */
  lemma {:induction false} TakenReach(log: seq<Event>, start: nat, taken: seq<Event>, e: Event)
    requires Ascending(log) && taken <= Feed.Above(log, start) && e in log && !e.body.Log?
    ensures e.seqNo <= LastOr(start, NoLogs(taken)) <==> e.seqNo <= LastOr(start, taken)
  {
    Feed.TakenThenRest(log, start, taken);
    Feed.AboveAscends(log, start);
    Feed.AboveIsOver(log, start);
    Feed.AscendingPieces(taken, Feed.Above(log, LastOr(start, taken)), start);
    assert forall i :: 0 <= i < |taken| ==> taken[i] == Feed.Above(log, start)[i];
    NoLogsReach(taken, start);
    if start < e.seqNo <= LastOr(start, taken) {
      TakenHolds(log, start, taken, e);
      NoLogsHas(taken, e);
    }
  }

  lemma {:induction false} RedactedThen(log: seq<Event>, start: nat, before: seq<Event>, e: Event)
    requires Ascending(log) && e in log && Accepted(start, before) <= Feed.Above(log, start)
    requires Accepted(start, NoLogs(before)) == NoLogs(Accepted(start, before))
    ensures Accepted(start, NoLogs(before + [e])) == NoLogs(Accepted(start, before + [e]))
  {
    NoLogsThen(before, e);
    AcceptedThen(start, before, e);
    NoLogsThen(Accepted(start, before), e);
    if !e.body.Log? {
      AcceptedThen(start, NoLogs(before), e);
      TakenReach(log, start, Accepted(start, before), e);
    }
  }

  /** Withholding the log lines and dropping the repeats may be done in either order. */
  lemma {:induction false} RedactedAccepted(log: seq<Event>, start: nat, published: seq<Event>)
    requires Ascending(log) && Feed.AllIn(published, log) && Accepted(start, published) <= Feed.Above(log, start)
    ensures Accepted(start, NoLogs(published)) == NoLogs(Accepted(start, published))
  {
    if published != [] {
      var before, e := published[..|published| - 1], published[|published| - 1];
      assert published == before + [e];
      AcceptedThen(start, before, e);
      RedactedAccepted(log, start, before);
      RedactedThen(log, start, before, e);
    }
  }

  /** What a cohort is sent of the feed's frames, repeats dropped. */
  lemma {:induction false} VisibleAccepted(log: seq<Event>, start: nat, published: seq<Event>, redacted: bool)
    requires Ascending(log) && Feed.AllIn(published, log) && Accepted(start, published) == Feed.Above(log, start)
    ensures Accepted(start, Visible(redacted, published)) == Feed.Above(Visible(redacted, log), start)
  {
    RedactedAccepted(log, start, published);
    NoLogsAbove(log, start);
  }

  /** With nothing between two bars, it does not matter which is held up. */
  lemma {:induction false} SameBar(m: nat, s: nat, events: seq<Event>)
    requires m <= s && forall i :: 0 <= i < |events| ==> events[i].seqNo <= m || s < events[i].seqNo
    ensures Accepted(m, events) == Accepted(s, events)
    decreases |events|
  {
    if events != [] && events[0].seqNo <= m {
      SameBar(m, s, events[1..]);
    }
  }

  lemma Parts(a: seq<Event>, b: seq<Event>, s: nat)
    requires Ascending(a + b) && Feed.Over(a + b, s)
    ensures Ascending(a) && Feed.Over(a, s) && Feed.Under(a, LastOr(s, a)) && Ascending(b) && Feed.Over(b, LastOr(s, a))
  {
    Feed.AscendingPieces(a, b, s);
    assert forall i :: 0 <= i < |a| ==> (a + b)[i] == a[i];
    assert forall i :: 0 <= i < |b| ==> (a + b)[|a| + i] == b[i];
  }

  lemma VisibleAscends(events: seq<Event>, redacted: bool, s: nat)
    requires Ascending(events) && Feed.Over(events, s)
    ensures Ascending(Visible(redacted, events)) && Feed.Over(Visible(redacted, events), s)
  {
    NoLogsAscend(events, s);
  }

  lemma VisibleAppend(a: seq<Event>, b: seq<Event>, redacted: bool)
    ensures Visible(redacted, a + b) == Visible(redacted, a) + Visible(redacted, b)
  {
    NoLogsAppend(a, b);
  }

  /** The events a cohort sees of a stored part, and of the rest of the log. */
  lemma VisibleParts(stored: seq<Event>, more: seq<Event>, redacted: bool)
    requires Ascending(stored + more) && Feed.Over(stored + more, 0)
    ensures var seen, rest := Visible(redacted, stored), Visible(redacted, more);
            && Visible(redacted, stored + more) == seen + rest
            && Ascending(seen + rest) && Feed.Over(seen + rest, 0)
            && Feed.Under(seen, LastOr(0, seen)) && Feed.Over(rest, LastOr(0, stored)) && Feed.Over(rest, LastOr(0, seen))
  {
    VisibleAppend(stored, more, redacted);
    VisibleAscends(stored + more, redacted, 0);
    Parts(Visible(redacted, stored), Visible(redacted, more), 0);
    Parts(stored, more, 0);
    VisibleAscends(more, redacted, LastOr(0, stored));
  }

  /** A repeat from before the bar, or news: nothing a cohort is sent lies between what it saw and what was stored. */
  lemma NothingBetween(stored: seq<Event>, more: seq<Event>, start: nat, published: seq<Event>, redacted: bool)
    requires Ascending(stored + more) && Feed.Over(stored + more, 0) && start <= LastOr(0, stored)
    requires Feed.AllIn(published, stored + more)
    ensures var shown, m := Visible(redacted, published), LastOr(0, Visible(redacted, stored));
            forall i :: 0 <= i < |shown| ==> shown[i].seqNo <= m || start < shown[i].seqNo
  {
    var shown, m := Visible(redacted, published), LastOr(0, Visible(redacted, stored));
    VisibleParts(stored, more, redacted);
    forall i | 0 <= i < |shown|
      ensures shown[i].seqNo <= m || start < shown[i].seqNo
    {
      NoLogsHas(published, shown[i]);
      NoLogsHas(stored + more, shown[i]);
      assert shown[i] in Visible(redacted, stored) + Visible(redacted, more);
    }
  }

  /** Frames from `start` on, to a page that has seen up to `m`, none of its cohort's events lying between. */
  lemma {:induction false} FramesAbove(seen: seq<Event>, rest: seq<Event>, start: nat, m: nat, shown: seq<Event>)
    requires Feed.Under(seen, m) && Feed.Over(rest, m) && Feed.Over(rest, start)
    requires Accepted(start, shown) == Feed.Above(seen + rest, start)
    requires forall i :: 0 <= i < |shown| ==> shown[i].seqNo <= m || start < shown[i].seqNo
    ensures Accepted(m, shown) == rest
  {
    Feed.AboveAppend(seen, rest, m);
    Feed.AboveNone(seen, m);
    Feed.AboveAll(rest, m);
    if start <= m {
      HigherBar(start, m, shown);
      Feed.AboveTwice(seen + rest, start, m);
    } else {
      SameBar(m, start, shown);
      Feed.AboveAppend(seen, rest, start);
      Feed.AboveNone(seen, start);
      Feed.AboveAll(rest, start);
    }
  }

  /** The events of the snapshot and the frames behind it are, repeats dropped, all the cohort sees of the log. */
  lemma {:induction false} SnapshotThenFrames(stored: seq<Event>, more: seq<Event>, start: nat, published: seq<Event>, redacted: bool)
    requires Ascending(stored + more) && Feed.Over(stored + more, 0) && start <= LastOr(0, stored)
    requires Feed.AllIn(published, stored + more) && Accepted(start, published) == Feed.Above(stored + more, start)
    ensures Accepted(0, Visible(redacted, stored) + Visible(redacted, published)) == Visible(redacted, stored + more)
  {
    var seen, rest, shown := Visible(redacted, stored), Visible(redacted, more), Visible(redacted, published);
    VisibleParts(stored, more, redacted);
    VisibleAccepted(stored + more, start, published, redacted);
    NothingBetween(stored, more, start, published, redacted);
    Feed.OverLower(rest, start, LastOr(0, stored));
    FramesAbove(seen, rest, start, LastOr(0, seen), shown);
    AboveTheStored(seen, rest);
    AcceptedAppend(0, seen, shown);
  }

  /** Two deliveries fold as the events of both that count. */
  lemma {:induction false} FoldsAccepted(base: RunState, first: seq<Event>, second: seq<Event>, all: seq<Event>)
    requires Accepted(base.lastSeq, first + second) == all
    ensures ApplyEvents(ApplyEvents(base, first), second) == ApplyEvents(base, all)
  {
    DeliveriesCompose(base, first, second);
    OverlapIsDropped(base, first + second);
  }

  const RECENT_EVENT_LIMIT: nat := 500

  /** The events a snapshot carries: the oldest, up to its limit. */
  function SnapshotEvents(stored: seq<Event>): seq<Event> {
    if |stored| <= RECENT_EVENT_LIMIT then stored else stored[..RECENT_EVENT_LIMIT]
  }

  /** The moments of a snapshot's three statements: how much of the log each saw. */
  datatype Moments = Moments(steps: nat, tables: nat, events: nat)

  predicate Past(at: Moments, log: seq<Event>) {
    at.steps <= |log| && at.tables <= |log| && at.events <= |log|
  }

  lemma AnyMoment(log: seq<Event>, i: nat, j: nat, k: nat)
    ensures Past(Moments(i, j, k), log) <==> Max(i, Max(j, k)) <= |log|
  {
  }

  /** The snapshot frame applied: rows as stored by two of the moments, and what the cohort sees of the events stored by the third. */
  function PageOpened(rows: Rows, log: seq<Event>, at: Moments, run: WireRun, redacted: bool): RunState
    requires Past(at, log)
  {
    ApplySnapshot(Apply(rows, log[..at.steps]), Apply(rows, log[..at.tables]), run, redacted,
                  SnapshotEvents(Visible(redacted, log[..at.events])))
  }

  /** A page that has been given, repeats dropped, all its cohort sees of the log. */
  lemma {:induction false} PageShowsLog(rows: Rows, log: seq<Event>, at: Moments, run: WireRun, redacted: bool, given: seq<Event>)
    requires Past(at, log) && Ascending(log) && Feed.Over(log, 0)
    requires FitsLog(TrackFrom(rows), log) && PlansFirst(TrackFrom(rows), log)
    requires Accepted(0, SnapshotEvents(Visible(redacted, log[..at.events])) + given) == Visible(redacted, log)
    ensures Shows(ApplyEvents(PageOpened(rows, log, at, run, redacted), given), Apply(rows, log))
  {
    var base := SnapshotBase(Apply(rows, log[..at.steps]), Apply(rows, log[..at.tables]), run, redacted);
    FoldsAccepted(base, SnapshotEvents(Visible(redacted, log[..at.events])), given, Visible(redacted, log));
    assert log[0..] == log;
    ViewerEndsWithDatabase(rows, log, 0, at.steps, at.tables, run, redacted);
  }

  lemma {:induction false} GivenAll(log: seq<Event>, stored: seq<Event>, start: nat, published: seq<Event>, redacted: bool)
    requires stored <= log && Ascending(log) && Feed.Over(log, 0) && start <= LastOr(0, stored)
    requires Feed.AllIn(published, log) && Accepted(start, published) == Feed.Above(log, start)
    ensures Accepted(0, Visible(redacted, stored) + Visible(redacted, published)) == Visible(redacted, log)
  {
    var more := Feed.PrefixRest(log, stored);
    SnapshotThenFrames(stored, more, start, published, redacted);
  }

  /**
   A page joins a run's room, and its snapshot is read some time after: step rows, table rows and events at
   three moments of their own, no more events than it carries, and log lines only for the full cohort. `start`
   is where the feed is when the snapshot is sent, and no frame ran ahead of the events it holds. Whatever the
   feed goes through afterwards, once it rests with the last stored event announced the page shows the step
   and table rows of the whole log.
   */
  lemma {:induction false} LiveViewerEndsWithDatabase(w: Feed.Watch, steps: seq<Feed.Step>, start: nat, pageSize: nat, rows: Rows,
                                   at: Moments, run: WireRun, redacted: bool)
    requires 1 <= pageSize && Feed.Init(w, start, pageSize) && Feed.IsRun(w, steps, pageSize)
    requires var end := Feed.Outcome(w, steps, pageSize);
             && end.cursor.reading.NoRead? && !end.cursor.retry && end.notified == Feed.LastSeq(end.log)
             && Past(at, end.log) && start <= LastOr(0, end.log[..at.events])
             && |Visible(redacted, end.log[..at.events])| <= RECENT_EVENT_LIMIT
             && Feed.Over(end.log, 0) && FitsLog(TrackFrom(rows), end.log) && PlansFirst(TrackFrom(rows), end.log)
    ensures var end := Feed.Outcome(w, steps, pageSize);
            Shows(ApplyEvents(PageOpened(rows, end.log, at, run, redacted), Visible(redacted, end.published)), Apply(rows, end.log))
  {
    var end := Feed.Outcome(w, steps, pageSize);
    Feed.RunKeepsInv(w, steps, start, pageSize);
    Feed.NoLostNotification(w, steps, start, pageSize);
    Feed.PublishedIsStored(w, steps, start, pageSize);
    GivenAll(end.log, end.log[..at.events], start, end.published, redacted);
    PageShowsLog(rows, end.log, at, run, redacted, Visible(redacted, end.published));
  }
}
