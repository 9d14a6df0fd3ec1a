/**
 What an open page is given after its snapshot, and what it can lose: frames of the feed and pages of the
 REST catch-up (`useRunStream.ts`), each dropping what lies at or below the highest seq seen so far.
 */
module PageHoles {
  import opened Wrappers
  import opened RunEvents
  import opened RunProjection
  import opened Ingestion
  import opened BatchCuts
  import opened RunReducer
  import opened SnapshotAgreement
  import opened EndToEnd
  import Feed = RunEventFeedModel

  /** The page after some deliveries, in the order they arrive; the snapshot's own events are the first. */
  function Given(base: RunState, deliveries: seq<seq<Event>>): RunState {
    if deliveries == [] then base
    else ApplyEvents(Given(base, deliveries[..|deliveries| - 1]), deliveries[|deliveries| - 1])
  }

  lemma NothingGiven(base: RunState)
    ensures ApplyEvents(base, []) == base
  {
  }

  lemma {:induction false} FlattenLast(deliveries: seq<seq<Event>>)
    requires deliveries != []
    ensures Flatten(deliveries) == Flatten(deliveries[..|deliveries| - 1]) + deliveries[|deliveries| - 1]
  {
    var n := |deliveries| - 1;
    FlattenThen(deliveries[..n], deliveries[n]);
    assert deliveries == deliveries[..n] + [deliveries[n]];
  }

  lemma {:induction false} GivenAtOnce(base: RunState, deliveries: seq<seq<Event>>)
    ensures Given(base, deliveries) == ApplyEvents(base, Flatten(deliveries))
  {
    if deliveries == [] {
      NothingGiven(base);
    } else {
      var n := |deliveries| - 1;
      GivenAtOnce(base, deliveries[..n]);
      DeliveriesCompose(base, Flatten(deliveries[..n]), deliveries[n]);
      FlattenLast(deliveries);
    }
  }

  /** What a frame, a catch-up page and a snapshot carry: neighbouring events of the log as the cohort sees it. */
  ghost predicate Section(log: seq<Event>, events: seq<Event>) {
    exists i, j :: 0 <= i <= j <= |log| && events == log[i..j]
  }

  lemma AnyPiece(log: seq<Event>, i: nat, j: nat)
    requires i <= j <= |log|
    ensures Section(log, log[i..j])
  {
  }

  /** It does not begin beyond the first event the page still lacks. */
  predicate InTime(log: seq<Event>, last: nat, events: seq<Event>) {
    var lacking := Feed.Above(log, last);
    events == [] || lacking == [] || events[0].seqNo <= lacking[0].seqNo
  }

  ghost predicate AllInTime(log: seq<Event>, deliveries: seq<seq<Event>>) {
    deliveries != [] ==>
      var before := deliveries[..|deliveries| - 1];
      AllInTime(log, before) && InTime(log, LastOr(0, Accepted(0, Flatten(before))), deliveries[|deliveries| - 1])
  }

  // ---- one delivery ----

  lemma SplitAround(log: seq<Event>, i: nat, j: nat)
    requires i <= j <= |log|
    ensures log == log[..i] + (log[i..j] + log[j..])
  {
  }

  lemma SectionAscends(log: seq<Event>, i: nat, j: nat)
    requires Ascending(log) && i <= j <= |log|
    ensures Ascending(log[i..j])
    ensures forall k :: 0 <= k < j - i ==> log[i..j][0].seqNo <= log[i..j][k].seqNo
  {
    assert forall k :: 0 <= k < j - i ==> log[i..j][k] == log[i + k];
  }

  lemma {:induction false} FirstAbove(log: seq<Event>, n: nat, m: nat)
    requires Ascending(log) && n < |log| && Feed.Above(log[..n], m) != []
    ensures Feed.Above(log[..n], m)[0].seqNo < log[n].seqNo
  {
    Feed.AboveIsIn(log[..n], m);
    var k :| 0 <= k < n && log[..n][k] == Feed.Above(log[..n], m)[0];
    assert log[k].seqNo < log[n].seqNo;
  }

  lemma InMiddle(front: seq<Event>, x: seq<Event>, back: seq<Event>, lacking: seq<Event>)
    requires lacking == front + (x + back)
    ensures front == [] ==> x <= lacking
    ensures front != [] ==> lacking != [] && lacking[0] == front[0]
    ensures x != [] ==> lacking != []
  {
  }

  /** The news in a delivery goes on where the page stopped, if and only if it is in time. */
  lemma {:induction false} NewsGoesOn(log: seq<Event>, m: nat, i: nat, j: nat)
    requires Ascending(log) && i <= j <= |log|
    ensures Feed.Above(log[i..j], m) <= Feed.Above(log, m) <==> InTime(log, m, log[i..j])
  {
    var d, lacking := log[i..j], Feed.Above(log, m);
    SplitAround(log, i, j);
    Feed.AboveAppend(log[..i], d + log[j..], m);
    Feed.AboveAppend(d, log[j..], m);
    InMiddle(Feed.Above(log[..i], m), Feed.Above(d, m), Feed.Above(log[j..], m), lacking);
    Feed.AboveIsOver(log, m);
    SectionAscends(log, i, j);
    if !InTime(log, m, d) {
      assert Feed.Over(d, m);
      Feed.AboveAll(d, m);
    } else if d != [] && lacking != [] && Feed.Above(log[..i], m) != [] {
      FirstAbove(log, i, m);
    }
  }

  lemma PrefixTail(a: seq<Event>, x: seq<Event>, y: seq<Event>)
    ensures a + x <= a + y <==> x <= y
  {
    assert (a + x)[|a|..] == x && (a + y)[|a|..] == y;
  }

  lemma {:induction false} OneDelivery(log: seq<Event>, given: seq<Event>, d: seq<Event>)
    requires Ascending(log) && Feed.Over(log, 0) && Section(log, d) && Accepted(0, given) <= log
    ensures Accepted(0, given + d) <= log <==> InTime(log, LastOr(0, Accepted(0, given)), d)
  {
    var taken := Accepted(0, given);
    var m := LastOr(0, taken);
    var i, j :| 0 <= i <= j <= |log| && d == log[i..j];
    Feed.AboveAll(log, 0);
    Feed.TakenThenRest(log, 0, taken);
    AcceptedAppend(0, given, d);
    SectionAscends(log, i, j);
    Feed.AcceptedIsAbove(d, m);
    NewsGoesOn(log, m, i, j);
    PrefixTail(taken, Feed.Above(d, m), Feed.Above(log, m));
  }

  // ---- any deliveries ----

  /** Once the page has lost an event no delivery brings it back. */
  lemma {:induction false} HoleIsForGood(log: seq<Event>, given: seq<Event>, more: seq<Event>)
    requires !(Accepted(0, given) <= log)
    ensures !(Accepted(0, given + more) <= log)
  {
    AcceptedAppend(0, given, more);
  }

  /**
   Whatever is delivered, twice, late or out of order: the page has a first part of what its cohort sees of
   the log, nothing missing, if and only if no delivery began beyond the first event it still lacked.
   */
  lemma {:induction false} NoHoleExactly(log: seq<Event>, deliveries: seq<seq<Event>>)
    requires Ascending(log) && Feed.Over(log, 0) && forall d <- deliveries :: Section(log, d)
    ensures Accepted(0, Flatten(deliveries)) <= log <==> AllInTime(log, deliveries)
  {
    if deliveries != [] {
      var before, d := deliveries[..|deliveries| - 1], deliveries[|deliveries| - 1];
      NoHoleExactly(log, before);
      FlattenLast(deliveries);
      if Accepted(0, Flatten(before)) <= log {
        OneDelivery(log, Flatten(before), d);
      } else {
        HoleIsForGood(log, Flatten(before), d);
      }
    }
  }

  /** For the full cohort seqs have no gaps, and the page can tell: a delivery in time begins at most one above `lastSeq`. */
  lemma {:induction false} InTimeBySeq(log: seq<Event>, last: nat, events: seq<Event>)
    requires (forall i :: 0 <= i < |log| ==> log[i].seqNo == i + 1) && last <= |log|
    ensures Feed.Above(log, last) == log[last..]
    ensures InTime(log, last, events) <==> events == [] || last == |log| || events[0].seqNo <= last + 1
  {
    assert log == log[..last] + log[last..];
    Feed.AboveAppend(log[..last], log[last..], last);
    Feed.AboveNone(log[..last], last);
    Feed.AboveAll(log[last..], last);
  }

  lemma LastMeans(log: seq<Event>, taken: seq<Event>)
    requires Ascending(log) && Feed.Over(log, 0) && taken <= log
    ensures taken == log || LastOr(0, taken) < LastOr(0, log)
  {
  }

  /**
   A page whose deliveries were all in time, and that has been given the last event, shows the step and
   table rows of the whole log: from a snapshot of any moments, however many events it was short of.
   */
  lemma {:induction false} PageWithoutHoles(rows: Rows, log: seq<Event>, at: Moments, deliveries: seq<seq<Event>>, run: WireRun, redacted: bool)
    requires Past(at, log) && Ascending(log) && Feed.Over(log, 0)
    requires FitsLog(TrackFrom(rows), log) && PlansFirst(TrackFrom(rows), log)
    requires var seen := Visible(redacted, log);
             && (forall d <- deliveries :: Section(seen, d)) && AllInTime(seen, deliveries)
             && LastOr(0, Accepted(0, Flatten(deliveries))) == LastOr(0, seen)
    ensures var base := SnapshotBase(Apply(rows, log[..at.steps]), Apply(rows, log[..at.tables]), run, redacted);
            Shows(Given(base, deliveries), Apply(rows, log))
  {
    var seen := Visible(redacted, log);
    var base := SnapshotBase(Apply(rows, log[..at.steps]), Apply(rows, log[..at.tables]), run, redacted);
    VisibleAscends(log, redacted, 0);
    NoHoleExactly(seen, deliveries);
    LastMeans(seen, Accepted(0, Flatten(deliveries)));
    GivenAtOnce(base, deliveries);
    OverlapIsDropped(base, Flatten(deliveries));
    assert log[0..] == log;
    ViewerEndsWithDatabase(rows, log, 0, at.steps, at.tables, run, redacted);
  }

  // ---- a page that loses an event ----

  /** One event, from the store to the sockets, by a feed that rests. */
  function RelayStep(e: Event, n: nat): Feed.Step {
    if n == 0 then Feed.Store([e]) else if n == 1 then Feed.Notified(e.seqNo) else if n == 2 then Feed.PageArrives
    else if n == 3 then Feed.PublishOk else Feed.Drained
  }

  function Relay(e: Event, n: nat): seq<Feed.Step> {
    if n == 0 then [] else Relay(e, n - 1) + [RelayStep(e, n - 1)]
  }

  function Resting(log: seq<Event>, published: seq<Event>): Feed.Watch {
    var last := LastOr(0, log);
    Feed.Watch(log, Feed.Cursor(last, Feed.NoRead, false, false), published, last)
  }

  lemma PageOfOne(log: seq<Event>, e: Event, pageSize: nat)
    requires 1 < pageSize && Feed.Under(log, LastOr(0, log)) && LastOr(0, log) < e.seqNo
    ensures Feed.PageAfter(log + [e], LastOr(0, log), pageSize) == [e]
  {
    Feed.AboveAppend(log, [e], LastOr(0, log));
    Feed.AboveNone(log, LastOr(0, log));
    Feed.AboveHead(e, LastOr(0, log));
  }

  /** The feed between the five steps. */
  function Relaying(log: seq<Event>, published: seq<Event>, e: Event, n: nat): Feed.Watch {
    var last := LastOr(0, log);
    if n == 0 then Resting(log, published)
    else if n == 1 then Feed.Watch(log + [e], Feed.Cursor(last, Feed.NoRead, false, false), published, last)
    else if n == 2 then Feed.Watch(log + [e], Feed.Cursor(last, Feed.Asked, false, false), published, e.seqNo)
    else if n == 3 then Feed.Watch(log + [e], Feed.Cursor(last, Feed.Got([e]), false, false), published, e.seqNo)
    else if n == 4 then Feed.Watch(log + [e], Feed.Cursor(e.seqNo, Feed.Ended, false, false), published + [e], e.seqNo)
    else Resting(log + [e], published + [e])
  }

  lemma StoreRelays(log: seq<Event>, published: seq<Event>, e: Event, pageSize: nat)
    requires Ascending(log) && Feed.Under(log, LastOr(0, log)) && LastOr(0, log) < e.seqNo
    ensures Feed.Enabled(Relaying(log, published, e, 0), RelayStep(e, 0))
    ensures Feed.Apply(Relaying(log, published, e, 0), RelayStep(e, 0), pageSize) == Relaying(log, published, e, 1)
  {
    Feed.AscendingThen(log, e, LastOr(0, log));
  }

  lemma ReadRelays(log: seq<Event>, published: seq<Event>, e: Event, pageSize: nat)
    requires 1 < pageSize && Feed.Under(log, LastOr(0, log)) && LastOr(0, log) < e.seqNo
    ensures Feed.Apply(Relaying(log, published, e, 2), Feed.PageArrives, pageSize) == Relaying(log, published, e, 3)
  {
    PageOfOne(log, e, pageSize);
  }

  lemma StepRelays(log: seq<Event>, published: seq<Event>, e: Event, n: nat, pageSize: nat)
    requires 1 < pageSize && LastOr(0, log) < e.seqNo && (n == 1 || n == 3 || n == 4)
    ensures Feed.Enabled(Relaying(log, published, e, n), RelayStep(e, n))
    ensures Feed.Apply(Relaying(log, published, e, n), RelayStep(e, n), pageSize) == Relaying(log, published, e, n + 1)
  {
  }

  lemma {:induction false} RelayRuns(log: seq<Event>, published: seq<Event>, e: Event, n: nat, pageSize: nat)
    requires 1 < pageSize && Ascending(log) && Feed.Under(log, LastOr(0, log)) && LastOr(0, log) < e.seqNo && n <= 5
    ensures Feed.IsRun(Resting(log, published), Relay(e, n), pageSize)
    ensures Feed.Outcome(Resting(log, published), Relay(e, n), pageSize) == Relaying(log, published, e, n)
  {
    if n > 0 {
      RelayRuns(log, published, e, n - 1, pageSize);
      if n == 1 {
        StoreRelays(log, published, e, pageSize);
      } else if n == 3 {
        ReadRelays(log, published, e, pageSize);
      } else {
        StepRelays(log, published, e, n - 1, pageSize);
      }
      Feed.RunThen(Resting(log, published), Relay(e, n - 1), RelayStep(e, n - 1), pageSize);
    }
  }

  function Relayed(e: Event): seq<Feed.Step> {
    Relay(e, 5)
  }

  lemma {:induction false} EventRelayed(log: seq<Event>, published: seq<Event>, e: Event, pageSize: nat)
    requires 1 < pageSize && Ascending(log) && Feed.Under(log, LastOr(0, log)) && LastOr(0, log) < e.seqNo
    ensures Feed.IsRun(Resting(log, published), Relayed(e), pageSize)
    ensures Feed.Outcome(Resting(log, published), Relayed(e), pageSize) == Resting(log + [e], published + [e])
  {
    RelayRuns(log, published, e, 5, pageSize);
  }

  const PAGE_SIZE: nat := 500

  /** What the page is given: nothing in its snapshot, the second event's frame, and the answer to a catch-up that asked for both. */
  function Overtaken(first: Event, second: Event): seq<seq<Event>> {
    [[], [second], [first, second]]
  }

  lemma {:induction false} AcceptedOne(last: nat, e: Event)
    ensures Accepted(last, [e]) == if e.seqNo <= last then [] else [e]
  {
    assert [e][1..] == [];
  }

  lemma {:induction false} AcceptedTwo(last: nat, first: Event, second: Event)
    requires first.seqNo < second.seqNo <= last
    ensures Accepted(last, [first, second]) == []
  {
    assert [first, second][1..] == [second];
    AcceptedOne(last, second);
  }

  lemma {:induction false} OvertakenShows(base: RunState, first: Event, second: Event)
    requires first.seqNo < second.seqNo && base.lastSeq == 0 < second.seqNo
    ensures Given(base, Overtaken(first, second)) == ApplyEvents(base, [second])
  {
    var page := ApplyEvents(base, [second]);
    NothingGiven(base);
    AcceptedOne(0, second);
    ReduceAllLast(base, [second]);
    AcceptedTwo(second.seqNo, first, second);
    assert ApplyEvents(page, [first, second]) == ApplyEvents(page, []);
    NothingGiven(page);
    assert Overtaken(first, second)[..2] == [[], [second]];
    assert [[], [second]][..1] == [[]];
    assert Given(base, []) == base;
    assert Given(base, [[]]) == base;
    assert Given(base, [[], [second]]) == page;
  }

  lemma StepIsStored(rows: Rows, first: Event, second: Event, s: string)
    requires s !in rows.steps && first.body.StepStarted? && first.body.stepId == s && second.body.OverallProgress?
    ensures At(Apply(rows, [first, second]).steps, s).Some? && At(Apply(rows, [first, second]).steps, s).value.status == "running"
  {
    var one := Fold(NOTHING, first);
    assert [first, second][..1] == [first] && [first][..0] == [];
    assert FoldAll(NOTHING, [first]) == one;
    assert FoldAll(NOTHING, [first, second]) == Fold(one, second);
    FoldAt(NOTHING, first);
    FoldAt(one, second);
    MergeAt(rows, Fold(one, second));
  }

  lemma ProgressIsNoStep(base: RunState, e: Event)
    requires e.body.OverallProgress?
    ensures Reduce(base, e).steps == base.steps
  {
  }

  lemma ProgressShowsNoStep(base: RunState, e: Event)
    requires base.lastSeq < e.seqNo && e.body.OverallProgress?
    ensures ApplyEvents(base, [e]).steps == base.steps
  {
    AcceptedOne(base.lastSeq, e);
    assert [] + [e] == [e];
    ReduceThen(base, [], e);
    ProgressIsNoStep(base, e);
  }

  lemma StillPending(rows: Rows, run: WireRun, s: string)
    requires s in STEP_ORDER && s !in rows.steps
    ensures At(SnapshotBase(rows, rows, run, false).steps, s) == Some(ToStepView(None))
  {
    StepViewAt(rows, s);
  }

  /** The feed's side: one event relayed before the snapshot is sent, one after it. */
  lemma FramesEitherSide(first: Event, second: Event)
    requires first.seqNo == 1 && second.seqNo == 2
    ensures var tracked, sent := Resting([], []), Resting([first], []);
            && Feed.Init(tracked, 0, PAGE_SIZE) && Feed.IsRun(tracked, Relayed(first), PAGE_SIZE)
            && Feed.Outcome(tracked, Relayed(first), PAGE_SIZE) == sent.(published := [first])
            && Feed.Init(sent, 1, PAGE_SIZE) && Feed.IsRun(sent, Relayed(second), PAGE_SIZE)
            && Feed.Outcome(sent, Relayed(second), PAGE_SIZE).published == [second]
  {
    EventRelayed([], [], first, PAGE_SIZE);
    EventRelayed([first], [], second, PAGE_SIZE);
    assert [] + [first] == [first] && [] + [second] == [second];
  }

  /**
   A page that loses one. The snapshot is read before the first event is stored. Its frame reaches the page
   ahead of the snapshot, which replaces it. The catch-up asks for everything above 0; before it is answered
   the second event's frame arrives and raises `lastSeq`, and the answer is dropped as old. The step that
   began with the first event is running in the database, and pending on the page.
   */
  lemma OvertakenEventIsLost(rows: Rows, run: WireRun, first: Event, second: Event)
    requires first.seqNo == 1 && first.body.StepStarted? && first.body.stepId in STEP_ORDER && first.body.stepId !in rows.steps
    requires second.seqNo == 2 && second.body.OverallProgress?
    ensures !InTime([first, second], 0, [second])
    ensures !Shows(Given(SnapshotBase(rows, rows, run, false), Overtaken(first, second)), Apply(rows, [first, second]))
  {
    var base, s := SnapshotBase(rows, rows, run, false), first.body.stepId;
    InTimeBySeq([first, second], 0, [second]);
    OvertakenShows(base, first, second);
    ProgressShowsNoStep(base, second);
    StillPending(rows, run, s);
    StepIsStored(rows, first, second, s);
    StepViewAt(Apply(rows, [first, second]), s);
  }
}
