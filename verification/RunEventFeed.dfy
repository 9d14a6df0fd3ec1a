/**
 The feed that turns notifications into events (`run-event-feed.ts`): a cursor per watched run, reads
 that never overlap, one re-read after a notification that arrived meanwhile, and a retry after a
 failure. Each `await` of the source ends a step here.
 */
module RunEventFeedModel {
  import opened Wrappers
  import opened RunEvents
  import opened RunProjection
  import opened RunReducer

  datatype Reading =
    | NoRead
    /** `readAfter` is under way. */
    | Asked
    /** Its page has arrived and is about to be published. */
    | Got(page: seq<Event>)
    /** The drain is over; its `finally` has not run yet. */
    | Ended

  datatype Cursor = Cursor(seqNo: nat, reading: Reading, again: bool, retry: bool)

  function Pull(c: Cursor): Cursor {
    if c.reading.NoRead? then c.(reading := Asked) else c.(again := true)
  }

  function AfterNotify(c: Cursor, lastSeq: nat): Cursor {
    if lastSeq <= c.seqNo && c.reading.NoRead? then c else Pull(c)
  }

  /** A page published: the cursor moves past it, and a full page asks for the next. */
  function AfterPublish(c: Cursor, page: seq<Event>, pageSize: nat): Cursor {
    if page == [] then c.(reading := Ended)
    else c.(seqNo := page[|page| - 1].seqNo, reading := if |page| < pageSize then Ended else Asked)
  }

  function AfterFailure(c: Cursor): Cursor {
    c.(reading := Ended, retry := true)
  }

  function AfterFinally(c: Cursor): Cursor {
    var idle := c.(reading := NoRead, again := false);
    if c.again then Pull(idle) else idle
  }

  function AfterRetry(c: Cursor): Cursor {
    Pull(c.(retry := false))
  }

  /** A read starts, unless one is under way: then another is to follow it. */
  predicate IsPulled(c: Cursor, pulled: Cursor) {
    && pulled.seqNo == c.seqNo && pulled.retry == c.retry
    && (c.reading.NoRead? ==> pulled.reading == Asked && pulled.again == c.again)
    && (!c.reading.NoRead? ==> pulled.reading == c.reading && pulled.again)
  }

  /** The feed's cursors, one handler per callback of the source. */
  class RunEventFeed {
    const pageSize: nat
    var cursors: map<string, Cursor>

    constructor (pageSize: nat := 500)
      ensures this.pageSize == pageSize && cursors == map[]
    {
      this.pageSize, cursors := pageSize, map[];
    }

    /** A run already followed keeps its cursor. */
    method Track(run: string, currentSeq: nat)
      modifies this
      ensures cursors == if run in old(cursors) then old(cursors) else old(cursors)[run := Cursor(currentSeq, NoRead, false, false)]
    {
      if run !in cursors {
        cursors := cursors[run := Cursor(currentSeq, NoRead, false, false)];
      }
    }

    method Notify(run: string, lastSeq: nat, watched: bool)
      modifies this
      ensures cursors == if run !in old(cursors) then old(cursors)
                         else if !watched then old(cursors) - {run}
                         else old(cursors)[run := AfterNotify(old(cursors)[run], lastSeq)]
      ensures watched && run in old(cursors) ==> run in cursors
      ensures watched && run in old(cursors) ==>
                if old(cursors)[run].reading.NoRead? && lastSeq <= old(cursors)[run].seqNo then cursors[run] == old(cursors)[run]
                else IsPulled(old(cursors)[run], cursors[run])
    {
      if run !in cursors {
        return;
      }
      if !watched {
        cursors := cursors - {run};
        return;
      }
      if lastSeq <= cursors[run].seqNo && cursors[run].reading.NoRead? {
        return;
      }
      PullRun(run);
    }

    method PullRun(run: string)
      requires run in cursors
      modifies this
      ensures cursors == old(cursors)[run := Pull(old(cursors)[run])]
      ensures IsPulled(old(cursors)[run], cursors[run])
    {
      var c := cursors[run];
      if !c.reading.NoRead? {
        cursors := cursors[run := c.(again := true)];
      } else {
        cursors := cursors[run := c.(reading := Asked)];
      }
    }

    /** The listener reconnected: read past every cursor still watched. */
    method Resync(watched: set<string>)
      modifies this
      ensures cursors == map r <- old(cursors) | r in watched :: Pull(old(cursors)[r])
      ensures cursors.Keys == old(cursors).Keys * watched && forall r <- cursors :: IsPulled(old(cursors)[r], cursors[r])
    {
      var left := cursors.Keys;
      while left != {}
        invariant left <= old(cursors).Keys
        invariant forall r :: At(cursors, r) ==
                    if r !in old(cursors) then None
                    else if r in left then Some(old(cursors)[r])
                    else if r in watched then Some(Pull(old(cursors)[r])) else None
        decreases left
      {
        var r :| r in left;
        left := left - {r};
        assert At(cursors, r) == Some(old(cursors)[r]);
        if r !in watched {
          cursors := cursors - {r};
        } else {
          PullRun(r);
        }
      }
      SameAt(cursors, map r <- old(cursors) | r in watched :: Pull(old(cursors)[r]));
    }

    method OnPage(run: string, page: seq<Event>, published: bool)
      requires run in cursors
      modifies this
      ensures cursors == old(cursors)[run := if page == [] || published then AfterPublish(old(cursors)[run], page, pageSize)
                                             else AfterFailure(old(cursors)[run])]
      ensures run in cursors && forall r :: r != run ==> At(cursors, r) == At(old(cursors), r)
      // A published page is left behind, whole; a full one is followed by another read, any other ends the drain.
      ensures page != [] && published ==> cursors[run].seqNo == page[|page| - 1].seqNo && cursors[run].retry == old(cursors)[run].retry
      ensures page != [] && published ==> if |page| >= pageSize then cursors[run].reading == Asked else cursors[run].reading == Ended
      ensures page == [] ==> cursors[run] == old(cursors)[run].(reading := Ended)
      // One that could not be published is read again, by a retry.
      ensures page != [] && !published ==>
                cursors[run].seqNo == old(cursors)[run].seqNo && cursors[run].retry && cursors[run].reading == Ended
    {
      var c := cursors[run];
      if page == [] {
        cursors := cursors[run := c.(reading := Ended)];
      } else if !published {
        OnReadFailed(run);
      } else if |page| < pageSize {
        cursors := cursors[run := c.(seqNo := page[|page| - 1].seqNo, reading := Ended)];
      } else {
        cursors := cursors[run := c.(seqNo := page[|page| - 1].seqNo, reading := Asked)];
      }
    }

    method OnReadFailed(run: string)
      requires run in cursors
      modifies this
      ensures cursors == old(cursors)[run := AfterFailure(old(cursors)[run])]
      ensures cursors[run] == old(cursors)[run].(reading := Ended, retry := true)
    {
      cursors := cursors[run := cursors[run].(reading := Ended, retry := true)];
    }

    method OnDrained(run: string)
      requires run in cursors
      modifies this
      ensures cursors == old(cursors)[run := AfterFinally(old(cursors)[run])]
      ensures cursors[run] == old(cursors)[run].(reading := if old(cursors)[run].again then Asked else NoRead, again := false)
    {
      var c := cursors[run];
      cursors := cursors[run := c.(reading := NoRead, again := false)];
      if c.again {
        PullRun(run);
      }
    }

    method OnRetry(run: string, watched: bool)
      requires run in cursors
      modifies this
      ensures cursors == if watched then old(cursors)[run := AfterRetry(old(cursors)[run])] else old(cursors) - {run}
      ensures watched ==> run in cursors && IsPulled(old(cursors)[run].(retry := false), cursors[run])
    {
      if !watched {
        cursors := cursors - {run};
        return;
      }
      cursors := cursors[run := cursors[run].(retry := false)];
      PullRun(run);
    }
  }

  // ---- one watched cursor, against a growing log ----

  datatype Watch = Watch(
    /** `run_events`, as far as it is committed. */
    log: seq<Event>,
    cursor: Cursor,
    /** Everything fanned out to one viewer, repeats and all. */
    published: seq<Event>,
    /** The highest `lastSeq` any notification has named. */
    notified: nat)

  datatype Step =
    | Store(more: seq<Event>)
    | Notified(lastSeq: nat)
    | Reconnected
    | PageArrives
    | ReadFails
    | PublishOk
    | PublishThrows(delivered: bool)
    | Drained
    | RetryFires

  /** The stored events above a seq. */
  function Above(log: seq<Event>, s: nat): seq<Event> {
    if log == [] then []
    else
      var before, e := Above(log[..|log| - 1], s), log[|log| - 1];
      if s < e.seqNo then before + [e] else before
  }

  /** `readAfter`: the first `limit` of them. */
  function PageAfter(log: seq<Event>, s: nat, limit: nat): seq<Event> {
    var rest := Above(log, s);
    if |rest| <= limit then rest else rest[..limit]
  }

  function LastSeq(log: seq<Event>): nat {
    LastOr(0, log)
  }

  ghost predicate Enabled(w: Watch, step: Step) {
    match step
    case Store(more) => Ascending(w.log + more)
    // NOTIFY is delivered only on commit.
    case Notified(lastSeq) => lastSeq <= LastSeq(w.log)
    case Reconnected => true
    case PageArrives => w.cursor.reading.Asked?
    case ReadFails => w.cursor.reading.Asked?
    case PublishOk => w.cursor.reading.Got?
    case PublishThrows(_) => w.cursor.reading.Got? && w.cursor.reading.page != []
    case Drained => w.cursor.reading.Ended?
    case RetryFires => w.cursor.retry
  }

  function Apply(w: Watch, step: Step, pageSize: nat): Watch
    requires step.PublishOk? || step.PublishThrows? ==> w.cursor.reading.Got?
  {
    match step
    case Store(more) => w.(log := w.log + more)
    case Notified(lastSeq) => w.(cursor := AfterNotify(w.cursor, lastSeq), notified := Max(w.notified, lastSeq))
    case Reconnected => w.(cursor := Pull(w.cursor))
    case PageArrives => w.(cursor := w.cursor.(reading := Got(PageAfter(w.log, w.cursor.seqNo, pageSize))))
    case ReadFails => w.(cursor := AfterFailure(w.cursor))
    case PublishOk =>
      var page := w.cursor.reading.page;
      w.(cursor := AfterPublish(w.cursor, page, pageSize), published := w.published + page)
    case PublishThrows(delivered) =>
      w.(cursor := AfterFailure(w.cursor),
         published := if delivered then w.published + w.cursor.reading.page else w.published)
    case Drained => w.(cursor := AfterFinally(w.cursor))
    case RetryFires => w.(cursor := AfterRetry(w.cursor))
  }

  /** A run of the watch: every interleaving, and where it leads. */
  ghost predicate IsRun(w: Watch, steps: seq<Step>, pageSize: nat) {
    steps == [] || (IsRun(w, steps[..|steps| - 1], pageSize) && Enabled(Outcome(w, steps[..|steps| - 1], pageSize), steps[|steps| - 1]))
  }

  ghost function Outcome(w: Watch, steps: seq<Step>, pageSize: nat): Watch {
    if steps == [] then w
    else
      var before, step := Outcome(w, steps[..|steps| - 1], pageSize), steps[|steps| - 1];
      if Enabled(before, step) then Apply(before, step, pageSize) else before
  }

  // ---- the invariant ----

  /** With repeats dropped, what was published is the log above `start`, without a hole, past the cursor. */
  ghost predicate InOrder(w: Watch, start: nat) {
    && start <= w.cursor.seqNo <= LastOr(start, Accepted(start, w.published))
    && Accepted(start, w.published) <= Above(w.log, start)
  }

  predicate PageOk(w: Watch, pageSize: nat) {
    w.cursor.reading.Got? ==> w.cursor.reading.page <= Above(w.log, w.cursor.seqNo) && |w.cursor.reading.page| <= pageSize
  }

  /** What the cursor will have read once the page in hand is out; a full page asks for more. */
  predicate Reaches(c: Cursor, lastSeq: nat, pageSize: nat) {
    match c.reading
    case Asked => true
    case Got(page) => |page| == pageSize || lastSeq <= LastOr(c.seqNo, page)
    case _ => lastSeq <= c.seqNo
  }

  /** No notification is lost: it has been read past, or something is still going to read. */
  predicate Awake(w: Watch, pageSize: nat) {
    && w.notified <= LastSeq(w.log)
    && (w.cursor.again ==> !w.cursor.reading.NoRead?)
    && (w.cursor.retry || w.cursor.again || Reaches(w.cursor, w.notified, pageSize))
  }

  ghost predicate Inv(w: Watch, start: nat, pageSize: nat) {
    Ascending(w.log) && InOrder(w, start) && PageOk(w, pageSize) && Awake(w, pageSize)
  }

  /** A viewer joins with the cursor at `start`, whatever the feed is in the middle of. */
  predicate Init(w: Watch, start: nat, pageSize: nat) {
    Ascending(w.log) && w.published == [] && w.cursor.seqNo == start && PageOk(w, pageSize) && Awake(w, pageSize)
  }

  /** The first one: `track` has just fixed the cursor. */
  lemma FreshCursorJoins(log: seq<Event>, start: nat, pageSize: nat)
    requires Ascending(log)
    ensures Init(Watch(log, Cursor(start, NoRead, false, false), [], 0), start, pageSize)
  {
  }

  /** A later one may join in any state the feed can reach, reads and retries under way included. */
  lemma {:induction false} JoinsAnywhere(w: Watch, steps: seq<Step>, start: nat, pageSize: nat)
    requires 1 <= pageSize && Init(w, start, pageSize) && IsRun(w, steps, pageSize)
    ensures var now := Outcome(w, steps, pageSize); Init(now.(published := []), now.cursor.seqNo, pageSize)
  {
    RunKeepsInv(w, steps, start, pageSize);
  }

  // ---- about Above ----

  lemma {:induction false} AboveAppend(a: seq<Event>, b: seq<Event>, s: nat)
    ensures Above(a + b, s) == Above(a, s) + Above(b, s)
    decreases |b|
  {
    if b == [] {
      assert a + b == a;
    } else {
      var n := |b| - 1;
      assert (a + b)[..|a| + n] == a + b[..n];
      AboveAppend(a, b[..n], s);
    }
  }

  predicate Over(log: seq<Event>, s: nat) {
    forall i :: 0 <= i < |log| ==> s < log[i].seqNo
  }

  predicate Under(log: seq<Event>, m: nat) {
    forall i :: 0 <= i < |log| ==> log[i].seqNo <= m
  }

  lemma {:induction false} AboveIsOver(log: seq<Event>, s: nat)
    ensures Over(Above(log, s), s)
  {
    if log != [] {
      AboveIsOver(log[..|log| - 1], s);
    }
  }

  lemma {:induction false} AboveKeepsUnder(log: seq<Event>, s: nat, m: nat)
    requires Under(log, m)
    ensures Under(Above(log, s), m)
  {
    if log != [] {
      AboveKeepsUnder(log[..|log| - 1], s, m);
    }
  }

  lemma {:induction false} AboveAll(log: seq<Event>, s: nat)
    requires Over(log, s)
    ensures Above(log, s) == log
  {
    if log != [] {
      AboveAll(log[..|log| - 1], s);
    }
  }

  lemma {:induction false} AboveNone(log: seq<Event>, s: nat)
    requires Under(log, s)
    ensures Above(log, s) == []
  {
    if log != [] {
      AboveNone(log[..|log| - 1], s);
    }
  }

  lemma {:induction false} AboveHas(log: seq<Event>, s: nat, e: Event)
    requires e in log && s < e.seqNo
    ensures e in Above(log, s)
  {
    var n := |log| - 1;
    if e in log[..n] {
      AboveHas(log[..n], s, e);
    } else {
      assert log == log[..n] + [log[n]];
    }
  }

  lemma {:induction false} AboveTwice(log: seq<Event>, c: nat, m: nat)
    requires c <= m
    ensures Above(Above(log, c), m) == Above(log, m)
  {
    if log != [] {
      var n := |log| - 1;
      AboveTwice(log[..n], c, m);
      if c < log[n].seqNo {
        AboveAppend(Above(log[..n], c), [log[n]], m);
      }
    }
  }

  lemma AscendingPieces(a: seq<Event>, b: seq<Event>, s: nat)
    requires Ascending(a + b) && Over(a + b, s)
    ensures Ascending(a) && Under(a, LastOr(s, a)) && Over(b, LastOr(s, a)) && s <= LastOr(s, a)
  {
    assert forall i :: 0 <= i < |a| ==> (a + b)[i] == a[i];
    assert forall i :: 0 <= i < |b| ==> (a + b)[|a| + i] == b[i];
  }

  lemma LastIsHighest(log: seq<Event>)
    requires Ascending(log)
    ensures Under(log, LastSeq(log))
  {
  }

  lemma AscendingThen(log: seq<Event>, e: Event, m: nat)
    requires Ascending(log) && Under(log, m) && m < e.seqNo
    ensures Ascending(log + [e])
  {
  }

  lemma AscendingFront(log: seq<Event>, n: nat)
    requires Ascending(log) && 0 < n < |log|
    ensures Ascending(log[..n]) && LastSeq(log[..n]) < log[n].seqNo
  {
  }

  lemma {:induction false} AboveAscends(log: seq<Event>, s: nat)
    requires Ascending(log)
    ensures Ascending(Above(log, s))
  {
    if |log| > 1 {
      var n := |log| - 1;
      AscendingFront(log, n);
      AboveAscends(log[..n], s);
      LastIsHighest(log[..n]);
      AboveKeepsUnder(log[..n], s, LastSeq(log[..n]));
      AscendingThen(Above(log[..n], s), log[n], LastSeq(log[..n]));
    }
  }

  lemma AscendingTail(log: seq<Event>)
    requires Ascending(log) && log != []
    ensures Ascending(log[1..]) && Over(log[1..], log[0].seqNo) && log == [log[0]] + log[1..]
  {
  }

  lemma OverLower(log: seq<Event>, s: nat, m: nat)
    requires Over(log, m) && s <= m
    ensures Over(log, s)
  {
  }

  lemma {:induction false} AboveHead(e: Event, s: nat)
    ensures Above([e], s) == if s < e.seqNo then [e] else []
  {
    assert [e][..0] == [];
  }

  lemma {:induction false} AcceptedIsAbove(log: seq<Event>, s: nat)
    requires Ascending(log)
    ensures Accepted(s, log) == Above(log, s)
    decreases |log|
  {
    if log != [] {
      var e, rest := log[0], log[1..];
      AscendingTail(log);
      AboveAppend([e], rest, s);
      AboveHead(e, s);
      if e.seqNo <= s {
        AcceptedIsAbove(rest, s);
      } else {
        AcceptedIsAbove(rest, e.seqNo);
        OverLower(rest, s, e.seqNo);
        AboveAll(rest, s);
        AboveAll(rest, e.seqNo);
      }
    }
  }

  lemma PrefixRest(all: seq<Event>, front: seq<Event>) returns (rest: seq<Event>)
    requires front <= all
    ensures all == front + rest
  {
    rest := all[|front|..];
  }

  /** Past a piece `taken` from the front of the log comes exactly the log above its last seq. */
  lemma {:induction false} TakenThenRest(log: seq<Event>, start: nat, taken: seq<Event>)
    requires Ascending(log) && taken <= Above(log, start)
    ensures Above(log, start) == taken + Above(log, LastOr(start, taken)) && start <= LastOr(start, taken)
  {
    var rest := PrefixRest(Above(log, start), taken);
    AboveAscends(log, start);
    AboveIsOver(log, start);
    AboveItsFront(taken, rest, start);
    AboveTwice(log, start, LastOr(start, taken));
  }

  lemma {:induction false} AboveItsFront(taken: seq<Event>, rest: seq<Event>, start: nat)
    requires Ascending(taken + rest) && Over(taken + rest, start)
    ensures Above(taken + rest, LastOr(start, taken)) == rest && start <= LastOr(start, taken)
  {
    var m := LastOr(start, taken);
    AscendingPieces(taken, rest, start);
    AboveNone(taken, m);
    AboveAll(rest, m);
    AboveAppend(taken, rest, m);
  }

  lemma {:induction false} PrefixAbove(log: seq<Event>, page: seq<Event>, c: nat, m: nat)
    requires Ascending(log) && page <= Above(log, c) && c <= m
    ensures Ascending(page) && Above(page, m) <= Above(log, m)
  {
    var rest := PrefixRest(Above(log, c), page);
    AboveAscends(log, c);
    AboveIsOver(log, c);
    AscendingPieces(page, rest, c);
    AboveAppend(page, rest, m);
    AboveTwice(log, c, m);
  }

  lemma PrefixJoin(all: seq<Event>, front: seq<Event>, rest: seq<Event>, more: seq<Event>)
    requires all == front + rest && more <= rest
    ensures front + more <= all
  {
  }

  /** Publishing the page read above a cursor that lags behind extends what was delivered, without a hole. */
  lemma {:induction false} PageExtends(log: seq<Event>, start: nat, published: seq<Event>, c: nat, page: seq<Event>)
    requires Ascending(log) && Accepted(start, published) <= Above(log, start)
    requires start <= c <= LastOr(start, Accepted(start, published))
    requires page <= Above(log, c)
    ensures Accepted(start, published + page) <= Above(log, start)
  {
    var taken := Accepted(start, published);
    var m := LastOr(start, taken);
    TakenThenRest(log, start, taken);
    PrefixAbove(log, page, c, m);
    AcceptedIsAbove(page, m);
    AcceptedAppend(start, published, page);
    PrefixJoin(Above(log, start), taken, Above(log, m), Accepted(m, page));
  }

  lemma {:induction false} LastReached(start: nat, published: seq<Event>, page: seq<Event>)
    ensures LastOr(start, Accepted(start, published)) <= LastOr(start, Accepted(start, published + page))
    ensures page != [] ==> page[|page| - 1].seqNo <= LastOr(start, Accepted(start, published + page))
  {
    AcceptedAppend(start, published, page);
    LastCovers(LastOr(start, Accepted(start, published)), page);
  }

  // ---- steps ----

  lemma StoreKeepsInv(w: Watch, more: seq<Event>, start: nat, pageSize: nat)
    requires Inv(w, start, pageSize) && Enabled(w, Store(more))
    ensures Inv(Apply(w, Store(more), pageSize), start, pageSize)
  {
    AboveAppend(w.log, more, start);
    AboveAppend(w.log, more, w.cursor.seqNo);
    if w.log != [] && more != [] {
      var n := |w.log + more|;
      assert (w.log + more)[|w.log| - 1].seqNo < (w.log + more)[n - 1].seqNo;
    }
  }

  /** A page short of the limit holds everything stored above the cursor. */
  lemma ShortPageReaches(log: seq<Event>, c: nat, pageSize: nat)
    requires |PageAfter(log, c, pageSize)| != pageSize
    ensures LastSeq(log) <= LastOr(c, PageAfter(log, c, pageSize))
  {
    AboveIsOver(log, c);
  }

  lemma ReadKeepsInv(w: Watch, start: nat, pageSize: nat)
    requires Inv(w, start, pageSize) && w.cursor.reading.Asked?
    ensures Inv(Apply(w, PageArrives, pageSize), start, pageSize)
  {
    if |PageAfter(w.log, w.cursor.seqNo, pageSize)| != pageSize {
      ShortPageReaches(w.log, w.cursor.seqNo, pageSize);
    }
  }

  lemma PublishKeepsInv(w: Watch, step: Step, start: nat, pageSize: nat)
    requires 1 <= pageSize && Inv(w, start, pageSize) && Enabled(w, step) && (step.PublishOk? || step.PublishThrows?)
    ensures Inv(Apply(w, step, pageSize), start, pageSize)
  {
    var page := w.cursor.reading.page;
    PageExtends(w.log, start, w.published, w.cursor.seqNo, page);
    LastReached(start, w.published, page);
    AboveIsOver(w.log, w.cursor.seqNo);
    assert page != [] ==> w.cursor.seqNo < page[|page| - 1].seqNo;
  }

  lemma StepKeepsInv(w: Watch, step: Step, start: nat, pageSize: nat)
    requires 1 <= pageSize && Inv(w, start, pageSize) && Enabled(w, step)
    ensures Inv(Apply(w, step, pageSize), start, pageSize)
  {
    match step
    case Store(more) => StoreKeepsInv(w, more, start, pageSize);
    case PageArrives => ReadKeepsInv(w, start, pageSize);
    case PublishOk => PublishKeepsInv(w, step, start, pageSize);
    case PublishThrows(_) => PublishKeepsInv(w, step, start, pageSize);
    case _ =>
  }

  lemma {:induction false} RunKeepsInv(w: Watch, steps: seq<Step>, start: nat, pageSize: nat)
    requires 1 <= pageSize && Init(w, start, pageSize) && IsRun(w, steps, pageSize)
    ensures Inv(Outcome(w, steps, pageSize), start, pageSize)
  {
    if steps != [] {
      RunKeepsInv(w, steps[..|steps| - 1], start, pageSize);
      StepKeepsInv(Outcome(w, steps[..|steps| - 1], pageSize), steps[|steps| - 1], start, pageSize);
    }
  }

  // ---- the theorems ----

  /**
   Under every interleaving of commits, notifications, reads, failed fan-outs and retries, a viewer that
   drops what it has seen is shown the stored log above the tracked seq: in order, nothing missing.
   */
  lemma {:induction false} PublishedInOrder(w: Watch, steps: seq<Step>, start: nat, pageSize: nat)
    requires 1 <= pageSize && Init(w, start, pageSize) && IsRun(w, steps, pageSize)
    ensures var end := Outcome(w, steps, pageSize); Accepted(start, end.published) <= Above(end.log, start)
  {
    RunKeepsInv(w, steps, start, pageSize);
  }

  predicate AllIn(events: seq<Event>, log: seq<Event>) {
    forall i :: 0 <= i < |events| ==> events[i] in log
  }

  lemma {:induction false} AboveIsIn(log: seq<Event>, s: nat)
    ensures AllIn(Above(log, s), log)
  {
    if log != [] {
      AboveIsIn(log[..|log| - 1], s);
      InMore(Above(log[..|log| - 1], s), log[..|log| - 1], log);
    }
  }

  lemma InMore(events: seq<Event>, log: seq<Event>, more: seq<Event>)
    requires AllIn(events, log) && log <= more
    ensures AllIn(events, more)
  {
    forall i | 0 <= i < |events|
      ensures events[i] in more
    {
      var k :| 0 <= k < |log| && log[k] == events[i];
      assert more[k] == events[i];
    }
  }

  lemma InBoth(a: seq<Event>, b: seq<Event>, log: seq<Event>)
    requires AllIn(a, log) && AllIn(b, log)
    ensures AllIn(a + b, log)
  {
  }

  lemma InFront(events: seq<Event>, all: seq<Event>, log: seq<Event>)
    requires AllIn(all, log) && events <= all
    ensures AllIn(events, log)
  {
    assert forall i :: 0 <= i < |events| ==> events[i] == all[i];
  }

  /** Only stored events are ever shown. */
  lemma {:induction false} PublishedIsStored(w: Watch, steps: seq<Step>, start: nat, pageSize: nat)
    requires 1 <= pageSize && Init(w, start, pageSize) && IsRun(w, steps, pageSize)
    ensures var end := Outcome(w, steps, pageSize); AllIn(end.published, end.log)
  {
    if steps != [] {
      var before, step := Outcome(w, steps[..|steps| - 1], pageSize), steps[|steps| - 1];
      PublishedIsStored(w, steps[..|steps| - 1], start, pageSize);
      RunKeepsInv(w, steps[..|steps| - 1], start, pageSize);
      if step.Store? {
        InMore(before.published, before.log, before.log + step.more);
      } else if before.cursor.reading.Got? {
        var page := before.cursor.reading.page;
        AboveIsIn(before.log, before.cursor.seqNo);
        InFront(page, Above(before.log, before.cursor.seqNo), before.log);
        InBoth(before.published, page, before.log);
      }
    }
  }

  lemma {:induction false} NoticesAreKept(w: Watch, steps: seq<Step>, pageSize: nat)
    requires IsRun(w, steps, pageSize)
    ensures w.notified <= Outcome(w, steps, pageSize).notified
    ensures forall lastSeq: nat :: Notified(lastSeq) in steps ==> lastSeq <= Outcome(w, steps, pageSize).notified
    decreases |steps|
  {
    if steps != [] {
      NoticesAreKept(w, steps[..|steps| - 1], pageSize);
    }
  }

  /** At rest, with no retry armed, every event a notification has named has been shown. */
  lemma {:induction false} NoLostNotification(w: Watch, steps: seq<Step>, start: nat, pageSize: nat)
    requires 1 <= pageSize && Init(w, start, pageSize) && IsRun(w, steps, pageSize)
    requires var end := Outcome(w, steps, pageSize); end.cursor.reading.NoRead? && !end.cursor.retry
    ensures var end := Outcome(w, steps, pageSize);
            && end.notified <= end.cursor.seqNo
            && (forall lastSeq: nat :: Notified(lastSeq) in steps ==> lastSeq <= end.cursor.seqNo)
            && (forall e :: e in end.log && start < e.seqNo <= end.notified ==> e in Accepted(start, end.published))
            && (LastSeq(end.log) == end.notified ==> Accepted(start, end.published) == Above(end.log, start))
  {
    RunKeepsInv(w, steps, start, pageSize);
    NoticesAreKept(w, steps, pageSize);
    var end := Outcome(w, steps, pageSize);
    var taken := Accepted(start, end.published);
    TakenThenRest(end.log, start, taken);
    AboveIsOver(end.log, LastOr(start, taken));
    forall e | e in end.log && start < e.seqNo <= end.notified
      ensures e in taken
    {
      AboveHas(end.log, start, e);
    }
    if LastSeq(end.log) == end.notified {
      LastIsHighest(end.log);
      AboveNone(end.log, LastOr(start, taken));
    }
  }

  // ---- progress ----

  /** `n` pages read and published. */
  function Rounds(n: nat): seq<Step> {
    if n == 0 then [] else Rounds(n - 1) + [PageArrives, PublishOk]
  }

  lemma {:induction false} RunThen(w: Watch, steps: seq<Step>, step: Step, pageSize: nat)
    requires IsRun(w, steps, pageSize) && Enabled(Outcome(w, steps, pageSize), step)
    ensures IsRun(w, steps + [step], pageSize)
    ensures Outcome(w, steps + [step], pageSize) == Apply(Outcome(w, steps, pageSize), step, pageSize)
  {
    assert (steps + [step])[..|steps|] == steps;
  }

  /** A whole round, of a cursor that asks. */
  function Round(w: Watch, pageSize: nat): Watch {
    var page := PageAfter(w.log, w.cursor.seqNo, pageSize);
    w.(cursor := AfterPublish(w.cursor.(reading := Got(page)), page, pageSize), published := w.published + page)
  }

  lemma {:induction false} RoundThen(w: Watch, steps: seq<Step>, pageSize: nat)
    requires IsRun(w, steps, pageSize) && Outcome(w, steps, pageSize).cursor.reading.Asked?
    ensures IsRun(w, steps + [PageArrives, PublishOk], pageSize)
    ensures Outcome(w, steps + [PageArrives, PublishOk], pageSize) == Round(Outcome(w, steps, pageSize), pageSize)
  {
    RunThen(w, steps, PageArrives, pageSize);
    RunThen(w, steps + [PageArrives], PublishOk, pageSize);
    assert steps + [PageArrives] + [PublishOk] == steps + [PageArrives, PublishOk];
  }

  /** Past the first `n` events above the cursor, all of them published, and asking for more. */
  function Past(w: Watch, n: nat): Watch
    requires n <= |Above(w.log, w.cursor.seqNo)|
  {
    var all := Above(w.log, w.cursor.seqNo);
    w.(cursor := w.cursor.(seqNo := LastOr(w.cursor.seqNo, all[..n])), published := w.published + all[..n])
  }

  /** What is left above the first `n`. */
  lemma {:induction false} RestAfter(log: seq<Event>, c: nat, n: nat)
    requires Ascending(log) && n <= |Above(log, c)|
    ensures var all := Above(log, c); Above(log, LastOr(c, all[..n])) == all[n..]
  {
    var all := Above(log, c);
    TakenThenRest(log, c, all[..n]);
    SameRest(all, n, Above(log, LastOr(c, all[..n])));
  }

  lemma SameRest(all: seq<Event>, n: nat, rest: seq<Event>)
    requires n <= |all| && all == all[..n] + rest
    ensures rest == all[n..]
  {
    assert (all[..n] + rest)[n..] == rest;
  }

  lemma NextPiece(published: seq<Event>, all: seq<Event>, m: nat, n: nat)
    requires m <= n <= |all|
    ensures published + all[..m] + all[m..][..n - m] == published + all[..n]
    ensures m < n ==> all[m..][..n - m] != [] && all[m..][..n - m][n - m - 1] == all[n - 1] == all[..n][n - 1]
  {
  }

  lemma FullRound(w: Watch, n: nat, pageSize: nat)
    requires 1 <= pageSize && Ascending(w.log) && w.cursor.reading.Asked? && n + pageSize <= |Above(w.log, w.cursor.seqNo)|
    ensures Round(Past(w, n), pageSize) == Past(w, n + pageSize)
  {
    RestAfter(w.log, w.cursor.seqNo, n);
    NextPiece(w.published, Above(w.log, w.cursor.seqNo), n, n + pageSize);
  }

  /** A page that is not full is the last. */
  lemma LastRound(w: Watch, n: nat, pageSize: nat)
    requires 1 <= pageSize && Ascending(w.log) && w.cursor.reading.Asked? && n <= |Above(w.log, w.cursor.seqNo)| < n + pageSize
    ensures var all := Above(w.log, w.cursor.seqNo); var end := Round(Past(w, n), pageSize);
            && end.cursor.reading.Ended? && end.cursor.seqNo == LastOr(w.cursor.seqNo, all)
            && end.log == w.log && end.published == w.published + all
  {
    var all := Above(w.log, w.cursor.seqNo);
    RestAfter(w.log, w.cursor.seqNo, n);
    NextPiece(w.published, all, n, |all|);
    assert all[n..][..|all| - n] == all[n..] && all[..|all|] == all;
  }

  /** `n` events are `k` full pages. */
  predicate FillPages(k: nat, n: nat, pageSize: nat) {
    if k == 0 then n == 0 else pageSize <= n && FillPages(k - 1, n - pageSize, pageSize)
  }

  /** The full pages among `n` events. */
  function PageCount(n: nat, pageSize: nat): nat
    requires 1 <= pageSize
  {
    if n < pageSize then 0 else 1 + PageCount(n - pageSize, pageSize)
  }

  lemma {:induction false} FullPart(n: nat, pageSize: nat) returns (front: nat)
    requires 1 <= pageSize
    ensures FillPages(PageCount(n, pageSize), front, pageSize) && front <= n < front + pageSize
  {
    if n < pageSize {
      front := 0;
    } else {
      front := FullPart(n - pageSize, pageSize);
      front := front + pageSize;
    }
  }

  lemma {:induction false} PageCountIs(n: nat, pageSize: nat)
    requires 1 <= pageSize
    ensures PageCount(n, pageSize) * pageSize <= n < PageCount(n, pageSize) * pageSize + pageSize
  {
    if n >= pageSize {
      PageCountIs(n - pageSize, pageSize);
      OneMorePage(PageCount(n - pageSize, pageSize), pageSize);
    }
  }

  lemma OneMorePage(k: nat, pageSize: nat)
    ensures (1 + k) * pageSize == k * pageSize + pageSize
  {
  }

  lemma QuotientIs(n: int, q: int, d: int)
    requires 1 <= d && q * d <= n < q * d + d
    ensures q == n / d
  {
    var over := q - n / d;
    assert over * d == q * d - (n - n % d);
    assert over * d < d && 0 < over * d + d;
  }

  lemma {:induction false} PagesOf(n: nat, pageSize: nat)
    requires 1 <= pageSize
    ensures PageCount(n, pageSize) == n / pageSize
  {
    PageCountIs(n, pageSize);
    QuotientIs(n, PageCount(n, pageSize), pageSize);
  }

  lemma {:induction false} NextFullPage(w: Watch, steps: seq<Step>, n: nat, pageSize: nat)
    requires 1 <= pageSize && Ascending(w.log) && w.cursor.reading.Asked? && n + pageSize <= |Above(w.log, w.cursor.seqNo)|
    requires IsRun(w, steps, pageSize) && Outcome(w, steps, pageSize) == Past(w, n)
    ensures IsRun(w, steps + [PageArrives, PublishOk], pageSize)
    ensures Outcome(w, steps + [PageArrives, PublishOk], pageSize) == Past(w, n + pageSize)
  {
    RoundThen(w, steps, pageSize);
    FullRound(w, n, pageSize);
  }

  /** After `k` full pages the cursor is past exactly these, and all of them are out. */
  lemma {:induction false} FullPages(w: Watch, k: nat, n: nat, pageSize: nat)
    requires 1 <= pageSize && Ascending(w.log) && w.cursor.reading.Asked?
    requires FillPages(k, n, pageSize) && n <= |Above(w.log, w.cursor.seqNo)|
    ensures IsRun(w, Rounds(k), pageSize) && Outcome(w, Rounds(k), pageSize) == Past(w, n)
  {
    if k == 0 {
      assert w.published + [] == w.published;
    } else {
      FullPages(w, k - 1, n - pageSize, pageSize);
      NextFullPage(w, Rounds(k - 1), n - pageSize, pageSize);
    }
  }

  /** The full pages, and the round behind them. */
  lemma {:induction false} DrainRuns(w: Watch, pageSize: nat)
    requires 1 <= pageSize && Ascending(w.log) && w.cursor.reading.Asked?
    ensures var above := Above(w.log, w.cursor.seqNo);
            var steps := Rounds(PageCount(|above|, pageSize) + 1);
            var end := Outcome(w, steps, pageSize);
            && IsRun(w, steps, pageSize) && end.cursor.reading.Ended? && end.cursor.seqNo == LastOr(w.cursor.seqNo, above)
            && end.log == w.log && end.published == w.published + above
  {
    var above := Above(w.log, w.cursor.seqNo);
    var k := PageCount(|above|, pageSize);
    var front := FullPart(|above|, pageSize);
    FullPages(w, k, front, pageSize);
    RoundThen(w, Rounds(k), pageSize);
    LastRound(w, front, pageSize);
  }

  /**
   With no failure and no commit in between, a drain is over after one page more than the full ones: with
   the `n` events above the cursor, after n / pageSize + 1 rounds. By then every one of them is out, once, and
   the cursor is at the last.
   */
  lemma {:induction false} DrainEnds(w: Watch, start: nat, pageSize: nat)
    requires 1 <= pageSize && Inv(w, start, pageSize) && w.cursor.reading.Asked?
    ensures var above := Above(w.log, w.cursor.seqNo);
            var rounds := PageCount(|above|, pageSize) + 1;
            var end := Outcome(w, Rounds(rounds), pageSize);
            && IsRun(w, Rounds(rounds), pageSize) && rounds == |above| / pageSize + 1
            && end.cursor.reading.Ended? && end.cursor.seqNo == LastOr(w.cursor.seqNo, above)
            && end.log == w.log && end.published == w.published + above
            && Accepted(start, end.published) == Above(w.log, start)
  {
    PagesOf(|Above(w.log, w.cursor.seqNo)|, pageSize);
    DrainRuns(w, pageSize);
    WholeAboveCompletes(w.log, start, w.published, w.cursor.seqNo);
  }

  /** The three steps by which a drain that failed starts again. */
  function Retried(failure: Step): seq<Step> {
    [failure, Drained, RetryFires]
  }

  lemma {:induction false} ThreeSteps(w: Watch, a: Step, b: Step, c: Step, pageSize: nat)
    requires Enabled(w, a)
    requires Enabled(Apply(w, a, pageSize), b)
    requires Enabled(Apply(Apply(w, a, pageSize), b, pageSize), c)
    ensures IsRun(w, [a, b, c], pageSize)
    ensures Outcome(w, [a, b, c], pageSize) == Apply(Apply(Apply(w, a, pageSize), b, pageSize), c, pageSize)
  {
    RunThen(w, [], a, pageSize);
    RunThen(w, [a], b, pageSize);
    RunThen(w, [a, b], c, pageSize);
    assert [] + [a] == [a] && [a] + [b] == [a, b] && [a, b] + [c] == [a, b, c];
  }

  /** The watch when a failed cursor asks again, from where it was. */
  function AskedAgain(w: Watch, failure: Step): Watch
    requires failure.PublishThrows? ==> w.cursor.reading.Got?
  {
    w.(cursor := Cursor(w.cursor.seqNo, Asked, w.cursor.again, false),
       published := w.published + (if failure.PublishThrows? && failure.delivered then w.cursor.reading.page else []))
  }

  lemma {:induction false} FailureIsRetried(w: Watch, failure: Step, start: nat, pageSize: nat)
    requires 1 <= pageSize && Inv(w, start, pageSize) && Enabled(w, failure) && (failure.ReadFails? || failure.PublishThrows?)
    ensures IsRun(w, Retried(failure), pageSize) && Outcome(w, Retried(failure), pageSize) == AskedAgain(w, failure)
    ensures Inv(AskedAgain(w, failure), start, pageSize)
  {
    var failed := Apply(w, failure, pageSize);
    var over := Apply(failed, Drained, pageSize);
    ThreeSteps(w, failure, Drained, RetryFires, pageSize);
    assert Apply(over, RetryFires, pageSize) == AskedAgain(w, failure) by {
      assert w.published + [] == w.published;
    }
    StepKeepsInv(w, failure, start, pageSize);
    StepKeepsInv(failed, Drained, start, pageSize);
    StepKeepsInv(over, RetryFires, start, pageSize);
  }

  /**
   A read or a publish that fails, at whatever point, only delays: three steps later the cursor asks again from
   where it was, and the next drain brings out everything that lies above it.
   */
  lemma {:induction false} FailureOnlyDelays(w: Watch, failure: Step, start: nat, pageSize: nat)
    requires 1 <= pageSize && Inv(w, start, pageSize) && Enabled(w, failure) && (failure.ReadFails? || failure.PublishThrows?)
    ensures IsRun(w, Retried(failure), pageSize) && Outcome(w, Retried(failure), pageSize) == AskedAgain(w, failure)
    ensures var end := Outcome(AskedAgain(w, failure), Rounds(PageCount(|Above(w.log, w.cursor.seqNo)|, pageSize) + 1), pageSize);
            end.cursor.reading.Ended? && Accepted(start, end.published) == Above(w.log, start)
  {
    FailureIsRetried(w, failure, start, pageSize);
    DrainEnds(AskedAgain(w, failure), start, pageSize);
  }

  /** A notification during a drain has another follow it, at once. */
  lemma {:induction false} NoticeReadsAgain(w: Watch, lastSeq: nat, pageSize: nat)
    requires w.cursor.reading.Ended? && lastSeq <= LastSeq(w.log)
    ensures IsRun(w, [Notified(lastSeq), Drained], pageSize)
    ensures Outcome(w, [Notified(lastSeq), Drained], pageSize).cursor == Cursor(w.cursor.seqNo, Asked, false, w.cursor.retry)
  {
    RunThen(w, [], Notified(lastSeq), pageSize);
    RunThen(w, [Notified(lastSeq)], Drained, pageSize);
    assert [] + [Notified(lastSeq)] == [Notified(lastSeq)];
    assert [Notified(lastSeq)] + [Drained] == [Notified(lastSeq), Drained];
  }

  /** Publishing all that lies above a cursor leaves nothing out. */
  lemma {:induction false} WholeAboveCompletes(log: seq<Event>, start: nat, published: seq<Event>, c: nat)
    requires Ascending(log) && Accepted(start, published) <= Above(log, start)
    requires start <= c <= LastOr(start, Accepted(start, published))
    ensures Accepted(start, published + Above(log, c)) == Above(log, start)
  {
    var taken, page := Accepted(start, published), Above(log, c);
    var m := LastOr(start, taken);
    AcceptedAppend(start, published, page);
    AboveAscends(log, c);
    AcceptedIsAbove(page, m);
    AboveTwice(log, c, m);
    TakenThenRest(log, start, taken);
  }
}
