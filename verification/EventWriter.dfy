/**
 The batching writer in front of the store (`event-writer.ts`): a buffer per run, one write in flight per
 run, a shared timer, and a ceiling on log events. A promise that `drain` handed out is an entry of `drains`,
 and each callback of the source is one step.
 */
module EventWriterModel {
  import opened Wrappers
  import opened RunEvents

  /** A pending `drain`. `mark` counts the events its run had accepted when it was asked for. */
  datatype Drain =
    /** `pending.then(() => this.drain(runId))`: it drains again once write `write` is over. */
    | Behind(write: nat, mark: nat)
    /** It started write `write` itself. */
    | Own(write: nat, mark: nat)
    | Settled(mark: nat)

  /** All the writer holds about one run, with what it has accepted and what the store was handed. */
  datatype Lane = Lane(
    buffer: seq<Event>,
    inFlight: Option<nat>,
    logs: nat,
    accepted: seq<Event>,
    handed: seq<seq<Event>>,
    ended: nat,
    drains: seq<Drain>)

  const BLANK := Lane([], None, 0, [], [], 0, [])

  // ---- the ceiling on logs ----

  function Notice(e: Event, message: string): Event
    requires e.body.Log?
  {
    e.(body := e.body.(level := "warn", message := message))
  }

  const NOTICE := "Log output for this run passed its limit and is no longer being recorded."

  /** What `recordAndMaybeCap` stores for an event, once `seen` logs have come, this one among them. */
  function Recorded(e: Event, seen: nat, maxLogs: nat): Option<Event> {
    if !e.body.Log? || seen < maxLogs then Some(e)
    else if seen == maxLogs then Some(Notice(e, NOTICE))
    else None
  }

  function Seen(e: Event, logs: nat): nat {
    if e.body.Log? then logs + 1 else logs
  }

  // ---- one run's steps ----

  /** The batch leaves the buffer whole. */
  function Take(l: Lane): Lane {
    l.(buffer := [], inFlight := Some(|l.handed|), handed := l.handed + [l.buffer])
  }

  function Drained(l: Lane): Lane {
    if l.inFlight.Some? || l.buffer == [] then l else Take(l)
  }

  function Promised(l: Lane, mark: nat): Drain {
    if l.inFlight.Some? then Behind(l.inFlight.value, mark)
    else if l.buffer == [] then Settled(mark) else Own(|l.handed|, mark)
  }

  function StartDrain(l: Lane): Lane {
    Drained(l).(drains := l.drains + [Promised(l, |l.accepted|)])
  }

  /** `flush()` with no run visits the runs that hold or are writing something. */
  function FlushIfAny(l: Lane): Lane {
    if l.buffer != [] || l.inFlight.Some? then StartDrain(l) else l
  }

  /** A waiting drain's `then`: it drains again. */
  function ResumeDrain(l: Lane, i: nat): Lane
    requires i < |l.drains|
  {
    Drained(l).(drains := l.drains[i := Promised(l, l.drains[i].mark)])
  }

  function SettleDrain(l: Lane, i: nat): Lane
    requires i < |l.drains|
  {
    l.(drains := l.drains[i := Settled(l.drains[i].mark)])
  }

  function WriteOver(l: Lane): Lane {
    l.(inFlight := None, ended := l.ended + 1)
  }

  function Counted(l: Lane, e: Event): Lane {
    l.(logs := Seen(e, l.logs))
  }

  function Buffered(l: Lane, e: Event): Lane {
    l.(buffer := l.buffer + [e], accepted := l.accepted + [e])
  }

  /** The lane after `push`, which also arms the timer unless the batch is full or the event dropped. */
  function Pushed(l: Lane, e: Event, maxBatch: nat, maxLogs: nat): Lane {
    var c := Counted(l, e);
    match Recorded(e, c.logs, maxLogs)
    case None => c
    case Some(stored) =>
      var b := Buffered(c, stored);
      if |b.buffer| >= maxBatch then StartDrain(b) else b
  }

  predicate PushArms(l: Lane, e: Event, maxBatch: nat, maxLogs: nat) {
    Recorded(e, Seen(e, l.logs), maxLogs).Some? && |l.buffer| + 1 < maxBatch
  }

  /** What the promises and the store have seen of one run. */
  datatype Book = Book(accepted: seq<Event>, handed: seq<seq<Event>>, ended: nat, drains: seq<Drain>)

  const EMPTY_BOOK := Book([], [], 0, [])

  /** Between two drains of `flush()`: the runs in `ids` are still to come. */
  ghost predicate Partly(was: imap<string, Lane>, now: imap<string, Lane>, ids: set<string>) {
    && (forall r: string :: r in was && r in now)
    && (forall r: string :: now[r] == if r in ids then was[r] else FlushIfAny(was[r]))
    && (forall r: string :: r in ids ==> was[r].buffer != [] || was[r].inFlight.Some?)
  }

  lemma FlushedOne(was: imap<string, Lane>, before: imap<string, Lane>, now: imap<string, Lane>, ids: set<string>, run: string)
    requires Partly(was, before, ids) && run in ids && forall r: string :: r in now
    requires forall r: string :: now[r] == if r == run then StartDrain(before[r]) else before[r]
    ensures Partly(was, now, ids - {run})
  {
  }

  // ---- what a call does to a lane, told apart from the functions above ----

  /** A drain: it waits for a write in flight, has nothing to do, or hands over the whole buffer as one write. */
  predicate DrainsRightly(before: Lane, after: Lane, promise: Drain, mark: nat) {
    && after.accepted == before.accepted && after.ended == before.ended && after.logs == before.logs
    && (before.inFlight.Some? ==>
          promise == Behind(before.inFlight.value, mark)
          && after.buffer == before.buffer && after.handed == before.handed && after.inFlight == before.inFlight)
    && (before.inFlight.None? && before.buffer == [] ==>
          promise == Settled(mark) && after.buffer == [] && after.handed == before.handed && after.inFlight == None)
    && (before.inFlight.None? && before.buffer != [] ==>
          promise == Own(|before.handed|, mark)
          && after.buffer == [] && after.handed == before.handed + [before.buffer] && after.inFlight == Some(|before.handed|))
  }

  /** A flush of a run, its promise kept. */
  predicate FlushesRightly(before: Lane, after: Lane) {
    && after.drains != [] && after.drains[..|after.drains| - 1] == before.drains
    && DrainsRightly(before, after, after.drains[|after.drains| - 1], |before.accepted|)
  }

  /** Runs that neither hold nor are writing anything are left alone; every other is flushed. */
  predicate FlushedIfBusy(before: Lane, after: Lane) {
    if before.buffer == [] && before.inFlight.None? then after == before else FlushesRightly(before, after)
  }

  /** A push: counted if it is a log, dropped beyond the ceiling; else buffered, and a full batch flushed at once. */
  predicate PushesRightly(before: Lane, after: Lane, e: Event, timer: bool, maxBatch: nat, maxLogs: nat) {
    var n := before.logs + 1;
    && after.logs == (if e.body.Log? then n else before.logs)
    && (e.body.Log? && n > maxLogs ==> after == before.(logs := n))
    && (!e.body.Log? || n <= maxLogs ==>
          && |after.accepted| == |before.accepted| + 1 && after.accepted[..|before.accepted|] == before.accepted
          && StoredAs(e, after.accepted[|before.accepted|], n, maxLogs)
          && var full := before.(logs := after.logs, accepted := after.accepted, buffer := before.buffer + [after.accepted[|before.accepted|]]);
            if |before.buffer| + 1 >= maxBatch then FlushesRightly(full, after) else after == full && timer)
  }

  /** An event is stored as it came, but for the last log under the ceiling: a warning under its seq, time and step. */
  predicate StoredAs(e: Event, stored: Event, n: nat, maxLogs: nat) {
    if e.body.Log? && n == maxLogs then
      && stored.seqNo == e.seqNo && stored.at == e.at && stored.body.Log?
      && stored.body.level == "warn" && stored.body.message == NOTICE && stored.body.logStep == e.body.logStep
    else stored == e
  }

  lemma PushIsRight(l: Lane, e: Event, timer: bool, maxBatch: nat, maxLogs: nat)
    requires PushArms(l, e, maxBatch, maxLogs) ==> timer
    ensures PushesRightly(l, Pushed(l, e, maxBatch, maxLogs), e, timer, maxBatch, maxLogs)
  {
  }

  lemma FlushIsRight(l: Lane)
    ensures FlushesRightly(l, StartDrain(l)) && FlushedIfBusy(l, FlushIfAny(l))
  {
  }

  class EventWriter {
    const maxBatch: nat
    const maxLogEventsPerRun: nat
    var buffers: map<string, seq<Event>>
    var inFlight: map<string, nat>
    var logCounts: map<string, nat>
    var timer: bool
    var books: map<string, Book>

    ghost function LaneAt(run: string): Lane
      reads this
    {
      var book := At(books, run).GetOr(EMPTY_BOOK);
      Lane(At(buffers, run).GetOr([]), At(inFlight, run), At(logCounts, run).GetOr(0),
           book.accepted, book.handed, book.ended, book.drains)
    }

    ghost predicate Valid()
      reads this
    {
      forall run :: run in buffers ==> buffers[run] != []
    }

    constructor (maxBatch: nat := 200, maxLogEventsPerRun: nat := 20000)
      ensures Valid() && this.maxBatch == maxBatch && this.maxLogEventsPerRun == maxLogEventsPerRun && !timer
      ensures forall run :: LaneAt(run) == BLANK
    {
      this.maxBatch, this.maxLogEventsPerRun := maxBatch, maxLogEventsPerRun;
      buffers, inFlight, logCounts, timer, books := map[], map[], map[], false, map[];
    }

    method Forget(run: string)
      requires Valid()
      modifies this
      ensures Valid()
      ensures timer == old(timer) && forall r :: LaneAt(r) == if r == run then old(LaneAt(r)).(logs := 0) else old(LaneAt(r))
    {
      logCounts := logCounts - {run};
    }

    method RecordAndMaybeCap(run: string, e: Event) returns (stored: Option<Event>)
      modifies this`logCounts
      ensures stored == Recorded(e, Seen(e, old(LaneAt(run)).logs), maxLogEventsPerRun)
      ensures forall r :: LaneAt(r) == if r == run then Counted(old(LaneAt(r)), e) else old(LaneAt(r))
      ensures var n := old(LaneAt(run)).logs + 1;
              && LaneAt(run).logs == (if e.body.Log? then n else n - 1)
              && (stored.None? <==> e.body.Log? && n > maxLogEventsPerRun)
              && (stored.Some? ==> StoredAs(e, stored.value, n, maxLogEventsPerRun))
    {
      if !e.body.Log? {
        return Some(e);
      }
      var seen := (if run in logCounts then logCounts[run] else 0) + 1;
      logCounts := logCounts[run := seen];
      if seen < maxLogEventsPerRun {
        return Some(e);
      }
      if seen == maxLogEventsPerRun {
        return Some(Notice(e, NOTICE));
      }
      return None;
    }

    method Push(run: string, e: Event)
      requires Valid()
      modifies this
      ensures Valid()
      ensures forall r :: LaneAt(r) == if r == run then Pushed(old(LaneAt(r)), e, maxBatch, maxLogEventsPerRun) else old(LaneAt(r))
      ensures timer == (old(timer) || PushArms(old(LaneAt(run)), e, maxBatch, maxLogEventsPerRun))
      ensures PushesRightly(old(LaneAt(run)), LaneAt(run), e, timer, maxBatch, maxLogEventsPerRun)
    {
      PushIsRight(LaneAt(run), e, timer || PushArms(LaneAt(run), e, maxBatch, maxLogEventsPerRun), maxBatch, maxLogEventsPerRun);
      var stored := RecordAndMaybeCap(run, e);
      if stored.None? {
        return;
      }
      Buffer(run, stored.value);
      if |buffers[run]| >= maxBatch {
        FlushRun(run);
      } else {
        timer := true;
      }
    }

    method Buffer(run: string, e: Event)
      requires Valid()
      modifies this`buffers, this`books
      ensures Valid()
      ensures run in buffers && buffers[run] == old(LaneAt(run)).buffer + [e]
      ensures forall r :: LaneAt(r) == if r == run then Buffered(old(LaneAt(r)), e) else old(LaneAt(r))
    {
      buffers := buffers[run := (if run in buffers then buffers[run] else []) + [e]];
      var book := if run in books then books[run] else EMPTY_BOOK;
      books := books[run := book.(accepted := book.accepted + [e])];
    }

    /** `drain`: `mark` is what its caller had pushed, kept with the promise it returns. */
    method DrainRun(run: string, mark: nat) returns (promise: Drain)
      requires Valid()
      modifies this`buffers, this`inFlight, this`books
      ensures Valid() && promise == Promised(old(LaneAt(run)), mark)
      ensures forall r :: LaneAt(r) == if r == run then Drained(old(LaneAt(r))) else old(LaneAt(r))
      ensures DrainsRightly(old(LaneAt(run)), LaneAt(run), promise, mark)
    {
      if run in inFlight {
        return Behind(inFlight[run], mark);
      }
      if run !in buffers {
        return Settled(mark);
      }
      var batch, book := buffers[run], if run in books then books[run] else EMPTY_BOOK;
      buffers := buffers - {run};
      inFlight := inFlight[run := |book.handed|];
      books := books[run := book.(handed := book.handed + [batch])];
      return Own(|book.handed|, mark);
    }

    /** `flush(runId)`. */
    method FlushRun(run: string)
      requires Valid()
      modifies this`buffers, this`inFlight, this`books
      ensures Valid() && timer == old(timer)
      ensures forall r :: LaneAt(r) == if r == run then StartDrain(old(LaneAt(r))) else old(LaneAt(r))
    {
      var promise := DrainRun(run, if run in books then |books[run].accepted| else 0);
      Promise(run, promise);
    }

    method Promise(run: string, promise: Drain)
      modifies this`books
      ensures forall r :: LaneAt(r) == if r == run then old(LaneAt(r)).(drains := old(LaneAt(r)).drains + [promise]) else old(LaneAt(r))
    {
      var book := if run in books then books[run] else EMPTY_BOOK;
      books := books[run := book.(drains := book.drains + [promise])];
    }

    /** `flush()`: every run that holds or is writing something. */
    method FlushAll()
      requires Valid()
      modifies this
      ensures Valid()
      ensures timer == old(timer)
      ensures forall r :: LaneAt(r) == FlushIfAny(old(LaneAt(r)))
      ensures forall r :: FlushedIfBusy(old(LaneAt(r)), LaneAt(r))
    {
      var ids := buffers.Keys + inFlight.Keys;
      ghost var was: imap<string, Lane> := imap r: string | true :: LaneAt(r);
      ghost var now := was;
      while ids != {}
        invariant Valid() && timer == old(timer) && Partly(was, now, ids)
        invariant forall r: string :: r in now && LaneAt(r) == now[r]
        decreases ids
      {
        var run :| run in ids;
        ghost var before := now;
        FlushRun(run);
        now := imap r: string | true :: LaneAt(r);
        FlushedOne(was, before, now, ids, run);
        ids := ids - {run};
      }
      forall r
        ensures FlushedIfBusy(old(LaneAt(r)), LaneAt(r))
      {
        FlushIsRight(old(LaneAt(r)));
      }
    }

    method Close()
      requires Valid()
      modifies this
      ensures Valid()
      ensures !timer && forall r :: LaneAt(r) == FlushIfAny(old(LaneAt(r))) && FlushedIfBusy(old(LaneAt(r)), LaneAt(r))
    {
      timer := false;
      FlushAll();
    }

    method OnTimer()
      requires Valid()
      modifies this
      ensures Valid() && !timer
      ensures forall r :: LaneAt(r) == FlushIfAny(old(LaneAt(r))) && FlushedIfBusy(old(LaneAt(r)), LaneAt(r))
    {
      timer := false;
      FlushAll();
    }

    /** The store is done with a run's batch, or has refused it; either way `finally` clears the flight. */
    method OnWriteOver(run: string)
      requires run in inFlight
      modifies this
      ensures timer == old(timer) && (old(Valid()) ==> Valid())
      ensures forall r :: LaneAt(r) == if r == run then WriteOver(old(LaneAt(r))) else old(LaneAt(r))
      ensures LaneAt(run).inFlight == None && LaneAt(run).ended == old(LaneAt(run)).ended + 1 && LaneAt(run).buffer == old(LaneAt(run)).buffer
    {
      var book := if run in books then books[run] else EMPTY_BOOK;
      inFlight := inFlight - {run};
      books := books[run := book.(ended := book.ended + 1)];
    }

    /** The `then` of a drain that waited for a write. */
    method OnPendingOver(run: string, i: nat)
      requires Valid() && i < |LaneAt(run).drains|
      modifies this
      ensures timer == old(timer) && Valid()
      ensures forall r :: LaneAt(r) == if r == run then ResumeDrain(old(LaneAt(r)), i) else old(LaneAt(r))
      ensures |LaneAt(run).drains| == |old(LaneAt(run)).drains|
      ensures DrainsRightly(old(LaneAt(run)), LaneAt(run), LaneAt(run).drains[i], old(LaneAt(run)).drains[i].mark)
    {
      var promise := DrainRun(run, books[run].drains[i].mark);
      books := books[run := books[run].(drains := books[run].drains[i := promise])];
    }
  }

  // ---- one run, under any interleaving ----

  datatype Watch = Watch(lane: Lane, timer: bool)

  datatype Step =
    | PushEvent(e: Event)
    /** Another run's push armed the shared timer. */
    | ArmedElsewhere
    | AskFlush
    | FlushEverything
    | CloseWriter
    | TimerFires
    | WriteEnds
    | Resume(i: nat)
    | Settle(i: nat)
    | ForgetRun

  predicate Enabled(w: Watch, step: Step) {
    match step
    case TimerFires => w.timer
    case WriteEnds => w.lane.inFlight.Some?
    case Resume(i) => i < |w.lane.drains| && w.lane.drains[i].Behind? && w.lane.inFlight != Some(w.lane.drains[i].write)
    case Settle(i) => i < |w.lane.drains| && w.lane.drains[i].Own? && w.lane.inFlight != Some(w.lane.drains[i].write)
    case _ => true
  }

  function Apply(w: Watch, step: Step, maxBatch: nat, maxLogs: nat): Watch
    requires Enabled(w, step)
  {
    match step
    case PushEvent(e) =>
      Watch(Pushed(w.lane, e, maxBatch, maxLogs), w.timer || PushArms(w.lane, e, maxBatch, maxLogs))
    case ArmedElsewhere => w.(timer := true)
    case AskFlush => w.(lane := StartDrain(w.lane))
    case FlushEverything => w.(lane := FlushIfAny(w.lane))
    case CloseWriter => Watch(FlushIfAny(w.lane), false)
    case TimerFires => Watch(FlushIfAny(w.lane), false)
    case WriteEnds => w.(lane := WriteOver(w.lane))
    case Resume(i) => w.(lane := ResumeDrain(w.lane, i))
    case Settle(i) => w.(lane := SettleDrain(w.lane, i))
    case ForgetRun => w.(lane := w.lane.(logs := 0))
  }

  ghost function Outcome(steps: seq<Step>, maxBatch: nat, maxLogs: nat): Watch
    decreases |steps|
  {
    if steps == [] then Watch(BLANK, false)
    else
      var before, step := Outcome(steps[..|steps| - 1], maxBatch, maxLogs), steps[|steps| - 1];
      if Enabled(before, step) then Apply(before, step, maxBatch, maxLogs) else before
  }

  // ---- the invariant ----

  /** How many events the first `n` writes carry. */
  function Carried(handed: seq<seq<Event>>, n: nat): nat
    requires n <= |handed|
  {
    if n == 0 then 0 else Carried(handed, n - 1) + |handed[n - 1]|
  }

  predicate DrainOk(d: Drain, l: Lane)
    requires l.ended <= |l.handed|
  {
    match d
    case Behind(write, mark) => write < |l.handed| && mark <= |l.accepted|
    case Own(write, mark) => write < |l.handed| && mark <= Carried(l.handed, write + 1)
    case Settled(mark) => mark <= Carried(l.handed, l.ended)
  }

  /** A write is in flight exactly when one handed batch has not ended, and it is the last. */
  predicate OneFlight(l: Lane) {
    if l.inFlight.Some? then l.ended + 1 == |l.handed| && l.inFlight.value == l.ended else l.ended == |l.handed|
  }

  predicate Waiting(l: Lane) {
    exists i :: 0 <= i < |l.drains| && l.drains[i].Behind?
  }

  predicate Counts(l: Lane) {
    OneFlight(l) && Carried(l.handed, |l.handed|) + |l.buffer| == |l.accepted|
  }

  ghost predicate LaneInv(l: Lane) {
    && Counts(l)
    && Flatten(l.handed) + l.buffer == l.accepted
    && (forall i :: 0 <= i < |l.drains| ==> DrainOk(l.drains[i], l))
  }

  /** A non-empty buffer always has something coming for it. */
  ghost predicate Inv(w: Watch) {
    LaneInv(w.lane) && (w.lane.buffer != [] ==> w.timer || Waiting(w.lane))
  }

  lemma {:induction false} CarriedMono(handed: seq<seq<Event>>, m: nat, n: nat)
    requires m <= n <= |handed|
    ensures Carried(handed, m) <= Carried(handed, n)
    decreases n
  {
    if m < n {
      CarriedMono(handed, m, n - 1);
    }
  }

  lemma {:induction false} CarriedKeeps(handed: seq<seq<Event>>, batch: seq<Event>, n: nat)
    requires n <= |handed|
    ensures Carried(handed + [batch], n) == Carried(handed, n)
  {
    if n > 0 {
      CarriedKeeps(handed, batch, n - 1);
    }
  }

  // ---- steps ----

  lemma DrainsKeep(l: Lane, m: Lane)
    requires LaneInv(l) && l.ended <= m.ended <= |m.handed| && |l.handed| <= |m.handed| && m.drains == l.drains
    requires |l.accepted| <= |m.accepted| && forall n :: 0 <= n <= |l.handed| ==> Carried(m.handed, n) == Carried(l.handed, n)
    ensures forall i :: 0 <= i < |m.drains| ==> DrainOk(m.drains[i], m)
  {
    forall i | 0 <= i < |m.drains|
      ensures DrainOk(m.drains[i], m)
    {
      assert DrainOk(l.drains[i], l);
      CarriedMono(m.handed, l.ended, m.ended);
    }
  }

  lemma BufferKeeps(l: Lane, e: Event)
    requires LaneInv(l)
    ensures LaneInv(Buffered(l, e))
  {
  }

  lemma DrainedKeeps(l: Lane)
    requires LaneInv(l)
    ensures LaneInv(Drained(l))
    ensures Drained(l) != l ==> Carried(Drained(l).handed, |l.handed| + 1) == |l.accepted|
  {
    if l.inFlight.None? && l.buffer != [] {
      forall n | 0 <= n <= |l.handed|
        ensures Carried(Take(l).handed, n) == Carried(l.handed, n)
      {
        CarriedKeeps(l.handed, l.buffer, n);
      }
      FlattenThen(l.handed, l.buffer);
      DrainsKeep(l, Take(l));
    }
  }

  /** A drain asked for by a caller who had pushed `mark` events promises at least those. */
  lemma PromiseHolds(l: Lane, mark: nat)
    requires LaneInv(l) && mark <= |l.accepted|
    ensures DrainOk(Promised(l, mark), Drained(l))
    ensures Drained(l).buffer != [] ==> Promised(l, mark).Behind?
  {
    DrainedKeeps(l);
  }

  lemma StartKeeps(l: Lane)
    requires LaneInv(l)
    ensures LaneInv(StartDrain(l)) && (StartDrain(l).buffer != [] ==> Waiting(StartDrain(l)))
  {
    DrainedKeeps(l);
    PromiseHolds(l, |l.accepted|);
    var m := StartDrain(l);
    assert m.drains[|l.drains|] == Promised(l, |l.accepted|);
    assert forall i :: 0 <= i < |l.drains| ==> m.drains[i] == Drained(l).drains[i];
    assert forall i :: 0 <= i < |l.drains| ==> DrainOk(m.drains[i], Drained(l)) == DrainOk(m.drains[i], m);
  }

  lemma ReplaceKeeps(l: Lane, i: nat, d: Drain)
    requires LaneInv(l) && i < |l.drains| && DrainOk(d, l)
    ensures LaneInv(l.(drains := l.drains[i := d]))
  {
  }

  lemma MarkBound(l: Lane, i: nat)
    requires LaneInv(l) && i < |l.drains|
    ensures l.drains[i].mark <= |l.accepted|
  {
    assert DrainOk(l.drains[i], l);
    CarriedMono(l.handed, l.ended, |l.handed|);
    if l.drains[i].Own? {
      CarriedMono(l.handed, l.drains[i].write + 1, |l.handed|);
    }
  }

  lemma ResumeKeeps(l: Lane, i: nat)
    requires LaneInv(l) && i < |l.drains|
    ensures LaneInv(ResumeDrain(l, i)) && (ResumeDrain(l, i).buffer != [] ==> Waiting(ResumeDrain(l, i)))
  {
    MarkBound(l, i);
    DrainedKeeps(l);
    PromiseHolds(l, l.drains[i].mark);
    ReplaceKeeps(Drained(l), i, Promised(l, l.drains[i].mark));
    assert ResumeDrain(l, i).drains[i] == Promised(l, l.drains[i].mark);
  }

  lemma SettleKeeps(w: Watch, i: nat)
    requires Inv(w) && Enabled(w, Settle(i))
    ensures Inv(w.(lane := SettleDrain(w.lane, i)))
  {
    var l := w.lane;
    assert DrainOk(l.drains[i], l);
    CarriedMono(l.handed, l.drains[i].write + 1, l.ended);
    ReplaceKeeps(l, i, Settled(l.drains[i].mark));
    if Waiting(l) {
      var k :| 0 <= k < |l.drains| && l.drains[k].Behind?;
      assert SettleDrain(l, i).drains[k].Behind?;
    }
  }

  lemma PushKeeps(w: Watch, e: Event, maxBatch: nat, maxLogs: nat)
    requires Inv(w)
    ensures Inv(Watch(Pushed(w.lane, e, maxBatch, maxLogs), w.timer || PushArms(w.lane, e, maxBatch, maxLogs)))
  {
    var c := Counted(w.lane, e);
    DrainsKeep(w.lane, c);
    if Recorded(e, c.logs, maxLogs).Some? {
      var b := Buffered(c, Recorded(e, c.logs, maxLogs).value);
      BufferKeeps(c, Recorded(e, c.logs, maxLogs).value);
      StartKeeps(b);
    }
  }

  lemma StepKeepsInv(w: Watch, step: Step, maxBatch: nat, maxLogs: nat)
    requires Inv(w) && Enabled(w, step)
    ensures Inv(Apply(w, step, maxBatch, maxLogs))
  {
    match step
    case PushEvent(e) => PushKeeps(w, e, maxBatch, maxLogs);
    case ArmedElsewhere =>
    case AskFlush => StartKeeps(w.lane);
    case FlushEverything => StartKeeps(w.lane);
    case CloseWriter => StartKeeps(w.lane);
    case TimerFires => StartKeeps(w.lane);
    case WriteEnds => DrainsKeep(w.lane, WriteOver(w.lane));
    case Resume(i) => ResumeKeeps(w.lane, i);
    case Settle(i) => SettleKeeps(w, i);
    case ForgetRun => DrainsKeep(w.lane, w.lane.(logs := 0));
  }

  lemma {:induction false} RunKeepsInv(steps: seq<Step>, maxBatch: nat, maxLogs: nat)
    ensures Inv(Outcome(steps, maxBatch, maxLogs))
    decreases |steps|
  {
    if steps != [] {
      var before := Outcome(steps[..|steps| - 1], maxBatch, maxLogs);
      RunKeepsInv(steps[..|steps| - 1], maxBatch, maxLogs);
      if Enabled(before, steps[|steps| - 1]) {
        StepKeepsInv(before, steps[|steps| - 1], maxBatch, maxLogs);
      }
    }
  }

  // ---- the theorems ----

  /**
   Whatever the interleaving: at most one write of a run is under way, and the batches handed to the
   store, followed by the buffer, are the accepted events in push order.
   */
  lemma {:induction false} OneWriteInOrder(steps: seq<Step>, maxBatch: nat, maxLogs: nat)
    ensures var l := Outcome(steps, maxBatch, maxLogs).lane;
            && l.ended <= |l.handed| <= l.ended + 1
            && Flatten(l.handed) + l.buffer == l.accepted
  {
    RunKeepsInv(steps, maxBatch, maxLogs);
  }

  lemma {:induction false} FlattenFront(handed: seq<seq<Event>>, n: nat)
    requires n <= |handed|
    ensures Flatten(handed[..n]) <= Flatten(handed) && |Flatten(handed[..n])| == Carried(handed, n)
    decreases |handed|
  {
    if n < |handed| {
      var k := |handed| - 1;
      FlattenFront(handed[..k], n);
      FlattenThen(handed[..k], handed[k]);
      assert handed[..k] + [handed[k]] == handed && handed[..k][..n] == handed[..n];
      CarriedKeeps(handed[..k], handed[k], n);
    } else {
      assert handed[..n] == handed;
      if n > 0 {
        FlattenFront(handed[..n - 1], n - 1);
        FlattenThen(handed[..n - 1], handed[n - 1]);
        assert handed[..n - 1] + [handed[n - 1]] == handed && handed[..n - 1][..n - 1] == handed[..n - 1];
        CarriedKeeps(handed[..n - 1], handed[n - 1], n - 1);
      }
    }
  }

  /** Once a flush resolves, all its caller had pushed is in batches whose writes are over. */
  lemma {:induction false} FlushIsDurable(steps: seq<Step>, i: nat, maxBatch: nat, maxLogs: nat)
    requires var l := Outcome(steps, maxBatch, maxLogs).lane; i < |l.drains| && l.drains[i].Settled?
    ensures var l := Outcome(steps, maxBatch, maxLogs).lane;
            && l.ended <= |l.handed| && l.drains[i].mark <= |l.accepted|
            && l.accepted[..l.drains[i].mark] <= Flatten(l.handed[..l.ended])
  {
    RunKeepsInv(steps, maxBatch, maxLogs);
    var l := Outcome(steps, maxBatch, maxLogs).lane;
    MarkBound(l, i);
    assert DrainOk(l.drains[i], l);
    FlattenFront(l.handed, l.ended);
    FrontOf(Flatten(l.handed[..l.ended]), Flatten(l.handed), l.buffer, l.drains[i].mark);
  }

  lemma FrontOf(done: seq<Event>, all: seq<Event>, rest: seq<Event>, mark: nat)
    requires done <= all && mark <= |done|
    ensures (all + rest)[..mark] <= done
  {
  }

  /**
   Nothing sits in a buffer unwatched: an armed timer or a waiting drain is coming for it. So at rest,
   with no timer armed, no write under way and no drain waiting, everything accepted has been written.
   */
  lemma {:induction false} NothingLeftBehind(steps: seq<Step>, maxBatch: nat, maxLogs: nat)
    ensures var w := Outcome(steps, maxBatch, maxLogs);
            && (w.lane.buffer != [] ==> w.timer || Waiting(w.lane))
            && (!w.timer && w.lane.inFlight.None? && !Waiting(w.lane) ==>
                w.lane.ended == |w.lane.handed| && Flatten(w.lane.handed) == w.lane.accepted)
  {
    RunKeepsInv(steps, maxBatch, maxLogs);
    var l := Outcome(steps, maxBatch, maxLogs).lane;
    if l.buffer == [] {
      assert Flatten(l.handed) + l.buffer == Flatten(l.handed);
    }
  }

  // ---- what the ceiling keeps ----

  /** What a run's pushes leave for the store, none forgotten in between. */
  function Capped(pushes: seq<Event>, maxLogs: nat): seq<Event> {
    if pushes == [] then []
    else
      var before, e := Capped(pushes[..|pushes| - 1], maxLogs), pushes[|pushes| - 1];
      match Recorded(e, LogCount(pushes), maxLogs)
      case None => before
      case Some(stored) => before + [stored]
  }

  function LogCount(events: seq<Event>): nat {
    if events == [] then 0 else Seen(events[|events| - 1], LogCount(events[..|events| - 1]))
  }

  function Structural(events: seq<Event>): seq<Event> {
    if events == [] then []
    else
      var before, e := Structural(events[..|events| - 1]), events[|events| - 1];
      if e.body.Log? then before else before + [e]
  }

  function Logs(events: seq<Event>): seq<Event> {
    if events == [] then []
    else
      var before, e := Logs(events[..|events| - 1]), events[|events| - 1];
      if e.body.Log? then before + [e] else before
  }

  /** The first `max` log events, the last of them turned into the notice at its own seq. */
  function FirstLogs(logs: seq<Event>, maxLogs: nat): (kept: seq<Event>)
    requires forall i :: 0 <= i < |logs| ==> logs[i].body.Log?
  {
    if maxLogs == 0 then []
    else if |logs| < maxLogs then logs
    else logs[..maxLogs - 1] + [Notice(logs[maxLogs - 1], NOTICE)]
  }

  lemma {:induction false} LogsAreLogs(events: seq<Event>)
    ensures forall i :: 0 <= i < |Logs(events)| ==> Logs(events)[i].body.Log?
    ensures |Logs(events)| == LogCount(events)
  {
    if events != [] {
      LogsAreLogs(events[..|events| - 1]);
    }
  }

  lemma {:induction false} OneMore(stored: seq<Event>, e: Event)
    ensures Structural(stored + [e]) == Structural(stored) + if e.body.Log? then [] else [e]
    ensures Logs(stored + [e]) == Logs(stored) + if e.body.Log? then [e] else []
  {
    assert (stored + [e])[..|stored|] == stored;
  }

  /**
   The ceiling drops no structural event and reorders nothing; of the log events it keeps the first
   `max - 1`, and a notice in the place, and under the seq, of the next.
   */
  lemma {:induction false} CapKeepsStructure(pushes: seq<Event>, maxLogs: nat)
    ensures Structural(Capped(pushes, maxLogs)) == Structural(pushes)
    ensures forall i :: 0 <= i < |Logs(pushes)| ==> Logs(pushes)[i].body.Log?
    ensures Logs(Capped(pushes, maxLogs)) == FirstLogs(Logs(pushes), maxLogs)
  {
    LogsAreLogs(pushes);
    if pushes != [] {
      var n := |pushes| - 1;
      var before, e := pushes[..n], pushes[n];
      CapKeepsStructure(before, maxLogs);
      LogsAreLogs(before);
      assert before + [e] == pushes;
      var r := Recorded(e, LogCount(pushes), maxLogs);
      if r.Some? {
        OneMore(Capped(before, maxLogs), r.value);
      }
    }
  }

  function PushesOf(steps: seq<Step>): seq<Event> {
    if steps == [] then []
    else
      var before, step := PushesOf(steps[..|steps| - 1]), steps[|steps| - 1];
      if step.PushEvent? then before + [step.e] else before
  }

  lemma PushedAccepts(l: Lane, e: Event, maxBatch: nat, maxLogs: nat)
    ensures var p, r := Pushed(l, e, maxBatch, maxLogs), Recorded(e, Seen(e, l.logs), maxLogs);
            p.logs == Seen(e, l.logs) && p.accepted == if r.Some? then l.accepted + [r.value] else l.accepted
  {
  }

  /** What the writer has accepted of a run not forgotten meanwhile is its pushes under the ceiling. */
  lemma {:induction false} AcceptedIsCapped(steps: seq<Step>, maxBatch: nat, maxLogs: nat)
    requires ForgetRun !in steps
    ensures var l := Outcome(steps, maxBatch, maxLogs).lane;
            l.accepted == Capped(PushesOf(steps), maxLogs) && l.logs == LogCount(PushesOf(steps))
    decreases |steps|
  {
    if steps != [] {
      var n := |steps| - 1;
      var before, step := Outcome(steps[..n], maxBatch, maxLogs), steps[n];
      AcceptedIsCapped(steps[..n], maxBatch, maxLogs);
      if step.PushEvent? {
        var pushes := PushesOf(steps[..n]);
        assert (pushes + [step.e])[..|pushes|] == pushes;
        PushedAccepts(before.lane, step.e, maxBatch, maxLogs);
      } else {
        assert step != ForgetRun;
      }
    }
  }
}
