/**
 Following a run from its journal: the reader (`journal-tailer.ts`) and the passes of an agent that adopted
 the run after a restart (`run-manager.ts`, `catchUp` and `follow`).
 */
module JournalFollower {
  import opened Wrappers
  import opened RunEvents
  import opened RunReducer
  import Feed = RunEventFeedModel

  /** A line of the file, trimmed. `Malformed` covers the half-written last one. */
  datatype Line = Blank | Malformed | Intact(event: Event)

  function EventsIn(lines: seq<Line>): seq<Event> {
    if lines == [] then []
    else
      var before, line := EventsIn(lines[..|lines| - 1]), lines[|lines| - 1];
      if line.Intact? then before + [line.event] else before
  }

  function MalformedIn(lines: seq<Line>): nat {
    if lines == [] then 0
    else MalformedIn(lines[..|lines| - 1]) + if lines[|lines| - 1].Malformed? then 1 else 0
  }

  function Highest(from: nat, events: seq<Event>): nat {
    if events == [] then from else Max(Highest(from, events[..|events| - 1]), events[|events| - 1].seqNo)
  }

  lemma {:induction false} OneMoreLine(lines: seq<Line>, i: nat, from: nat)
    requires i < |lines|
    ensures var before, now := Feed.Above(EventsIn(lines[..i]), from), Feed.Above(EventsIn(lines[..i + 1]), from);
            now == if lines[i].Intact? && from < lines[i].event.seqNo then before + [lines[i].event] else before
    ensures MalformedIn(lines[..i + 1]) == MalformedIn(lines[..i]) + if lines[i].Malformed? then 1 else 0
  {
    assert lines[..i + 1][..i] == lines[..i];
    if lines[i].Intact? {
      Feed.AboveAppend(EventsIn(lines[..i]), [lines[i].event], from);
      Feed.AboveHead(lines[i].event, from);
    }
  }

  lemma {:induction false} HighestThen(from: nat, events: seq<Event>, e: Event)
    ensures Highest(from, events + [e]) == Max(Highest(from, events), e.seqNo)
  {
    assert (events + [e])[..|events|] == events;
  }

  lemma {:induction false} HighestIs(from: nat, events: seq<Event>)
    ensures from <= Highest(from, events) && forall i :: 0 <= i < |events| ==> events[i].seqNo <= Highest(from, events)
    ensures Highest(from, events) == from || exists i :: 0 <= i < |events| && events[i].seqNo == Highest(from, events)
  {
    if events != [] {
      var n := |events| - 1;
      HighestIs(from, events[..n]);
      assert forall i :: 0 <= i < n ==> events[..n][i] == events[i];
      if Highest(from, events) != from && Highest(from, events) != events[n].seqNo {
        var i :| 0 <= i < n && events[..n][i].seqNo == Highest(from, events[..n]);
        assert events[i].seqNo == Highest(from, events);
      }
    }
  }

  /** Some lines of the file, from the top, each once. */
  ghost predicate InFileOrder(places: seq<nat>, count: nat) {
    && (forall i :: 0 <= i < |places| ==> places[i] < count)
    && forall i, j :: 0 <= i < j < |places| ==> places[i] < places[j]
  }

  predicate IsNews(line: Line, from: nat) {
    line.Intact? && from < line.event.seqNo
  }

  lemma PlaceThen(places: seq<nat>, n: nat)
    requires InFileOrder(places, n)
    ensures InFileOrder(places, n + 1) && InFileOrder(places + [n], n + 1)
    ensures n !in places && forall k: nat :: k in places + [n] <==> k in places || k == n
  {
  }

  /** The events a read delivers are those of the intact lines above its cursor, line by line. */
  lemma {:induction false} ReadIsLineByLine(lines: seq<Line>, from: nat) returns (places: seq<nat>)
    ensures var events := Feed.Above(EventsIn(lines), from);
            && InFileOrder(places, |lines|) && |places| == |events|
            && (forall i :: 0 <= i < |places| ==> lines[places[i]] == Intact(events[i]))
    ensures forall k :: 0 <= k < |lines| ==> (k in places <==> IsNews(lines[k], from))
    decreases |lines|
  {
    places := [];
    if lines != [] {
      var n := |lines| - 1;
      places := ReadIsLineByLine(lines[..n], from);
      OneMoreLine(lines, n, from);
      PlaceThen(places, n);
      assert lines[..n + 1] == lines;
      assert forall k :: 0 <= k < n ==> lines[..n][k] == lines[k];
      if IsNews(lines[n], from) {
        places := places + [n];
      }
    }
  }

  /** What it counts as malformed are the lines that are. */
  lemma {:induction false} MalformedOnes(lines: seq<Line>) returns (places: seq<nat>)
    ensures InFileOrder(places, |lines|) && |places| == MalformedIn(lines)
    ensures forall k :: 0 <= k < |lines| ==> (k in places <==> lines[k].Malformed?)
    decreases |lines|
  {
    places := [];
    if lines != [] {
      var n := |lines| - 1;
      places := MalformedOnes(lines[..n]);
      if lines[n].Malformed? {
        places := places + [n];
      }
    }
  }

  /** `readJournalAfter`; `pushed` are the calls of `onEvent`. */
  method ReadJournalAfter(lines: seq<Line>, afterSeq: nat)
    returns (pushed: seq<Event>, read: nat, lastSeq: nat, malformed: nat)
    ensures pushed == Feed.Above(EventsIn(lines), afterSeq) && read == |pushed|
    ensures lastSeq == Highest(afterSeq, pushed) && malformed == MalformedIn(lines)
    ensures afterSeq <= lastSeq && forall i :: 0 <= i < |pushed| ==> pushed[i].seqNo <= lastSeq
    ensures lastSeq == afterSeq || exists i :: 0 <= i < |pushed| && pushed[i].seqNo == lastSeq
  {
    pushed, read, lastSeq, malformed := [], 0, afterSeq, 0;
    for i := 0 to |lines|
      invariant pushed == Feed.Above(EventsIn(lines[..i]), afterSeq) && read == |pushed|
      invariant lastSeq == Highest(afterSeq, pushed) && malformed == MalformedIn(lines[..i])
    {
      OneMoreLine(lines, i, afterSeq);
      if lines[i].Blank? {
        continue;
      }
      if lines[i].Malformed? {
        malformed := malformed + 1;
        continue;
      }
      var event := lines[i].event;
      if event.seqNo <= afterSeq {
        continue;
      }
      HighestThen(afterSeq, pushed, event);
      read, lastSeq := read + 1, Max(lastSeq, event.seqNo);
      pushed := pushed + [event];
    }
    assert lines[..|lines|] == lines;
    HighestIs(afterSeq, pushed);
  }

  // ---- one pass ----

  /** How the read of a pass went: to the end, or broken off by an error behind some line. */
  datatype Read = Whole | Broke(after: nat)

  datatype Verdict = Finished(outcome: Outcome) | Vanished

  datatype Caught = Caught(pushed: seq<Event>, read: nat, cursor: nat, outcome: Option<Verdict>)

  function LinesRead(lines: seq<Line>, read: Read): seq<Line> {
    if read.Broke? && read.after < |lines| then lines[..read.after] else lines
  }

  function LastFinish(events: seq<Event>): Option<Verdict> {
    if events == [] then None
    else if events[|events| - 1].body.RunFinished? then Some(Finished(events[|events| - 1].body.outcome))
    else LastFinish(events[..|events| - 1])
  }

  predicate HasFinish(events: seq<Event>) {
    exists i :: 0 <= i < |events| && events[i].body.RunFinished?
  }

  predicate IsLastFinish(events: seq<Event>, i: nat)
    requires i < |events|
  {
    events[i].body.RunFinished? && forall j :: i < j < |events| ==> !events[j].body.RunFinished?
  }

  lemma {:induction false} LastFinishIsLast(events: seq<Event>)
    ensures forall i :: 0 <= i < |events| && IsLastFinish(events, i) ==> LastFinish(events) == Some(Finished(events[i].body.outcome))
  {
    if events != [] {
      var n := |events| - 1;
      LastFinishIsLast(events[..n]);
      assert forall i :: 0 <= i < n && IsLastFinish(events, i) ==> IsLastFinish(events[..n], i);
    }
  }

  /** What a pass makes of the events it pushed. */
  function Judge(pushed: seq<Event>, from: nat, aliveBefore: bool, read: Read): Caught {
    var outcome := if LastFinish(pushed).Some? then LastFinish(pushed) else if aliveBefore then None else Some(Vanished);
    if read.Whole? then Caught(pushed, |pushed|, Highest(from, pushed), outcome) else Caught(pushed, 0, from, outcome)
  }

  /** `catchUp`: aliveness is sampled before the read; a read that throws leaves the cursor where it was. */
  function CatchUp(lines: seq<Line>, from: nat, aliveBefore: bool, read: Read): Caught {
    Judge(Feed.Above(EventsIn(LinesRead(lines, read)), from), from, aliveBefore, read)
  }

  method RunPass(lines: seq<Line>, from: nat, aliveBefore: bool, read: Read) returns (caught: Caught)
    ensures caught == CatchUp(lines, from, aliveBefore, read)
    // Only a read that went through counts and moves the cursor; what it pushed before it broke is pushed all the same.
    ensures read.Broke? ==> caught.read == 0 && caught.cursor == from
    ensures read.Whole? ==> caught.read == |caught.pushed| && forall i :: 0 <= i < |caught.pushed| ==> caught.pushed[i].seqNo <= caught.cursor
    ensures caught.pushed == Feed.Above(EventsIn(if read.Broke? && read.after < |lines| then lines[..read.after] else lines), from)
    // The last outcome pushed is the run's; without one, a process gone before the read has vanished.
    ensures forall i :: 0 <= i < |caught.pushed| && IsLastFinish(caught.pushed, i) ==>
              caught.outcome == Some(Finished(caught.pushed[i].body.outcome))
    ensures !HasFinish(caught.pushed) ==> caught.outcome == if aliveBefore then None else Some(Vanished)
  {
    var pushed, count, lastSeq, malformed := ReadJournalAfter(LinesRead(lines, read), from);
    var terminal: Option<Verdict> := None;
    for i := 0 to |pushed|
      invariant terminal == LastFinish(pushed[..i])
    {
      assert pushed[..i + 1][..i] == pushed[..i];
      if pushed[i].body.RunFinished? {
        terminal := Some(Finished(pushed[i].body.outcome));
      }
    }
    assert pushed[..|pushed|] == pushed;
    LastFinishFinds(pushed);
    LastFinishIsLast(pushed);
    var newCount, cursor := 0, from;
    if read.Whole? {
      newCount, cursor := count, lastSeq;
    }
    if terminal.Some? {
      return Caught(pushed, newCount, cursor, terminal);
    }
    if !aliveBefore {
      return Caught(pushed, newCount, cursor, Some(Vanished));
    }
    return Caught(pushed, newCount, cursor, None);
  }

  // ---- the ticks ----

  /** The closure of `follow`, and whom it reports a stall to. */
  class Follower {
    const stallAfterMs: int
    var cursor: nat
    var busy: bool
    var lastEventAt: int
    var reportedStall: bool
    var following: bool

    constructor (fromSeq: nat, now: int, stallAfterMs: int)
      ensures cursor == fromSeq && !busy && lastEventAt == now && !reportedStall && following && this.stallAfterMs == stallAfterMs
    {
      cursor, busy, lastEventAt, reportedStall, following := fromSeq, false, now, false, true;
      this.stallAfterMs := stallAfterMs;
    }

    /** A tick that finds a pass under way does nothing. */
    method BeginTick() returns (started: bool)
      modifies this`busy
      ensures started == !old(busy) && busy
    {
      started := !busy;
      busy := true;
    }

    method EndTick(caught: Caught, now: int) returns (stalled: bool)
      requires busy
      modifies this
      ensures !busy && cursor == caught.cursor && following == (old(following) && caught.outcome.None?)
      ensures stalled == (caught.read == 0 && !old(reportedStall) && now - old(lastEventAt) >= stallAfterMs)
      ensures lastEventAt == if caught.read > 0 then now else old(lastEventAt)
      ensures reportedStall == (caught.read == 0 && (old(reportedStall) || stalled))
    {
      cursor, stalled := caught.cursor, false;
      if caught.read > 0 {
        lastEventAt, reportedStall := now, false;
      } else if !reportedStall && now - lastEventAt >= stallAfterMs {
        reportedStall, stalled := true, true;
      }
      if caught.outcome.Some? {
        following := false;
      }
      busy := false;
    }
  }

  // ---- a followed run, against its growing journal ----

  /** A pass under way: what was sampled, and how long the journal was by then. */
  datatype Pass = Pass(aliveBefore: bool, linesThen: nat)

  datatype Follow = Follow(
    journal: seq<Line>,
    alive: bool,
    cursor: nat,
    pass: Option<Pass>,
    pushed: seq<Event>,
    verdict: Option<Verdict>,
    /** Whether some pass so far broke off, and whether the one that gave the verdict did. */
    broken: bool,
    judgedBroken: bool,
    /** How many lines the last pass that read to the end was shown. */
    covered: nat)

  datatype Step =
    | WriteLine(line: Line)
    | Dies
    | Tick
    /** The read saw the first `seen` lines, and perhaps the start of one more. */
    | PassEnds(seen: nat, partial: bool, read: Read)

  predicate Enabled(f: Follow, step: Step) {
    match step
    case WriteLine(line) => f.alive && Ascending(EventsIn(f.journal + [line]))
    case Dies => f.alive
    case Tick => f.pass.None? && f.verdict.None?
    case PassEnds(seen, _, _) => f.pass.Some? && f.pass.value.linesThen <= seen <= |f.journal|
  }

  function Seen(journal: seq<Line>, seen: nat, partial: bool): seq<Line>
    requires seen <= |journal|
  {
    if partial then journal[..seen] + [Malformed] else journal[..seen]
  }

  function AfterPass(f: Follow, caught: Caught, seen: nat, read: Read): Follow {
    f.(pass := None, cursor := caught.cursor, pushed := f.pushed + caught.pushed, verdict := caught.outcome,
       broken := f.broken || read.Broke?, judgedBroken := read.Broke?, covered := if read.Whole? then seen else f.covered)
  }

  function Apply(f: Follow, step: Step): Follow
    requires Enabled(f, step)
  {
    match step
    case WriteLine(line) => f.(journal := f.journal + [line])
    case Dies => f.(alive := false)
    case Tick => f.(pass := Some(Pass(f.alive, |f.journal|)))
    case PassEnds(seen, partial, read) =>
      AfterPass(f, CatchUp(Seen(f.journal, seen, partial), f.cursor, f.pass.value.aliveBefore, read), seen, read)
  }

  predicate Init(f: Follow, start: nat) {
    && Ascending(EventsIn(f.journal)) && f.cursor == start && f.pass.None? && f.pushed == [] && f.verdict.None?
    && !f.broken && !f.judgedBroken && f.covered == 0
  }

  function FollowedBy(f: Follow, steps: seq<Step>): Follow
    decreases |steps|
  {
    if steps == [] then f
    else
      var before, step := FollowedBy(f, steps[..|steps| - 1]), steps[|steps| - 1];
      if Enabled(before, step) then Apply(before, step) else before
  }

  // ---- the invariant ----

  /** What the passes pushed is, repeats dropped, the journal above `start` without a hole. */
  predicate InOrder(f: Follow, start: nat) {
    && start <= f.cursor <= LastOr(start, Accepted(start, f.pushed))
    && Accepted(start, f.pushed) <= Feed.Above(EventsIn(f.journal), start)
    && (!f.broken ==> f.pushed <= Feed.Above(EventsIn(f.journal), start) && f.cursor == LastOr(start, f.pushed))
  }

  /** The events of the journal's first `n` lines above a seq. */
  function FirstLines(journal: seq<Line>, n: nat, from: nat): seq<Event>
    requires n <= |journal|
  {
    Feed.Above(EventsIn(journal[..n]), from)
  }

  /** Everything the last whole pass was shown is pushed; with no read broken so far, nothing else is. */
  predicate Complete(f: Follow, start: nat) {
    && f.covered <= |f.journal| && (f.pass.Some? ==> f.covered <= f.pass.value.linesThen)
    && FirstLines(f.journal, f.covered, start) <= Accepted(start, f.pushed)
    && (!f.broken ==> f.pushed == FirstLines(f.journal, f.covered, start))
  }

  predicate PassOk(f: Follow) {
    f.pass.Some? ==> f.pass.value.linesThen <= |f.journal| && (!f.pass.value.aliveBefore ==> !f.alive && f.pass.value.linesThen == |f.journal|)
  }

  predicate FinishedSo(events: seq<Event>, outcome: Outcome) {
    exists i :: 0 <= i < |events| && events[i].body.RunFinished? && events[i].body.outcome == outcome
  }

  predicate VerdictOk(f: Follow, start: nat) {
    match f.verdict
    case None => !HasFinish(f.pushed)
    case Some(Vanished) =>
      !HasFinish(f.pushed) && !f.alive && (!f.judgedBroken ==> Accepted(start, f.pushed) == Feed.Above(EventsIn(f.journal), start))
    case Some(Finished(outcome)) => FinishedSo(Feed.Above(EventsIn(f.journal), start), outcome)
  }

  predicate Inv(f: Follow, start: nat) {
    && Ascending(EventsIn(f.journal)) && InOrder(f, start) && Complete(f, start) && PassOk(f) && VerdictOk(f, start)
    && (f.verdict.Some? ==> f.pass.None?)
  }

  // ---- what a read sees ----

  lemma {:induction false} EventsAppend(a: seq<Line>, b: seq<Line>)
    ensures EventsIn(a + b) == EventsIn(a) + EventsIn(b)
    decreases |b|
  {
    if b == [] {
      assert a + b == a;
    } else {
      assert (a + b)[..|a| + |b| - 1] == a + b[..|b| - 1];
      EventsAppend(a, b[..|b| - 1]);
    }
  }

  lemma {:induction false} PartialIsNoEvent(lines: seq<Line>)
    ensures EventsIn(lines + [Malformed]) == EventsIn(lines)
  {
    assert (lines + [Malformed])[..|lines|] == lines;
  }

  /** Whatever happens to a read, it sees the events of some first lines of the journal; a whole one, of all it was shown. */
  lemma ReadSeesAPrefix(journal: seq<Line>, seen: nat, partial: bool, read: Read) returns (k: nat)
    requires seen <= |journal|
    ensures k <= seen && (read.Whole? ==> k == seen)
    ensures EventsIn(LinesRead(Seen(journal, seen, partial), read)) == EventsIn(journal[..k])
  {
    var shown := Seen(journal, seen, partial);
    PartialIsNoEvent(journal[..seen]);
    if read.Broke? && read.after < |shown| {
      k := read.after;
      assert shown[..k] == journal[..k];
    } else {
      k := seen;
    }
  }

  lemma {:induction false} PageIsPrefix(journal: seq<Line>, k: nat, c: nat)
    requires k <= |journal|
    ensures Feed.Above(EventsIn(journal[..k]), c) <= Feed.Above(EventsIn(journal), c)
  {
    assert journal == journal[..k] + journal[k..];
    EventsAppend(journal[..k], journal[k..]);
    Feed.AboveAppend(EventsIn(journal[..k]), EventsIn(journal[k..]), c);
  }

  lemma {:induction false} HighestIsLast(from: nat, events: seq<Event>)
    requires Ascending(events) && Feed.Over(events, from)
    ensures Highest(from, events) == LastOr(from, events)
  {
    if events != [] {
      HighestIsLast(from, events[..|events| - 1]);
    }
  }

  lemma {:induction false} PrefixAscends(log: seq<Event>, c: nat, page: seq<Event>)
    requires Ascending(log) && page <= Feed.Above(log, c)
    ensures Ascending(page) && Feed.Over(page, c)
  {
    var rest := Feed.PrefixRest(Feed.Above(log, c), page);
    Feed.AboveAscends(log, c);
    Feed.AboveIsOver(log, c);
    Feed.AscendingPieces(page, rest, c);
    assert forall i :: 0 <= i < |page| ==> Feed.Above(log, c)[i] == page[i];
  }

  // ---- one pass, on events ----

  /** A page pushed behind what is already in order. */
  lemma {:induction false} PageInOrder(log: seq<Event>, start: nat, pushed: seq<Event>, c: nat, page: seq<Event>)
    requires Ascending(log) && Accepted(start, pushed) <= Feed.Above(log, start)
    requires start <= c <= LastOr(start, Accepted(start, pushed)) && page <= Feed.Above(log, c)
    ensures Accepted(start, pushed + page) <= Feed.Above(log, start)
    ensures c <= LastOr(c, page) <= LastOr(start, Accepted(start, pushed + page))
    ensures c <= LastOr(start, Accepted(start, pushed + page)) && Highest(c, page) == LastOr(c, page)
  {
    Feed.PageExtends(log, start, pushed, c, page);
    Feed.LastReached(start, pushed, page);
    PrefixAscends(log, c, page);
    HighestIsLast(c, page);
  }

  /** With no read broken so far, the page continues exactly where the pushes stopped. */
  lemma {:induction false} PageContinues(log: seq<Event>, start: nat, pushed: seq<Event>, page: seq<Event>)
    requires Ascending(log) && pushed <= Feed.Above(log, start) && page <= Feed.Above(log, LastOr(start, pushed))
    ensures pushed + page <= Feed.Above(log, start)
    ensures LastOr(LastOr(start, pushed), page) == LastOr(start, pushed + page)
  {
    Feed.TakenThenRest(log, start, pushed);
    Feed.PrefixJoin(Feed.Above(log, start), pushed, Feed.Above(log, LastOr(start, pushed)), page);
  }

  lemma {:induction false} AcceptedGrows(start: nat, pushed: seq<Event>, page: seq<Event>)
    ensures Accepted(start, pushed) <= Accepted(start, pushed + page)
  {
    AcceptedAppend(start, pushed, page);
  }

  /** The shorter of two first parts of one sequence is a first part of the longer. */
  lemma TwoPrefixes(a: seq<Event>, b: seq<Event>, all: seq<Event>)
    requires a <= all && b <= all
    ensures a <= b || b <= a
  {
  }

  /** A whole read of some first lines leaves nothing of them out, wherever the cursor lagged behind. */
  lemma {:induction false} WholeReadCovers(journal: seq<Line>, n: nat, start: nat, pushed: seq<Event>, c: nat)
    requires n <= |journal| && Ascending(EventsIn(journal))
    requires Accepted(start, pushed) <= Feed.Above(EventsIn(journal), start)
    requires start <= c <= LastOr(start, Accepted(start, pushed))
    ensures FirstLines(journal, n, start) <= Accepted(start, pushed + FirstLines(journal, n, c))
  {
    var taken, shown := Accepted(start, pushed), FirstLines(journal, n, start);
    PageIsPrefix(journal, n, start);
    TwoPrefixes(shown, taken, Feed.Above(EventsIn(journal), start));
    if taken <= shown {
      FirstLinesAscend(journal, n);
      Feed.WholeAboveCompletes(EventsIn(journal[..n]), start, pushed, c);
    } else {
      AcceptedGrows(start, pushed, FirstLines(journal, n, c));
    }
  }

  lemma {:induction false} FirstLinesAscend(journal: seq<Line>, n: nat)
    requires n <= |journal| && Ascending(EventsIn(journal))
    ensures Ascending(EventsIn(journal[..n]))
  {
    assert journal == journal[..n] + journal[n..];
    EventsAppend(journal[..n], journal[n..]);
    var front, all := EventsIn(journal[..n]), EventsIn(journal);
    assert forall i :: 0 <= i < |front| ==> front[i] == all[i];
  }

  /** With no read broken so far, a whole read goes on exactly where the last one stopped. */
  lemma {:induction false} WholeReadContinues(journal: seq<Line>, m: nat, n: nat, start: nat)
    requires m <= n <= |journal| && Ascending(EventsIn(journal))
    ensures var pushed := FirstLines(journal, m, start);
            pushed + FirstLines(journal, n, LastOr(start, pushed)) == FirstLines(journal, n, start)
  {
    FirstLinesAscend(journal, n);
    assert journal[..n][..m] == journal[..m];
    PageIsPrefix(journal[..n], m, start);
    Feed.TakenThenRest(EventsIn(journal[..n]), start, FirstLines(journal, m, start));
  }

  lemma {:induction false} LastFinishFinds(events: seq<Event>)
    ensures LastFinish(events).Some? <==> HasFinish(events)
    ensures LastFinish(events) != Some(Vanished)
    ensures LastFinish(events).Some? ==> FinishedSo(events, LastFinish(events).value.outcome)
  {
    if events != [] {
      var n := |events| - 1;
      LastFinishFinds(events[..n]);
      if events[n].body.RunFinished? {
        assert HasFinish(events);
      } else if HasFinish(events) {
        var i :| 0 <= i < |events| && events[i].body.RunFinished?;
        assert events[..n][i].body.RunFinished?;
      } else {
        assert forall i :: 0 <= i < n ==> events[..n][i] == events[i];
      }
    }
  }

  lemma FinishJoins(a: seq<Event>, b: seq<Event>)
    ensures HasFinish(a + b) <==> HasFinish(a) || HasFinish(b)
  {
    if HasFinish(a) {
      var i :| 0 <= i < |a| && a[i].body.RunFinished?;
      assert (a + b)[i].body.RunFinished?;
    } else if HasFinish(b) {
      var i :| 0 <= i < |b| && b[i].body.RunFinished?;
      assert (a + b)[|a| + i].body.RunFinished?;
    }
  }

  lemma {:induction false} FinishSurvives(page: seq<Event>, log: seq<Event>, c: nat, start: nat, outcome: Outcome)
    requires page <= Feed.Above(log, c) && start <= c && FinishedSo(page, outcome)
    ensures FinishedSo(Feed.Above(log, start), outcome)
  {
    var i :| 0 <= i < |page| && page[i].body.RunFinished? && page[i].body.outcome == outcome;
    assert page[i] == Feed.Above(log, c)[i];
    Feed.AboveTwice(log, start, c);
    Feed.AboveIsIn(Feed.Above(log, start), c);
    var k :| 0 <= k < |Feed.Above(log, start)| && Feed.Above(log, start)[k] == page[i];
  }

  // ---- steps ----

  lemma WriteKeepsInv(f: Follow, line: Line, start: nat)
    requires Inv(f, start) && Enabled(f, WriteLine(line))
    ensures Inv(Apply(f, WriteLine(line)), start)
  {
    var log, more := EventsIn(f.journal), EventsIn([line]);
    EventsAppend(f.journal, [line]);
    Feed.AboveAppend(log, more, start);
    assert (f.journal + [line])[..f.covered] == f.journal[..f.covered];
    if f.verdict.Some? && f.verdict.value.Finished? {
      FinishStays(Feed.Above(log, start), Feed.Above(more, start), f.verdict.value.outcome);
    }
  }

  lemma FinishStays(a: seq<Event>, b: seq<Event>, outcome: Outcome)
    requires FinishedSo(a, outcome)
    ensures FinishedSo(a + b, outcome)
  {
    var i :| 0 <= i < |a| && a[i].body.RunFinished? && a[i].body.outcome == outcome;
    assert (a + b)[i] == a[i];
  }

  /** What a pass sees: a page of the journal above the cursor, the whole of it when nothing was missed. */
  lemma PassSees(f: Follow, start: nat, seen: nat, partial: bool, read: Read) returns (page: seq<Event>)
    requires Inv(f, start) && Enabled(f, PassEnds(seen, partial, read))
    ensures Apply(f, PassEnds(seen, partial, read)) == AfterPass(f, Judge(page, f.cursor, f.pass.value.aliveBefore, read), seen, read)
    ensures page <= Feed.Above(EventsIn(f.journal), f.cursor)
    ensures read.Whole? ==> page == FirstLines(f.journal, seen, f.cursor)
    ensures read.Whole? && !f.pass.value.aliveBefore ==> page == Feed.Above(EventsIn(f.journal), f.cursor)
  {
    var k := ReadSeesAPrefix(f.journal, seen, partial, read);
    page := Feed.Above(EventsIn(f.journal[..k]), f.cursor);
    PageIsPrefix(f.journal, k, f.cursor);
    assert k == |f.journal| ==> f.journal[..k] == f.journal;
  }

  lemma {:induction false} PassInOrder(f: Follow, start: nat, page: seq<Event>, next: Follow)
    requires Ascending(EventsIn(f.journal)) && InOrder(f, start) && page <= Feed.Above(EventsIn(f.journal), f.cursor)
    requires next.journal == f.journal && next.pushed == f.pushed + page && (!next.broken ==> !f.broken)
    requires next.cursor == Highest(f.cursor, page) || (next.cursor == f.cursor && next.broken)
    ensures InOrder(next, start)
  {
    var log := EventsIn(f.journal);
    PageInOrder(log, start, f.pushed, f.cursor, page);
    if !f.broken {
      PageContinues(log, start, f.pushed, page);
    }
  }

  lemma {:induction false} PassVerdict(f: Follow, start: nat, page: seq<Event>, next: Follow)
    requires Ascending(EventsIn(f.journal)) && InOrder(f, start) && page <= Feed.Above(EventsIn(f.journal), f.cursor)
    requires !HasFinish(f.pushed) && next.journal == f.journal && next.pushed == f.pushed + page
    requires next.verdict == LastFinish(page) || (LastFinish(page).None? && next.verdict == Some(Vanished) && !next.alive)
    requires !next.alive && !next.judgedBroken && next.verdict == Some(Vanished) ==> page == Feed.Above(EventsIn(f.journal), f.cursor)
    ensures VerdictOk(next, start)
  {
    var log := EventsIn(f.journal);
    LastFinishFinds(page);
    FinishJoins(f.pushed, page);
    if LastFinish(page).Some? {
      FinishSurvives(page, log, f.cursor, start, LastFinish(page).value.outcome);
    } else if next.verdict.Some? && !next.judgedBroken {
      Feed.WholeAboveCompletes(log, start, f.pushed, f.cursor);
    }
  }

  lemma PassCompletes(f: Follow, start: nat, page: seq<Event>, seen: nat, next: Follow)
    requires Ascending(EventsIn(f.journal)) && InOrder(f, start) && Complete(f, start)
    requires f.covered <= seen <= |f.journal| && next.journal == f.journal && next.pushed == f.pushed + page && next.pass.None?
    requires || (page == FirstLines(f.journal, seen, f.cursor) && next.covered == seen && next.broken == f.broken)
             || (next.covered == f.covered && next.broken)
    ensures Complete(next, start)
  {
    AcceptedGrows(start, f.pushed, page);
    if next.covered == seen && page == FirstLines(f.journal, seen, f.cursor) {
      WholeReadCovers(f.journal, seen, start, f.pushed, f.cursor);
      if !f.broken {
        WholeReadContinues(f.journal, f.covered, seen, start);
      }
    }
  }

  lemma PassKeepsInv(f: Follow, start: nat, seen: nat, partial: bool, read: Read)
    requires Inv(f, start) && Enabled(f, PassEnds(seen, partial, read))
    ensures Inv(Apply(f, PassEnds(seen, partial, read)), start)
  {
    var page := PassSees(f, start, seen, partial, read);
    PageKeepsInv(f, start, page, seen, read);
  }

  lemma PageKeepsInv(f: Follow, start: nat, page: seq<Event>, seen: nat, read: Read)
    requires Inv(f, start) && f.pass.Some? && page <= Feed.Above(EventsIn(f.journal), f.cursor)
    requires read.Whole? && !f.pass.value.aliveBefore ==> page == Feed.Above(EventsIn(f.journal), f.cursor)
    requires f.pass.value.linesThen <= seen <= |f.journal| && (read.Whole? ==> page == FirstLines(f.journal, seen, f.cursor))
    ensures Inv(AfterPass(f, Judge(page, f.cursor, f.pass.value.aliveBefore, read), seen, read), start)
  {
    var next := AfterPass(f, Judge(page, f.cursor, f.pass.value.aliveBefore, read), seen, read);
    PassCompletes(f, start, page, seen, next);
    PassInOrder(f, start, page, next);
    LastFinishFinds(page);
    PassVerdict(f, start, page, next);
  }

  lemma StepKeepsInv(f: Follow, step: Step, start: nat)
    requires Inv(f, start) && Enabled(f, step)
    ensures Inv(Apply(f, step), start)
  {
    match step
    case WriteLine(line) => WriteKeepsInv(f, line, start);
    case Dies =>
    case Tick =>
    case PassEnds(seen, partial, read) => PassKeepsInv(f, start, seen, partial, read);
  }

  lemma {:induction false} RunKeepsInv(f: Follow, steps: seq<Step>, start: nat)
    requires Init(f, start)
    ensures Inv(FollowedBy(f, steps), start)
    decreases |steps|
  {
    if steps != [] {
      var before := FollowedBy(f, steps[..|steps| - 1]);
      RunKeepsInv(f, steps[..|steps| - 1], start);
      if Enabled(before, steps[|steps| - 1]) {
        StepKeepsInv(before, steps[|steps| - 1], start);
      }
    }
  }

  // ---- the theorems ----

  /**
   Over any series of passes on a growing journal, half-written lines and broken reads among them, what was
   pushed is, repeats dropped, a first part of the journal above the starting cursor, in order and without a
   hole, and holds at least everything the last whole pass was shown; while no read breaks off it is exactly
   that, each event once.
   */
  lemma {:induction false} PushesFollowJournal(f: Follow, steps: seq<Step>, start: nat)
    requires Init(f, start)
    ensures var end := FollowedBy(f, steps);
            && end.covered <= |end.journal|
            && FirstLines(end.journal, end.covered, start) <= Accepted(start, end.pushed)
            && Accepted(start, end.pushed) <= Feed.Above(EventsIn(end.journal), start)
            && (!end.broken ==> end.pushed == FirstLines(end.journal, end.covered, start))
  {
    RunKeepsInv(f, steps, start);
  }

  /**
   A pass that reads to the end leaves nothing it was shown unpushed, whatever broke off before it; shown the
   whole journal, it brings the pushes level with it.
   */
  lemma {:induction false} WholePassCatchesUp(f: Follow, steps: seq<Step>, start: nat, seen: nat, partial: bool)
    requires Init(f, start) && Enabled(FollowedBy(f, steps), PassEnds(seen, partial, Whole))
    ensures var end := Apply(FollowedBy(f, steps), PassEnds(seen, partial, Whole));
            && FirstLines(end.journal, seen, start) <= Accepted(start, end.pushed)
            && (seen == |end.journal| ==> Accepted(start, end.pushed) == Feed.Above(EventsIn(end.journal), start))
            && (!end.broken ==> end.pushed == FirstLines(end.journal, seen, start))
  {
    var before := FollowedBy(f, steps);
    RunKeepsInv(f, steps, start);
    PassKeepsInv(before, start, seen, partial, Whole);
    assert before.journal[..|before.journal|] == before.journal;
  }

  lemma {:induction false} ThreeSteps(f: Follow, a: Step, b: Step, c: Step)
    requires Enabled(f, a) && Enabled(Apply(f, a), b) && Enabled(Apply(Apply(f, a), b), c)
    ensures FollowedBy(f, [a, b, c]) == Apply(Apply(Apply(f, a), b), c)
  {
    assert [a, b, c][..2] == [a, b] && [a, b][..1] == [a] && [a][..0] == [];
    assert FollowedBy(f, [a]) == Apply(f, a);
    assert FollowedBy(f, [a, b]) == Apply(Apply(f, a), b);
  }

  /** Whatever the process writes, the next pass that reads to the end pushes, with all that was left before it. */
  lemma {:induction false} WrittenIsPushed(f: Follow, start: nat, line: Line)
    requires Inv(f, start) && f.pass.None? && f.verdict.None? && Enabled(f, WriteLine(line))
    ensures var end := FollowedBy(f, [WriteLine(line), Tick, PassEnds(|f.journal| + 1, false, Whole)]);
            && end.journal == f.journal + [line] && end.pass.None?
            && Accepted(start, end.pushed) == Feed.Above(EventsIn(f.journal + [line]), start)
  {
    var written := Apply(f, WriteLine(line));
    var ticked := Apply(written, Tick);
    var n := |f.journal| + 1;
    StepKeepsInv(f, WriteLine(line), start);
    StepKeepsInv(written, Tick, start);
    ThreeSteps(f, WriteLine(line), Tick, PassEnds(n, false, Whole));
    WholeIsLevel(ticked, start, n);
  }

  lemma {:induction false} WholeIsLevel(f: Follow, start: nat, n: nat)
    requires Inv(f, start) && Enabled(f, PassEnds(n, false, Whole)) && n == |f.journal|
    ensures Accepted(start, Apply(f, PassEnds(n, false, Whole)).pushed) == Feed.Above(EventsIn(f.journal), start)
  {
    PassKeepsInv(f, start, n, false, Whole);
    assert f.journal[..n] == f.journal;
  }

  predicate SettledBy(verdict: Option<Verdict>, unread: seq<Event>) {
    if HasFinish(unread) then verdict.Some? && verdict.value.Finished? && FinishedSo(unread, verdict.value.outcome)
    else verdict == Some(Vanished)
  }

  lemma {:induction false} LastPassSettles(f: Follow, start: nat, partial: bool)
    requires Inv(f, start) && Enabled(f, PassEnds(|f.journal|, partial, Whole)) && !f.pass.value.aliveBefore
    ensures SettledBy(Apply(f, PassEnds(|f.journal|, partial, Whole)).verdict, Feed.Above(EventsIn(f.journal), f.cursor))
  {
    var page := PassSees(f, start, |f.journal|, partial, Whole);
    JudgeSettles(page, f.cursor);
  }

  lemma {:induction false} JudgeSettles(page: seq<Event>, from: nat)
    ensures SettledBy(Judge(page, from, false, Whole).outcome, page)
  {
    LastFinishFinds(page);
  }

  /** Once the process is gone the next pass settles the run: as its journal says, and as vanished if it says nothing. */
  lemma {:induction false} DeadIsSettled(f: Follow, start: nat, partial: bool)
    requires Inv(f, start) && f.pass.None? && f.verdict.None? && f.alive
    ensures var end := FollowedBy(f, [Dies, Tick, PassEnds(|f.journal|, partial, Whole)]);
            && end.journal == f.journal && !end.alive && end.pass.None?
            && SettledBy(end.verdict, Feed.Above(EventsIn(f.journal), f.cursor))
  {
    var dead := Apply(f, Dies);
    StepKeepsInv(f, Dies, start);
    StepKeepsInv(dead, Tick, start);
    ThreeSteps(f, Dies, Tick, PassEnds(|f.journal|, partial, Whole));
    LastPassSettles(Apply(dead, Tick), start, partial);
  }

  /**
   A run is settled as finished only on the journal's word. It is settled as vanished, when the last read
   went through, only once its process is gone, all it wrote is pushed, and there is no outcome in it.
   */
  lemma {:induction false} VerdictsAreTrue(f: Follow, steps: seq<Step>, start: nat)
    requires Init(f, start)
    ensures var end := FollowedBy(f, steps); var above := Feed.Above(EventsIn(end.journal), start);
            match end.verdict
            case None => true
            case Some(Finished(outcome)) => FinishedSo(above, outcome)
            case Some(Vanished) => !end.judgedBroken ==> !end.alive && !HasFinish(above) && Accepted(start, end.pushed) == above
  {
    RunKeepsInv(f, steps, start);
    var end := FollowedBy(f, steps);
    var above := Feed.Above(EventsIn(end.journal), start);
    FinishWasPushed(start, end.pushed);
  }

  lemma {:induction false} FinishWasPushed(start: nat, pushed: seq<Event>)
    ensures HasFinish(Accepted(start, pushed)) ==> HasFinish(pushed)
  {
    if HasFinish(Accepted(start, pushed)) {
      var i :| 0 <= i < |Accepted(start, pushed)| && Accepted(start, pushed)[i].body.RunFinished?;
      InAccepted(start, pushed, Accepted(start, pushed)[i]);
    }
  }

  lemma {:induction false} InAccepted(lastSeq: nat, events: seq<Event>, e: Event)
    requires e in Accepted(lastSeq, events)
    ensures e in events
    decreases |events|
  {
    if events != [] && e != events[0] {
      InAccepted(if events[0].seqNo <= lastSeq then lastSeq else events[0].seqNo, events[1..], e);
    }
  }

  // ---- a broken read ----

  predicate IsFinish(line: Line, from: nat) {
    line.Intact? && from < line.event.seqNo && line.event.body.RunFinished?
  }

  /** The place of the first `run_finished` above the cursor; the journal's length if it holds none. */
  function FirstFinish(lines: seq<Line>, from: nat): (i: nat)
    ensures i <= |lines|
  {
    if lines == [] then 0
    else
      var n := |lines| - 1;
      var i := FirstFinish(lines[..n], from);
      if i < n then i else if IsFinish(lines[n], from) then n else n + 1
  }

  lemma {:induction false} FinishNext(lines: seq<Line>, n: nat, from: nat)
    requires n < |lines|
    ensures HasFinish(Feed.Above(EventsIn(lines[..n + 1]), from))
       <==> HasFinish(Feed.Above(EventsIn(lines[..n]), from)) || IsFinish(lines[n], from)
  {
    OneMoreLine(lines, n, from);
    if lines[n].Intact? && from < lines[n].event.seqNo {
      FinishJoins(Feed.Above(EventsIn(lines[..n]), from), [lines[n].event]);
      assert HasFinish([lines[n].event]) <==> [lines[n].event][0].body.RunFinished?;
    }
  }

  lemma {:induction false} FinishIsFirst(lines: seq<Line>, from: nat)
    ensures HasFinish(Feed.Above(EventsIn(lines), from)) <==> FirstFinish(lines, from) < |lines|
  {
    if lines != [] {
      var n := |lines| - 1;
      FinishIsFirst(lines[..n], from);
      FinishNext(lines, n, from);
      assert lines[..n + 1] == lines;
    }
  }

  lemma {:induction false} FirstIsFirst(lines: seq<Line>, from: nat, n: nat)
    requires n <= |lines|
    ensures FirstFinish(lines[..n], from) == Min(FirstFinish(lines, from), n)
    decreases |lines|
  {
    if n < |lines| {
      FirstIsFirst(lines[..|lines| - 1], from, n);
      assert lines[..|lines| - 1][..n] == lines[..n];
    } else {
      assert lines[..n] == lines;
    }
  }

  /**
   The pass declares a finished run vanished exactly when its process is gone and the read broke off at
   or before the line that holds the outcome.
   */
  lemma {:induction false} FalseVanishedExactly(lines: seq<Line>, from: nat, aliveBefore: bool, read: Read)
    ensures CatchUp(lines, from, aliveBefore, read).outcome == Some(Vanished) && HasFinish(Feed.Above(EventsIn(lines), from))
       <==> !aliveBefore && read.Broke? && read.after <= FirstFinish(lines, from) < |lines|
  {
    var seen := LinesRead(lines, read);
    LastFinishFinds(Feed.Above(EventsIn(seen), from));
    FinishIsFirst(lines, from);
    FinishIsFirst(seen, from);
    assert seen == lines[..|seen|];
    FirstIsFirst(lines, from, |seen|);
  }

  /** Such a journal: one line, the outcome, and a read that fails before it. */
  lemma BrokenReadLosesOutcome(done: Event)
    requires done.seqNo > 0 && done.body.RunFinished? && done.body.outcome.Succeeded?
    ensures CatchUp([Intact(done)], 0, false, Broke(0)).outcome == Some(Vanished)
    ensures CatchUp([Intact(done)], 0, false, Whole).outcome == Some(Finished(done.body.outcome))
  {
  }
}
