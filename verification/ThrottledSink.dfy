/**
 The sinks between a run's own process and its journal: progress is coalesced (`throttled-sink.ts`), then
 whatever survives is numbered (`seq-sink.ts`). Every reading of the clock is an argument.
 */
module ThrottledSinkModel {
  import opened Wrappers
  import opened RunEvents

  datatype Key = Table(name: string) | Overall

  function KeyOf(e: Body): Option<Key> {
    match e
    case TableProgress(table, _, _, _) => Some(Table(table))
    case OverallProgress(_, _, _, _) => Some(Key.Overall)
    case _ => None
  }

  /** A sample of a table's progress, or of the whole run's. */
  predicate IsProgressOf(e: Body, k: Key) {
    (e.TableProgress? && k == Table(e.table)) || (e.OverallProgress? && k == Key.Overall)
  }

  /** One call of the target, with the clock readings around it. */
  datatype Emission =
    | Passed(event: Body)
    | Sampled(event: Body, checkedAt: int, sentAt: int)
    | Forced(event: Body, sentAt: int)

  /** A `Map` of held samples, in insertion order. */
  type Held = seq<(Key, Body)>

  datatype Sink = Sink(lastSentAt: map<Key, int>, pending: Held, sent: seq<Emission>)

  function HeldFor(pending: Held, k: Key): Option<Body> {
    if pending == [] then None else if pending[0].0 == k then Some(pending[0].1) else HeldFor(pending[1..], k)
  }

  function Drop(pending: Held, k: Key): Held {
    if pending == [] then [] else if pending[0].0 == k then pending[1..] else [pending[0]] + Drop(pending[1..], k)
  }

  /** `Map.set`: a key already there keeps its place. */
  function Put(pending: Held, k: Key, e: Body): Held {
    if pending == [] then [(k, e)]
    else if pending[0].0 == k then [(k, e)] + pending[1..]
    else [pending[0]] + Put(pending[1..], k, e)
  }

  function FlushKey(s: Sink, k: Key, at: int): Sink {
    match HeldFor(s.pending, k)
    case None => s
    case Some(held) => Sink(s.lastSentAt[k := at], Drop(s.pending, k), s.sent + [Forced(held, at)])
  }

  function FlushKeys(s: Sink, keys: seq<Key>, at: Key -> int): Sink
    decreases |keys|
  {
    if keys == [] then s else FlushKeys(FlushKey(s, keys[0], at(keys[0])), keys[1..], at)
  }

  function KeysOf(pending: Held): seq<Key> {
    seq(|pending|, i requires 0 <= i < |pending| => pending[i].0)
  }

  /** The held samples of a finished table, and the overall one, are out before its event. */
  function Settle(s: Sink, e: Body, at: Key -> int): Sink {
    if e.TableFinished? then FlushKey(FlushKey(s, Table(e.table), at(Table(e.table))), Key.Overall, at(Key.Overall)) else s
  }

  function Pass(s: Sink, e: Body, at: Key -> int): Sink {
    var settled := Settle(s, e, at);
    settled.(sent := settled.sent + [Passed(e)])
  }

  predicate Due(s: Sink, k: Key, interval: int, checkedAt: int) {
    k in s.lastSentAt ==> checkedAt - s.lastSentAt[k] >= interval
  }

  function Sample(s: Sink, k: Key, e: Body, interval: int, checkedAt: int, sentAt: int): Sink {
    if Due(s, k, interval, checkedAt)
    then Sink(s.lastSentAt[k := sentAt], Drop(s.pending, k), s.sent + [Sampled(e, checkedAt, sentAt)])
    else s.(pending := Put(s.pending, k, e))
  }

  datatype Call =
    | Emit(event: Body, checkedAt: int, sentAt: int, at: Key -> int)
    | FlushAll(at: Key -> int)

  function Apply(s: Sink, call: Call, interval: int): Sink {
    match call
    case Emit(e, checkedAt, sentAt, at) =>
      (match KeyOf(e)
       case None => Pass(s, e, at)
       case Some(k) => Sample(s, k, e, interval, checkedAt, sentAt))
    case FlushAll(at) => FlushKeys(s, KeysOf(s.pending), at)
  }

  const EMPTY := Sink(map[], [], [])

  function ApplyAll(calls: seq<Call>, interval: int): Sink
    decreases |calls|
  {
    if calls == [] then EMPTY else Apply(ApplyAll(calls[..|calls| - 1], interval), calls[|calls| - 1], interval)
  }

  // ---- the closures, as a class ----

  class ThrottledSink {
    const intervalMs: int
    var lastSentAt: map<Key, int>
    var pending: Held
    var sent: seq<Emission>

    ghost function State(): Sink
      reads this
    {
      Sink(lastSentAt, pending, sent)
    }

    constructor (intervalMs: int := 250)
      ensures this.intervalMs == intervalMs && State() == EMPTY
    {
      this.intervalMs := intervalMs;
      lastSentAt, pending, sent := map[], [], [];
    }

    method FlushOne(key: Key, now: int)
      modifies this
      ensures State() == FlushKey(old(State()), key, now)
    {
      var held := HeldFor(pending, key);
      if held.None? {
        return;
      }
      pending := Drop(pending, key);
      lastSentAt := lastSentAt[key := now];
      sent := sent + [Forced(held.value, now)];
    }

    method Send(event: Body, checkedAt: int, sentAt: int, at: Key -> int)
      modifies this
      ensures State() == Apply(old(State()), Emit(event, checkedAt, sentAt, at), intervalMs)
      // A sample goes out at once if it is the key's first or the interval is over, and is held otherwise.
      ensures forall k :: IsProgressOf(event, k) ==>
                sent == if k !in old(lastSentAt) || checkedAt - old(lastSentAt)[k] >= intervalMs
                        then old(sent) + [Sampled(event, checkedAt, sentAt)] else old(sent)
      ensures !event.TableProgress? && !event.OverallProgress? ==> sent != [] && sent[|sent| - 1] == Passed(event)
    {
      var key := KeyOf(event);
      if key.None? {
        if event.TableFinished? {
          FlushOne(Table(event.table), at(Table(event.table)));
          FlushOne(Key.Overall, at(Key.Overall));
        }
        sent := sent + [Passed(event)];
        return;
      }
      if key.value !in lastSentAt || checkedAt - lastSentAt[key.value] >= intervalMs {
        pending := Drop(pending, key.value);
        lastSentAt := lastSentAt[key.value := sentAt];
        sent := sent + [Sampled(event, checkedAt, sentAt)];
        return;
      }
      pending := Put(pending, key.value, event);
    }

    method Flush(at: Key -> int)
      modifies this
      ensures State() == Apply(old(State()), FlushAll(at), intervalMs)
    {
      var keys := KeysOf(pending);
      while keys != []
        invariant FlushKeys(State(), keys, at) == FlushKeys(old(State()), KeysOf(old(pending)), at)
        decreases |keys|
      {
        FlushOne(keys[0], at(keys[0]));
        keys := keys[1..];
      }
    }
  }

  class SeqSink {
    var seqNo: nat
    var written: seq<Event>

    constructor ()
      ensures seqNo == 0 && written == []
    {
      seqNo, written := 0, [];
    }

    method Send(body: Body, at: int)
      modifies this
      ensures seqNo == old(seqNo) + 1 && written == old(written) + [Event(seqNo, at, body)]
    {
      seqNo := seqNo + 1;
      written := written + [Event(seqNo, at, body)];
    }
  }

  // ---- what a history of calls sent ----

  function Inputs(calls: seq<Call>): seq<Body> {
    if calls == [] then []
    else
      var before, c := Inputs(calls[..|calls| - 1]), calls[|calls| - 1];
      if c.Emit? then before + [c.event] else before
  }

  function Bodies(sent: seq<Emission>): seq<Body> {
    seq(|sent|, i requires 0 <= i < |sent| => sent[i].event)
  }

  /** The events of one key; with None, those that are no progress at all. */
  function Of(events: seq<Body>, k: Option<Key>): seq<Body> {
    if events == [] then []
    else
      var before, e := Of(events[..|events| - 1], k), events[|events| - 1];
      if KeyOf(e) == k then before + [e] else before
  }

  /** The last emission for a key. */
  function LastFor(sent: seq<Emission>, k: Key): Option<Emission> {
    if sent == [] then None
    else if KeyOf(sent[|sent| - 1].event) == Some(k) then Some(sent[|sent| - 1])
    else LastFor(sent[..|sent| - 1], k)
  }

  /** `a` is `b` with some events left out. */
  predicate Thinned(a: seq<Body>, b: seq<Body>)
    decreases |b|
  {
    a == [] || (b != [] && ((a[|a| - 1] == b[|b| - 1] && Thinned(a[..|a| - 1], b[..|b| - 1])) || Thinned(a, b[..|b| - 1])))
  }

  /** A sample sent unforced comes an interval or more after the key's previous one. */
  predicate Spaced(sent: seq<Emission>, interval: int) {
    sent == [] ||
    var before, e := sent[..|sent| - 1], sent[|sent| - 1];
    && Spaced(before, interval)
    && (e.Sampled? && KeyOf(e.event).Some? ==>
          var last := LastFor(before, KeyOf(e.event).value);
          last.Some? ==> !last.value.Passed? && e.checkedAt - last.value.sentAt >= interval)
  }

  function Tail(held: Option<Body>): seq<Body> {
    if held.Some? then [held.value] else []
  }

  /** For one key: what was sent and what is held, against what came in. */
  predicate Traced(out: seq<Body>, held: Option<Body>, mine: seq<Body>, k: Key) {
    && Thinned(out + Tail(held), mine)
    && (mine != [] ==> out + Tail(held) != [] && (out + Tail(held))[|out + Tail(held)| - 1] == mine[|mine| - 1])
    && (held.Some? ==> KeyOf(held.value) == Some(k))
  }

  predicate KeyOk(s: Sink, inputs: seq<Body>, k: Key) {
    Traced(Of(Bodies(s.sent), Some(k)), HeldFor(s.pending, k), Of(inputs, Some(k)), k)
  }

  predicate ClockOk(s: Sink, k: Key) {
    var last := LastFor(s.sent, k);
    if last.None? then k !in s.lastSentAt
    else !last.value.Passed? && k in s.lastSentAt && s.lastSentAt[k] == last.value.sentAt
  }

  /** No key is held twice. */
  predicate OnePlace(pending: Held) {
    pending == [] || (HeldFor(pending[1..], pending[0].0) == None && OnePlace(pending[1..]))
  }

  ghost predicate Inv(s: Sink, inputs: seq<Body>, interval: int) {
    && Of(Bodies(s.sent), None) == Of(inputs, None)
    && (forall k :: KeyOk(s, inputs, k) && ClockOk(s, k))
    && Spaced(s.sent, interval) && OnePlace(s.pending)
  }

  // ---- maps of held samples ----

  lemma {:induction false} HeldAfterDrop(pending: Held, k: Key, j: Key)
    requires OnePlace(pending)
    ensures OnePlace(Drop(pending, k)) && HeldFor(Drop(pending, k), j) == if j == k then None else HeldFor(pending, j)
  {
    if pending != [] && pending[0].0 != k {
      HeldAfterDrop(pending[1..], k, j);
      HeldAfterDrop(pending[1..], k, pending[0].0);
    }
  }

  lemma {:induction false} HeldAfterPut(pending: Held, k: Key, e: Body, j: Key)
    requires OnePlace(pending)
    ensures OnePlace(Put(pending, k, e)) && HeldFor(Put(pending, k, e), j) == if j == k then Some(e) else HeldFor(pending, j)
  {
    if pending != [] && pending[0].0 != k {
      HeldAfterPut(pending[1..], k, e, j);
      HeldAfterPut(pending[1..], k, e, pending[0].0);
    }
  }

  lemma {:induction false} HeldIsAKey(pending: Held, k: Key)
    requires HeldFor(pending, k).Some?
    ensures k in KeysOf(pending)
  {
    if pending[0].0 == k {
      assert KeysOf(pending)[0] == k;
    } else {
      HeldIsAKey(pending[1..], k);
      var i :| 0 <= i < |pending[1..]| && KeysOf(pending[1..])[i] == k;
      assert KeysOf(pending)[i + 1] == k;
    }
  }

  // ---- one more event ----

  lemma {:induction false} OfThen(events: seq<Body>, e: Body, k: Option<Key>)
    ensures Of(events + [e], k) == if KeyOf(e) == k then Of(events, k) + [e] else Of(events, k)
  {
    assert (events + [e])[..|events|] == events;
  }

  lemma {:induction false} SentThen(sent: seq<Emission>, e: Emission, k: Option<Key>)
    ensures Of(Bodies(sent + [e]), k) == if KeyOf(e.event) == k then Of(Bodies(sent), k) + [e.event] else Of(Bodies(sent), k)
  {
    assert Bodies(sent + [e]) == Bodies(sent) + [e.event];
    OfThen(Bodies(sent), e.event, k);
  }

  lemma {:induction false} LastThen(sent: seq<Emission>, e: Emission, k: Key)
    ensures LastFor(sent + [e], k) == if KeyOf(e.event) == Some(k) then Some(e) else LastFor(sent, k)
  {
    assert (sent + [e])[..|sent|] == sent;
  }

  lemma {:induction false} SpacedThen(sent: seq<Emission>, e: Emission, interval: int)
    requires Spaced(sent, interval)
    requires e.Sampled? && KeyOf(e.event).Some? ==>
               var last := LastFor(sent, KeyOf(e.event).value);
               last.Some? ==> !last.value.Passed? && e.checkedAt - last.value.sentAt >= interval
    ensures Spaced(sent + [e], interval)
  {
    assert (sent + [e])[..|sent|] == sent;
  }

  lemma {:induction false} ThinnedFront(a: seq<Body>, x: Body, b: seq<Body>)
    requires Thinned(a + [x], b)
    ensures Thinned(a, b)
    decreases |b|
  {
    assert (a + [x])[..|a|] == a;
    if a != [] {
      if x == b[|b| - 1] && Thinned(a, b[..|b| - 1]) {
      } else {
        ThinnedFront(a, x, b[..|b| - 1]);
      }
    }
  }

  lemma {:induction false} ThinnedThen(a: seq<Body>, b: seq<Body>, x: Body)
    requires Thinned(a, b)
    ensures Thinned(a + [x], b + [x])
  {
    assert (a + [x])[..|a|] == a && (b + [x])[..|b|] == b;
  }

  // ---- what each step keeps ----

  lemma TracedFlush(out: seq<Body>, held: Body, mine: seq<Body>, k: Key)
    requires Traced(out, Some(held), mine, k)
    ensures Traced(out + [held], None, mine, k)
  {
    assert (out + [held]) + [] == out + [held];
  }

  lemma TracedNext(out: seq<Body>, held: Option<Body>, mine: seq<Body>, k: Key, e: Body)
    requires Traced(out, held, mine, k) && KeyOf(e) == Some(k)
    ensures Traced(out + [e], None, mine + [e], k) && Traced(out, Some(e), mine + [e], k)
  {
    if held.Some? {
      ThinnedFront(out, held.value, mine);
    } else {
      assert out + [] == out;
    }
    ThinnedThen(out, mine, e);
    assert (out + [e]) + [] == out + [e];
  }

  lemma {:induction false} FlushOneKey(s: Sink, inputs: seq<Body>, j: Key, at: int, k: Key)
    requires OnePlace(s.pending) && KeyOk(s, inputs, k) && ClockOk(s, k)
    requires HeldFor(s.pending, j).Some? ==> KeyOf(HeldFor(s.pending, j).value) == Some(j)
    ensures KeyOk(FlushKey(s, j, at), inputs, k) && ClockOk(FlushKey(s, j, at), k)
    ensures HeldFor(FlushKey(s, j, at).pending, k) == if j == k then None else HeldFor(s.pending, k)
  {
    var held := HeldFor(s.pending, j);
    if held.Some? {
      HeldAfterDrop(s.pending, j, k);
      SentThen(s.sent, Forced(held.value, at), Some(k));
      LastThen(s.sent, Forced(held.value, at), k);
      if j == k {
        TracedFlush(Of(Bodies(s.sent), Some(k)), held.value, Of(inputs, Some(k)), k);
      }
    }
  }

  lemma FlushKeeps(s: Sink, inputs: seq<Body>, interval: int, j: Key, at: int)
    requires Inv(s, inputs, interval)
    ensures Inv(FlushKey(s, j, at), inputs, interval)
    ensures forall k :: HeldFor(FlushKey(s, j, at).pending, k) == if j == k then None else HeldFor(s.pending, k)
  {
    assert KeyOk(s, inputs, j);
    forall k
      ensures KeyOk(FlushKey(s, j, at), inputs, k) && ClockOk(FlushKey(s, j, at), k)
      ensures HeldFor(FlushKey(s, j, at).pending, k) == if j == k then None else HeldFor(s.pending, k)
    {
      assert KeyOk(s, inputs, k) && ClockOk(s, k);
      FlushOneKey(s, inputs, j, at, k);
    }
    var held := HeldFor(s.pending, j);
    if held.Some? {
      HeldAfterDrop(s.pending, j, j);
      SentThen(s.sent, Forced(held.value, at), None);
      SpacedThen(s.sent, Forced(held.value, at), interval);
    }
  }

  lemma {:induction false} FlushKeysKeep(s: Sink, inputs: seq<Body>, interval: int, keys: seq<Key>, at: Key -> int)
    requires Inv(s, inputs, interval)
    ensures Inv(FlushKeys(s, keys, at), inputs, interval)
    ensures forall k :: HeldFor(FlushKeys(s, keys, at).pending, k) == if k in keys then None else HeldFor(s.pending, k)
    decreases |keys|
  {
    if keys != [] {
      FlushKeeps(s, inputs, interval, keys[0], at(keys[0]));
      FlushKeysKeep(FlushKey(s, keys[0], at(keys[0])), inputs, interval, keys[1..], at);
    }
  }

  lemma SampleOneKey(s: Sink, inputs: seq<Body>, interval: int, j: Key, e: Body, checkedAt: int, sentAt: int, k: Key)
    requires OnePlace(s.pending) && KeyOk(s, inputs, k) && ClockOk(s, k) && KeyOf(e) == Some(j)
    ensures KeyOk(Sample(s, j, e, interval, checkedAt, sentAt), inputs + [e], k)
    ensures ClockOk(Sample(s, j, e, interval, checkedAt, sentAt), k)
  {
    OfThen(inputs, e, Some(k));
    if j == k {
      TracedNext(Of(Bodies(s.sent), Some(k)), HeldFor(s.pending, k), Of(inputs, Some(k)), k, e);
    }
    if Due(s, j, interval, checkedAt) {
      HeldAfterDrop(s.pending, j, k);
      SentThen(s.sent, Sampled(e, checkedAt, sentAt), Some(k));
      LastThen(s.sent, Sampled(e, checkedAt, sentAt), k);
    } else {
      HeldAfterPut(s.pending, j, e, k);
    }
  }

  lemma SampleKeeps(s: Sink, inputs: seq<Body>, interval: int, j: Key, e: Body, checkedAt: int, sentAt: int)
    requires Inv(s, inputs, interval) && KeyOf(e) == Some(j)
    ensures Inv(Sample(s, j, e, interval, checkedAt, sentAt), inputs + [e], interval)
  {
    var next := Sample(s, j, e, interval, checkedAt, sentAt);
    forall k
      ensures KeyOk(next, inputs + [e], k) && ClockOk(next, k)
    {
      assert KeyOk(s, inputs, k) && ClockOk(s, k);
      SampleOneKey(s, inputs, interval, j, e, checkedAt, sentAt, k);
    }
    HeldAfterDrop(s.pending, j, j);
    HeldAfterPut(s.pending, j, e, j);
    OfThen(inputs, e, None);
    SentThen(s.sent, Sampled(e, checkedAt, sentAt), None);
    assert ClockOk(s, j);
    if Due(s, j, interval, checkedAt) {
      SpacedThen(s.sent, Sampled(e, checkedAt, sentAt), interval);
    }
  }

  lemma PassedOneKey(s: Sink, inputs: seq<Body>, e: Body, k: Key)
    requires KeyOk(s, inputs, k) && ClockOk(s, k) && KeyOf(e) == None
    ensures var next := s.(sent := s.sent + [Passed(e)]); KeyOk(next, inputs + [e], k) && ClockOk(next, k)
  {
    OfThen(inputs, e, Some(k));
    SentThen(s.sent, Passed(e), Some(k));
    LastThen(s.sent, Passed(e), k);
  }

  lemma PassKeeps(s: Sink, inputs: seq<Body>, interval: int, e: Body, at: Key -> int)
    requires Inv(s, inputs, interval) && KeyOf(e) == None
    ensures Inv(Settle(s, e, at), inputs, interval) && Inv(Pass(s, e, at), inputs + [e], interval)
    ensures e.TableFinished? ==>
              HeldFor(Settle(s, e, at).pending, Table(e.table)) == None && HeldFor(Settle(s, e, at).pending, Key.Overall) == None
  {
    if e.TableFinished? {
      FlushKeeps(s, inputs, interval, Table(e.table), at(Table(e.table)));
      FlushKeeps(FlushKey(s, Table(e.table), at(Table(e.table))), inputs, interval, Key.Overall, at(Key.Overall));
    }
    var mid := Settle(s, e, at);
    forall k
      ensures KeyOk(mid.(sent := mid.sent + [Passed(e)]), inputs + [e], k) && ClockOk(mid.(sent := mid.sent + [Passed(e)]), k)
    {
      assert KeyOk(mid, inputs, k) && ClockOk(mid, k);
      PassedOneKey(mid, inputs, e, k);
    }
    OfThen(inputs, e, None);
    SentThen(mid.sent, Passed(e), None);
    SpacedThen(mid.sent, Passed(e), interval);
  }

  lemma {:induction false} HistoryKeepsInv(calls: seq<Call>, interval: int)
    ensures Inv(ApplyAll(calls, interval), Inputs(calls), interval)
    decreases |calls|
  {
    if calls != [] {
      var n := |calls| - 1;
      var before, call := ApplyAll(calls[..n], interval), calls[n];
      HistoryKeepsInv(calls[..n], interval);
      match call
      case Emit(e, checkedAt, sentAt, at) =>
        if KeyOf(e).None? {
          PassKeeps(before, Inputs(calls[..n]), interval, e, at);
        } else {
          SampleKeeps(before, Inputs(calls[..n]), interval, KeyOf(e).value, e, checkedAt, sentAt);
        }
      case FlushAll(at) => FlushKeysKeep(before, Inputs(calls[..n]), interval, KeysOf(before.pending), at);
    }
  }

  // ---- the theorems ----

  /** For every history and every clock: nothing but progress is thinned, and that in order and spaced. */
  lemma {:induction false} OnlyProgressIsThinned(calls: seq<Call>, interval: int)
    ensures var sent := ApplyAll(calls, interval).sent;
            && Of(Bodies(sent), None) == Of(Inputs(calls), None)
            && (forall k: Key :: Thinned(Of(Bodies(sent), Some(k)), Of(Inputs(calls), Some(k))))
            && Spaced(sent, interval)
  {
    HistoryKeepsInv(calls, interval);
    var s := ApplyAll(calls, interval);
    forall k: Key
      ensures Thinned(Of(Bodies(s.sent), Some(k)), Of(Inputs(calls), Some(k)))
    {
      assert KeyOk(s, Inputs(calls), k);
      var out, held := Of(Bodies(s.sent), Some(k)), HeldFor(s.pending, k);
      if held.Some? {
        ThinnedFront(out, held.value, Of(Inputs(calls), Some(k)));
      } else {
        assert out + [] == out;
      }
    }
  }

  lemma KeyIs(e: Body, k: Key)
    ensures KeyOf(e) == Some(k) <==> IsProgressOf(e, k)
  {
  }

  /**
   Over every history: a progress sample is sent at once if none of its table (or of the run) was sent before,
   or the interval has passed since the last; otherwise nothing is sent and it is the one held.
   */
  lemma {:induction false} ProgressIsSentWhenDue(calls: seq<Call>, interval: int, e: Body, k: Key, checkedAt: int, sentAt: int, at: Key -> int)
    requires IsProgressOf(e, k)
    ensures var s, next := ApplyAll(calls, interval), ApplyAll(calls + [Emit(e, checkedAt, sentAt, at)], interval);
            var last := LastFor(s.sent, k);
            && (last.Some? ==> IsProgressOf(last.value.event, k) && !last.value.Passed?)
            && (if last.None? || checkedAt - last.value.sentAt >= interval
                then next.sent == s.sent + [Sampled(e, checkedAt, sentAt)] && HeldFor(next.pending, k) == None
                else next.sent == s.sent && HeldFor(next.pending, k) == Some(e))
            && forall j :: j != k ==> HeldFor(next.pending, j) == HeldFor(s.pending, j)
  {
    assert (calls + [Emit(e, checkedAt, sentAt, at)])[..|calls|] == calls;
    HistoryKeepsInv(calls, interval);
    var s := ApplyAll(calls, interval);
    assert ClockOk(s, k);
    LastIsOf(s.sent, k);
    forall j
      ensures HeldFor(Drop(s.pending, k), j) == if j == k then None else HeldFor(s.pending, j)
      ensures HeldFor(Put(s.pending, k, e), j) == if j == k then Some(e) else HeldFor(s.pending, j)
    {
      HeldAfterDrop(s.pending, k, j);
      HeldAfterPut(s.pending, k, e, j);
    }
  }

  lemma {:induction false} LastIsOf(sent: seq<Emission>, k: Key)
    ensures LastFor(sent, k).Some? ==> IsProgressOf(LastFor(sent, k).value.event, k)
    ensures LastFor(sent, k).None? ==> forall i :: 0 <= i < |sent| ==> !IsProgressOf(sent[i].event, k)
  {
    if sent != [] {
      LastIsOf(sent[..|sent| - 1], k);
    }
  }

  /** `out` ends with the newest sample of a key that came in. */
  ghost predicate Newest(out: seq<Body>, inputs: seq<Body>, k: Key) {
    var sent, mine := Of(out, Some(k)), Of(inputs, Some(k));
    mine != [] ==> sent != [] && sent[|sent| - 1] == mine[|mine| - 1]
  }

  lemma {:induction false} NothingHeld(s: Sink, inputs: seq<Body>, k: Key)
    requires KeyOk(s, inputs, k) && HeldFor(s.pending, k) == None
    ensures Newest(Bodies(s.sent), inputs, k)
  {
  }

  /** After a flush the newest sample of every key has been sent. */
  lemma {:induction false} FlushSendsNewest(calls: seq<Call>, at: Key -> int, interval: int)
    ensures forall k :: Newest(Bodies(ApplyAll(calls + [FlushAll(at)], interval).sent), Inputs(calls), k)
  {
    assert (calls + [FlushAll(at)])[..|calls|] == calls;
    HistoryKeepsInv(calls, interval);
    var s := ApplyAll(calls, interval);
    FlushKeysKeep(s, Inputs(calls), interval, KeysOf(s.pending), at);
    var next := FlushKeys(s, KeysOf(s.pending), at);
    forall k
      ensures Newest(Bodies(next.sent), Inputs(calls), k)
    {
      if HeldFor(s.pending, k).Some? {
        HeldIsAKey(s.pending, k);
      }
      assert KeyOk(next, Inputs(calls), k);
      NothingHeld(next, Inputs(calls), k);
    }
  }

  /** A table's `table_finished` is the last thing sent, right behind the table's newest sample and the overall one. */
  lemma {:induction false} FinishFollowsNewest(calls: seq<Call>, e: Body, checkedAt: int, sentAt: int, at: Key -> int, interval: int)
    requires e.TableFinished?
    ensures var sent := ApplyAll(calls + [Emit(e, checkedAt, sentAt, at)], interval).sent;
            && sent != [] && sent[|sent| - 1] == Passed(e)
            && Newest(Bodies(sent[..|sent| - 1]), Inputs(calls), Table(e.table))
            && Newest(Bodies(sent[..|sent| - 1]), Inputs(calls), Key.Overall)
  {
    assert (calls + [Emit(e, checkedAt, sentAt, at)])[..|calls|] == calls;
    HistoryKeepsInv(calls, interval);
    var s := ApplyAll(calls, interval);
    PassKeeps(s, Inputs(calls), interval, e, at);
    var mid := Settle(s, e, at);
    assert KeyOk(mid, Inputs(calls), Table(e.table)) && KeyOk(mid, Inputs(calls), Key.Overall);
    NothingHeld(mid, Inputs(calls), Table(e.table));
    NothingHeld(mid, Inputs(calls), Key.Overall);
    assert (mid.sent + [Passed(e)])[..|mid.sent|] == mid.sent;
  }

  // ---- the numbering behind the throttle ----

  /** What the sequencer writes for the events it is sent. */
  function Stamped(bodies: seq<Body>, clock: nat -> int): seq<Event> {
    seq(|bodies|, i requires 0 <= i < |bodies| => Event(i + 1, clock(i), bodies[i]))
  }

  lemma {:induction false} FlushGrows(s: Sink, keys: seq<Key>, at: Key -> int)
    ensures s.sent <= FlushKeys(s, keys, at).sent
    decreases |keys|
  {
    if keys != [] {
      FlushGrows(FlushKey(s, keys[0], at(keys[0])), keys[1..], at);
    }
  }

  lemma SentGrows(s: Sink, call: Call, interval: int)
    ensures s.sent <= Apply(s, call, interval).sent
  {
    if call.FlushAll? {
      FlushGrows(s, KeysOf(s.pending), call.at);
    }
  }

  lemma StampedThen(sent: seq<Emission>, i: nat, clock: nat -> int)
    requires i < |sent|
    ensures Stamped(Bodies(sent[..i + 1]), clock) == Stamped(Bodies(sent[..i]), clock) + [Event(i + 1, clock(i), sent[i].event)]
  {
  }

  /** The emissions from `from` on, sent to the sequencer as they come. */
  method Forward(journal: SeqSink, sent: seq<Emission>, from: nat, clock: nat -> int)
    requires from <= |sent| && journal.seqNo == from && journal.written == Stamped(Bodies(sent[..from]), clock)
    modifies journal
    ensures journal.seqNo == |sent| && journal.written == Stamped(Bodies(sent), clock)
  {
    for k := from to |sent|
      invariant journal.seqNo == k && journal.written == Stamped(Bodies(sent[..k]), clock)
    {
      StampedThen(sent, k, clock);
      journal.Send(sent[k].event, clock(k));
    }
    assert sent[..|sent|] == sent;
  }

  lemma {:induction false} NextCall(calls: seq<Call>, i: nat, interval: int)
    requires i < |calls|
    ensures ApplyAll(calls[..i + 1], interval) == Apply(ApplyAll(calls[..i], interval), calls[i], interval)
  {
    assert calls[..i + 1][..i] == calls[..i];
  }

  method TakeCall(throttle: ThrottledSink, call: Call)
    modifies throttle
    ensures throttle.State() == Apply(old(throttle.State()), call, throttle.intervalMs)
    ensures |old(throttle.sent)| <= |throttle.sent| && throttle.sent[..|old(throttle.sent)|] == old(throttle.sent)
  {
    SentGrows(throttle.State(), call, throttle.intervalMs);
    match call {
      case Emit(e, checkedAt, sentAt, at) => throttle.Send(e, checkedAt, sentAt, at);
      case FlushAll(at) => throttle.Flush(at);
    }
  }

  /** The two sinks in a row: whatever the throttle emits on a call goes straight on to the sequencer. */
  method WriteAll(calls: seq<Call>, interval: int, clock: nat -> int) returns (written: seq<Event>)
    ensures written == Stamped(Bodies(ApplyAll(calls, interval).sent), clock)
  {
    var throttle := new ThrottledSink(interval);
    var journal := new SeqSink();
    for i := 0 to |calls|
      invariant throttle.intervalMs == interval && throttle.State() == ApplyAll(calls[..i], interval)
      invariant journal.seqNo == |throttle.sent| && journal.written == Stamped(Bodies(throttle.sent), clock)
    {
      var k := |throttle.sent|;
      NextCall(calls, i, interval);
      TakeCall(throttle, calls[i]);
      Forward(journal, throttle.sent, k, clock);
    }
    assert calls[..|calls|] == calls;
    written := journal.written;
  }

  /** The journal is what survived the throttle, under the seqs 1 to n: coalesced samples use none up. */
  lemma {:induction false} SeqsAreContiguous(calls: seq<Call>, interval: int, clock: nat -> int)
    ensures var log := Stamped(Bodies(ApplyAll(calls, interval).sent), clock);
            && Ascending(log) && (forall i :: 0 <= i < |log| ==> log[i].seqNo == i + 1)
            && Of(seq(|log|, i requires 0 <= i < |log| => log[i].body), None) == Of(Inputs(calls), None)
  {
    var bodies := Bodies(ApplyAll(calls, interval).sent);
    var log := Stamped(bodies, clock);
    HistoryKeepsInv(calls, interval);
    assert seq(|log|, i requires 0 <= i < |log| => log[i].body) == bodies;
  }
}
