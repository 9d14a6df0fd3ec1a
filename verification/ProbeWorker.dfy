/**
 The probe worker's claim loop (`probe-worker.ts`): one loop at a time, wakes that coalesce, slots, and a
 stop that lets the claim in flight come home. Each `await` ends a step.
 */
module ProbeWorkerModel {
  import opened Wrappers

  type Probe = nat

  datatype Loop =
    /** `claiming` is null. */
    | Idle
    /** The claim is on its way to the queue. */
    | Asking
    /** The queue has answered; the reply is on its way back. */
    | Answered(got: Option<Probe>)
    /** The loop has returned; its `finally` has not run. */
    | Over

  datatype Worker = Worker(slots: int, inFlight: set<Probe>, loop: Loop, wakeAgain: bool, stopped: bool)

  /** The loop's guard. */
  function Guard(w: Worker): Worker {
    w.(loop := if !w.stopped && |w.inFlight| < w.slots then Asking else Over)
  }

  function Wake(w: Worker): Worker {
    if w.stopped || w.slots <= 0 then w
    else if !w.loop.Idle? then w.(wakeAgain := true)
    else Guard(w)
  }

  function GotProbe(w: Worker, p: Probe): Worker {
    Guard(w.(inFlight := w.inFlight + {p}))
  }

  function LoopReturned(w: Worker): Worker {
    w.(loop := Over)
  }

  function AfterLoop(w: Worker): Worker {
    var idle := w.(loop := Idle, wakeAgain := false);
    if w.wakeAgain then Wake(idle) else idle
  }

  function JobDone(w: Worker, p: Probe): Worker {
    Wake(w.(inFlight := w.inFlight - {p}))
  }

  function Started(w: Worker): Worker {
    if w.slots <= 0 then w else Wake(w.(stopped := false))
  }

  class ProbeWorker {
    const slots: int
    var inFlight: set<Probe>
    var loop: Loop
    var wakeAgain: bool
    var stopped: bool

    function State(): Worker
      reads this
    {
      Worker(slots, inFlight, loop, wakeAgain, stopped)
    }

    constructor (slots: int)
      ensures State() == Worker(slots, {}, Idle, false, false)
    {
      this.slots, inFlight, loop, wakeAgain, stopped := slots, {}, Idle, false, false;
    }

    method WakeUp()
      modifies this
      ensures State() == Wake(old(State()))
      ensures inFlight == old(inFlight) && stopped == old(stopped)
      // A loop at a time: one that runs is asked to go round again, and a new one looks if a slot is free.
      ensures !stopped && slots > 0 && !old(loop).Idle? ==> wakeAgain && loop == old(loop)
      ensures !stopped && slots > 0 && old(loop).Idle? ==> loop == (if |inFlight| < slots then Asking else Over) && wakeAgain == old(wakeAgain)
      ensures stopped || slots <= 0 ==> loop == old(loop) && wakeAgain == old(wakeAgain)
    {
      if stopped || slots <= 0 {
        return;
      }
      if loop != Idle {
        wakeAgain := true;
        return;
      }
      NextTurn();
    }

    method NextTurn()
      modifies this`loop
      ensures State() == Guard(old(State()))
    {
      if !stopped && |inFlight| < slots {
        loop := Asking;
      } else {
        loop := Over;
      }
    }

    /** `claim()` came back: with a probe, with none, or with an error. */
    method OnClaim(claimed: Option<Probe>)
      modifies this
      ensures State() == if claimed.Some? then GotProbe(old(State()), claimed.value) else LoopReturned(old(State()))
      ensures inFlight == (if claimed.Some? then old(inFlight) + {claimed.value} else old(inFlight)) && stopped == old(stopped)
      ensures loop == if claimed.Some? && !stopped && |inFlight| < slots then Asking else Over
      ensures wakeAgain == old(wakeAgain)
    {
      if claimed.None? {
        loop := Over;
        return;
      }
      inFlight := inFlight + {claimed.value};
      NextTurn();
    }

    /** The `finally` of a loop. */
    method OnLoopOver()
      modifies this
      ensures State() == AfterLoop(old(State()))
      ensures inFlight == old(inFlight) && stopped == old(stopped) && !wakeAgain
      ensures loop == if !old(wakeAgain) || stopped || slots <= 0 then Idle else if |inFlight| < slots then Asking else Over
    {
      loop := Idle;
      if wakeAgain {
        wakeAgain := false;
        WakeUp();
      }
    }

    /** The `finally` of a probe: its slot is free, and another may be waiting. */
    method OnAnswered(p: Probe)
      modifies this
      ensures State() == JobDone(old(State()), p)
      ensures inFlight == old(inFlight) - {p} && stopped == old(stopped)
      ensures !stopped && slots > 0 ==> if old(loop).Idle? then loop == (if |inFlight| < slots then Asking else Over) else wakeAgain
    {
      inFlight := inFlight - {p};
      WakeUp();
    }

    /** The first time, or after a `stop()`. */
    method Start()
      modifies this
      ensures State() == Started(old(State()))
      ensures slots > 0 ==> !stopped && (if old(loop).Idle? then loop == (if |inFlight| < slots then Asking else Over) else wakeAgain)
      ensures inFlight == old(inFlight) && (slots <= 0 ==> State() == old(State()))
    {
      if slots <= 0 {
        return;
      }
      stopped := false;
      WakeUp();
    }

    method Stop()
      modifies this`stopped
      ensures State() == old(State()).(stopped := true)
    {
      stopped := true;
    }
  }

  // ---- against the queue ----

  /** How far a `stop()` has come. */
  datatype Stopping = NotAsked | LoopAwaited | JobsAwaited(jobs: set<Probe>) | Resolved

  datatype World = World(
    worker: Worker,
    /** Probes queued; and of those, the ones a wake was sent for. */
    waiting: set<Probe>,
    announced: set<Probe>,
    /** Whether the last claim was an error. */
    failed: bool,
    stopping: Stopping,
    /** Claims the queue has granted since the last `stop()` was called. */
    late: nat)

  datatype Step =
    | Enqueue(p: Probe)
    | Announce(p: Probe)
    | Poll
    /** Another runner takes it, or its request gives up. */
    | TakenElsewhere(p: Probe)
    | QueueAnswers(choice: Option<Probe>)
    | Reply
    | ClaimFails
    | LoopEnds
    | ProbeDone(p: Probe)
    | StopCalled
    | StopAdvances
    | StartCalled

  predicate Enabled(s: World, step: Step) {
    match step
    case Enqueue(p) => p !in s.waiting + s.announced + s.worker.inFlight && s.worker.loop != Answered(Some(p))
    case Announce(p) => p in s.waiting
    case Poll => true
    case TakenElsewhere(p) => p in s.waiting
    case QueueAnswers(choice) => s.worker.loop.Asking? && (if choice.Some? then choice.value in s.waiting else s.waiting == {})
    case Reply => s.worker.loop.Answered?
    case ClaimFails => s.worker.loop.Asking?
    case LoopEnds => s.worker.loop.Over?
    case ProbeDone(p) => p in s.worker.inFlight
    case StopCalled => s.stopping.NotAsked?
    case StartCalled => true
    case StopAdvances => (s.stopping.LoopAwaited? && s.worker.loop.Idle?) || (s.stopping.JobsAwaited? && s.stopping.jobs !! s.worker.inFlight)
  }

  function Apply(s: World, step: Step): World
    requires Enabled(s, step)
  {
    match step
    case Enqueue(p) => s.(waiting := s.waiting + {p})
    case Announce(p) => s.(announced := s.announced + {p}, worker := Wake(s.worker))
    case Poll => s.(worker := Wake(s.worker))
    case TakenElsewhere(p) => s.(waiting := s.waiting - {p})
    case QueueAnswers(choice) =>
      s.(worker := s.worker.(loop := Answered(choice)), failed := false,
         waiting := if choice.Some? then s.waiting - {choice.value} else s.waiting,
         late := if s.worker.stopped && choice.Some? then s.late + 1 else s.late)
    case Reply =>
      s.(worker := if s.worker.loop.got.Some? then GotProbe(s.worker, s.worker.loop.got.value) else LoopReturned(s.worker))
    case ClaimFails => s.(worker := LoopReturned(s.worker), failed := true)
    case LoopEnds => s.(worker := AfterLoop(s.worker))
    case ProbeDone(p) => s.(worker := JobDone(s.worker, p))
    case StopCalled => s.(worker := s.worker.(stopped := true), stopping := LoopAwaited)
    case StopAdvances => s.(stopping := if s.stopping.LoopAwaited? then JobsAwaited(s.worker.inFlight) else Resolved)
    // A stop that was still waiting is no matter any more.
    case StartCalled => if s.worker.slots <= 0 then s else s.(worker := Started(s.worker), stopping := NotAsked, late := 0)
  }

  predicate Init(s: World) {
    && s.worker.inFlight == {} && s.worker.loop.Idle? && !s.worker.wakeAgain && !s.worker.stopped
    && s.announced == {} && !s.failed && s.stopping.NotAsked? && s.late == 0
  }

  function Outcome(s: World, steps: seq<Step>): World
    decreases |steps|
  {
    if steps == [] then s
    else
      var before, step := Outcome(s, steps[..|steps| - 1]), steps[|steps| - 1];
      if Enabled(before, step) then Apply(before, step) else before
  }

  // ---- the invariant ----

  /** Room enough for what the loop may bring home. */
  predicate WithinSlots(w: Worker) {
    && (w.slots <= 0 ==> w.loop.Idle? && w.inFlight == {})
    && (w.slots > 0 ==> |w.inFlight| <= w.slots)
    && (w.loop.Asking? || w.loop.Answered? ==> |w.inFlight| < w.slots)
    && (w.loop.Answered? && w.loop.got.Some? ==> w.loop.got.value !in w.inFlight)
  }

  /** Nothing a wake was sent for is waiting, or something is going to look. */
  predicate Looked(s: World) {
    var w := s.worker;
    w.stopped || w.slots <= 0 || s.failed || s.waiting !! s.announced || |w.inFlight| >= w.slots || w.wakeAgain ||
    w.loop.Asking? || (w.loop.Answered? && w.loop.got.Some?)
  }

  predicate StopOk(s: World) {
    && (s.stopping.NotAsked? <==> !s.worker.stopped)
    && (s.worker.stopped ==> s.late + (if s.worker.loop.Asking? then 1 else 0) <= 1)
    && (!s.worker.stopped ==> s.late == 0)
    && (s.stopping.JobsAwaited? || s.stopping.Resolved? ==> s.worker.loop.Idle?)
    && (s.stopping.JobsAwaited? ==> s.worker.inFlight <= s.stopping.jobs)
    && (s.stopping.Resolved? ==> s.worker.inFlight == {})
  }

  predicate Inv(s: World) {
    && WithinSlots(s.worker) && Looked(s) && StopOk(s)
    && (s.worker.wakeAgain ==> !s.worker.loop.Idle?) && s.waiting !! s.worker.inFlight
    && (s.worker.loop.Answered? && s.worker.loop.got.Some? ==> s.worker.loop.got.value !in s.waiting)
  }

  lemma OneMore(a: set<Probe>, p: Probe)
    requires p !in a
    ensures |a + {p}| == |a| + 1
  {
  }

  lemma WakeKeepsInv(s: World)
    requires WithinSlots(s.worker) && StopOk(s) && (s.worker.wakeAgain ==> !s.worker.loop.Idle?) && s.waiting !! s.worker.inFlight
    requires s.worker.loop.Answered? && s.worker.loop.got.Some? ==> s.worker.loop.got.value !in s.waiting
    ensures Inv(s.(worker := Wake(s.worker)))
  {
  }

  lemma QueueKeepsInv(s: World, step: Step)
    requires Inv(s) && Enabled(s, step) && (step.Enqueue? || step.TakenElsewhere? || step.QueueAnswers?)
    ensures Inv(Apply(s, step))
  {
  }

  lemma ReplyKeepsInv(s: World)
    requires Inv(s) && Enabled(s, Reply)
    ensures Inv(Apply(s, Reply))
  {
  }

  lemma DoneKeepsInv(s: World, p: Probe)
    requires Inv(s) && Enabled(s, ProbeDone(p))
    ensures Inv(Apply(s, ProbeDone(p)))
  {
  }

  lemma LoopEndKeepsInv(s: World)
    requires Inv(s) && Enabled(s, LoopEnds)
    ensures Inv(Apply(s, LoopEnds))
  {
  }

  lemma StepKeepsInv(s: World, step: Step)
    requires Inv(s) && Enabled(s, step)
    ensures Inv(Apply(s, step))
  {
    match step
    case Enqueue(_) => QueueKeepsInv(s, step);
    case TakenElsewhere(_) => QueueKeepsInv(s, step);
    case QueueAnswers(_) => QueueKeepsInv(s, step);
    case Announce(p) => WakeKeepsInv(s.(announced := s.announced + {p}));
    case Poll => WakeKeepsInv(s);
    case Reply => ReplyKeepsInv(s);
    case ClaimFails =>
    case LoopEnds => LoopEndKeepsInv(s);
    case ProbeDone(p) => DoneKeepsInv(s, p);
    case StopCalled =>
    case StopAdvances =>
    case StartCalled =>
      if s.worker.slots > 0 {
        WakeKeepsInv(s.(worker := s.worker.(stopped := false), stopping := NotAsked, late := 0));
      }
  }

  lemma {:induction false} RunKeepsInv(s: World, steps: seq<Step>)
    requires Init(s)
    ensures Inv(Outcome(s, steps))
    decreases |steps|
  {
    if steps != [] {
      var before := Outcome(s, steps[..|steps| - 1]);
      RunKeepsInv(s, steps[..|steps| - 1]);
      if Enabled(before, steps[|steps| - 1]) {
        StepKeepsInv(before, steps[|steps| - 1]);
      }
    }
  }

  // ---- the theorems ----

  /** Claims never put more probes in work than there are slots. */
  lemma {:induction false} SlotsHold(s: World, steps: seq<Step>)
    requires Init(s)
    ensures var w := Outcome(s, steps).worker; |w.inFlight| <= Max(0, w.slots)
  {
    RunKeepsInv(s, steps);
  }

  /**
   No wake is lost: between loops, with a slot free and the last claim no error, no probe that was
   announced is still waiting.
   */
  lemma {:induction false} NoAnnouncedProbeWaits(s: World, steps: seq<Step>)
    requires Init(s)
    ensures var end := Outcome(s, steps);
            end.worker.loop.Idle? && !end.worker.stopped && |end.worker.inFlight| < end.worker.slots && !end.failed ==>
            end.waiting !! end.announced
  {
    RunKeepsInv(s, steps);
  }

  predicate AtRest(s: World) {
    s.worker.loop.Idle? && s.worker.inFlight == {}
  }

  /** Only `start()` stirs a worker whose stop has resolved. */
  lemma StaysAtRest(s: World, step: Step)
    requires Inv(s) && s.stopping.Resolved? && Enabled(s, step) && !step.StartCalled?
    ensures Apply(s, step).stopping.Resolved? && AtRest(Apply(s, step))
  {
    StepKeepsInv(s, step);
  }

  /**
   A stop lets at most the one claim in flight through; once it has resolved nothing runs and nothing is
   claimed, whatever happens, until `start()` is called again.
   */
  lemma {:induction false} StopIsFinal(s: World, steps: seq<Step>, more: seq<Step>)
    requires Init(s) && forall i :: 0 <= i < |more| ==> !more[i].StartCalled?
    ensures Outcome(s, steps).late <= 1
    ensures Outcome(s, steps).stopping.Resolved? ==>
              var end := Outcome(s, steps + more); AtRest(end) && end.stopping.Resolved? && end.late <= 1
    decreases |more|
  {
    RunKeepsInv(s, steps);
    RunKeepsInv(s, steps + more);
    if more == [] {
      assert steps + more == steps;
    } else if Outcome(s, steps).stopping.Resolved? {
      var n := |more| - 1;
      StopIsFinal(s, steps, more[..n]);
      RunKeepsInv(s, steps + more[..n]);
      assert (steps + more)[..|steps| + n] == steps + more[..n];
      if Enabled(Outcome(s, steps + more[..n]), more[n]) {
        StaysAtRest(Outcome(s, steps + more[..n]), more[n]);
      }
    }
  }

  // ---- what a run can do ----

  lemma {:induction false} OutcomeThen(s: World, steps: seq<Step>, step: Step)
    ensures var before := Outcome(s, steps);
            Outcome(s, steps + [step]) == if Enabled(before, step) then Apply(before, step) else before
  {
    assert (steps + [step])[..|steps|] == steps;
  }

  lemma {:induction false} Continued(s: World, first: seq<Step>, rest: seq<Step>)
    ensures Outcome(s, first + rest) == Outcome(Outcome(s, first), rest)
    decreases |rest|
  {
    if rest == [] {
      assert first + rest == first;
    } else {
      var n := |rest| - 1;
      assert first + rest == first + rest[..n] + [rest[n]];
      OutcomeThen(s, first + rest[..n], rest[n]);
      Continued(s, first, rest[..n]);
    }
  }

  lemma {:induction false} OneStep(s: World, step: Step)
    requires Enabled(s, step)
    ensures Outcome(s, [step]) == Apply(s, step)
  {
    OutcomeThen(s, [], step);
    assert [] + [step] == [step];
  }

  lemma {:induction false} TwoSteps(s: World, a: Step, b: Step)
    requires Enabled(s, a) && Enabled(Apply(s, a), b)
    ensures Outcome(s, [a, b]) == Apply(Apply(s, a), b)
  {
    OneStep(s, a);
    OutcomeThen(s, [a], b);
    assert [a] + [b] == [a, b];
  }

  /** The queue hands `p` over, and the loop takes it into work. */
  lemma {:induction false} Handed(s: World, p: Probe)
    requires s.worker.loop.Asking? && p in s.waiting
    ensures var end := Outcome(s, [QueueAnswers(Some(p)), Reply]);
            && end.worker.inFlight == s.worker.inFlight + {p} && end.waiting == s.waiting - {p} && !end.failed
            && end.worker.stopped == s.worker.stopped && end.worker.slots == s.worker.slots
            && end.worker.wakeAgain == s.worker.wakeAgain && end.stopping == s.stopping && end.announced == s.announced
            && (s.worker.stopped ==> end.worker.loop.Over?)
            && end.late == s.late + if s.worker.stopped then 1 else 0
  {
    TwoSteps(s, QueueAnswers(Some(p)), Reply);
  }

  /** With no loop running and a slot free, an announced probe comes into work. */
  lemma {:induction false} AnnouncedIsTaken(s: World, p: Probe)
    requires s.worker.loop.Idle? && !s.worker.stopped && |s.worker.inFlight| < s.worker.slots
    requires p !in s.waiting + s.announced + s.worker.inFlight
    ensures var end := Outcome(s, [Enqueue(p), Announce(p)] + [QueueAnswers(Some(p)), Reply]);
            && end.worker.inFlight == s.worker.inFlight + {p} && end.waiting == s.waiting
            && end.announced == s.announced + {p} && !end.failed
  {
    var steps := [Enqueue(p), Announce(p)];
    TwoSteps(s, Enqueue(p), Announce(p));
    Continued(s, steps, [QueueAnswers(Some(p)), Reply]);
    Handed(Outcome(s, steps), p);
    assert s.waiting + {p} - {p} == s.waiting;
  }

  /** A claim that failed leaves its probe to the next poll; one that somebody else took is gone. */
  lemma {:induction false} PollTakesIt(s: World, p: Probe, q: Probe)
    requires s.worker.loop.Asking? && !s.worker.wakeAgain && !s.worker.stopped && |s.worker.inFlight| < s.worker.slots
    requires p in s.waiting && q in s.waiting && p != q
    ensures var end := Outcome(s, [ClaimFails, LoopEnds] + ([TakenElsewhere(q), Poll] + [QueueAnswers(Some(p)), Reply]));
            && Outcome(s, [ClaimFails, LoopEnds]).failed && Outcome(s, [ClaimFails, LoopEnds]).worker.loop.Idle?
            && end.worker.inFlight == s.worker.inFlight + {p} && end.waiting == s.waiting - {q} - {p} && !end.failed
  {
    TwoSteps(s, ClaimFails, LoopEnds);
    var idle := Outcome(s, [ClaimFails, LoopEnds]);
    Continued(s, [ClaimFails, LoopEnds], [TakenElsewhere(q), Poll] + [QueueAnswers(Some(p)), Reply]);
    TwoSteps(idle, TakenElsewhere(q), Poll);
    Continued(idle, [TakenElsewhere(q), Poll], [QueueAnswers(Some(p)), Reply]);
    Handed(Outcome(idle, [TakenElsewhere(q), Poll]), p);
  }

  /** A slot that comes free is for the next probe at once. */
  lemma {:induction false} FreedSlotIsUsed(s: World, p: Probe, q: Probe)
    requires Inv(s) && s.worker.loop.Idle? && !s.worker.stopped && p in s.worker.inFlight && q in s.waiting
    ensures var end := Outcome(s, [ProbeDone(p)] + [QueueAnswers(Some(q)), Reply]);
            end.worker.inFlight == s.worker.inFlight - {p} + {q} && end.waiting == s.waiting - {q}
  {
    assert |s.worker.inFlight - {p}| < |s.worker.inFlight|;
    OneStep(s, ProbeDone(p));
    Continued(s, [ProbeDone(p)], [QueueAnswers(Some(q)), Reply]);
    Handed(Outcome(s, [ProbeDone(p)]), q);
  }

  /** A stop waits for the claim in flight, and then for the probes in work, this one among them. */
  lemma {:induction false} StopWaits(s: World, p: Probe)
    requires Inv(s) && s.stopping.NotAsked? && s.worker.loop.Asking? && p in s.waiting
    ensures var called := Outcome(s, [StopCalled]);
            var home := Outcome(called, [QueueAnswers(Some(p)), Reply]);
            var awaited := Outcome(home, [LoopEnds, StopAdvances]);
            && called.stopping.LoopAwaited? && home.late == 1 && home.stopping.LoopAwaited?
            && awaited.stopping == JobsAwaited(s.worker.inFlight + {p}) && awaited.worker.loop.Idle?
            && !Enabled(awaited, StopAdvances)
  {
    OneStep(s, StopCalled);
    var called := Outcome(s, [StopCalled]);
    Handed(called, p);
    var home := Outcome(called, [QueueAnswers(Some(p)), Reply]);
    TwoSteps(home, LoopEnds, StopAdvances);
    assert p in s.worker.inFlight + {p};
  }

  /** With the last of them answered it resolves; a start from there asks again. */
  lemma {:induction false} StopResolves(s: World, p: Probe)
    requires s.stopping == JobsAwaited({p}) && s.worker.inFlight == {p} && s.worker.stopped && s.worker.loop.Idle? && s.worker.slots > 0
    ensures var end := Outcome(s, [ProbeDone(p), StopAdvances]);
            var again := Outcome(end, [StartCalled]);
            && end.stopping.Resolved? && end.worker.inFlight == {} && end.worker.loop.Idle?
            && again.stopping.NotAsked? && again.worker.loop.Asking? && again.late == 0
  {
    TwoSteps(s, ProbeDone(p), StopAdvances);
    OneStep(Outcome(s, [ProbeDone(p), StopAdvances]), StartCalled);
  }
}
