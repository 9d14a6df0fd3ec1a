/**
 The run as its own process makes it (`migration-orchestrator.service.ts`): nine steps, a cancellation
 looked for before each, and what is emitted and done about the triggers however it ends.
 */
module Orchestrator {
  import opened Wrappers
  import opened RunQueue
  import opened RunEvents

  /** How the work of a step went. */
  datatype Work = Fine(detail: Option<string>) | Broke(failure: Failure) | Interrupted(failure: Failure)

  /** One step as it will go: the error it throws if the signal is up before it, its work, and how long that takes. */
  datatype StepRun = StepRun(abort: Option<Failure>, work: Work, ms: int)

  /** The ids of the nine steps; `MIGRATION_STEP_ORDER` is one such order. */
  type Order = o: seq<string> | |o| == 9 witness STEP_ORDER

  /** Everything the outside decides about a run. */
  datatype Script = Script(order: Order, steps: seq<StepRun>, copied: bool, failedTables: Failure, reenableError: Option<string>, ms: int)

  datatype Act = Emit(body: Body) | DisableTriggers | EnableTriggers

  datatype Stop = Stop(at: nat, cancelled: bool, failure: Failure)

  const STEPS: nat := 9
  const DISABLE: nat := 4
  const ENABLE: nat := 6

  predicate Complete(script: Script) {
    |script.steps| == STEPS
  }

  // ---- what a step does ----

  function Effects(i: nat): seq<Act> {
    if i == DISABLE then [DisableTriggers] else if i == ENABLE then [EnableTriggers] else []
  }

  function Finished(order: Order, i: nat, s: StepRun): Body
    requires i < STEPS
  {
    match s.work
    case Fine(detail) => StepFinished(order[i], "ok", s.ms, detail, None)
    case Broke(f) => StepFinished(order[i], "failed", s.ms, None, Some(f))
    case Interrupted(f) => StepFinished(order[i], "failed", s.ms, None, Some(f))
  }

  function StepActs(order: Order, i: nat, s: StepRun): seq<Act>
    requires i < STEPS
  {
    if s.abort.Some? then [] else [Emit(StepStarted(order[i], i))] + Effects(i) + [Emit(Finished(order, i, s))]
  }

  function StopOf(i: nat, s: StepRun): Option<Stop> {
    if s.abort.Some? then Some(Stop(i, true, s.abort.value))
    else
      match s.work
      case Fine(_) => None
      case Broke(f) => Some(Stop(i, false, f))
      case Interrupted(f) => Some(Stop(i, true, f))
  }

  /** The first `n` steps, up to the one that stops the run. */
  function Stopped(script: Script, n: nat): Option<Stop>
    requires Complete(script) && n <= STEPS
  {
    if n == 0 then None
    else if Stopped(script, n - 1).Some? then Stopped(script, n - 1)
    else StopOf(n - 1, script.steps[n - 1])
  }

  function Acts(script: Script, n: nat): seq<Act>
    requires Complete(script) && n <= STEPS
  {
    if n == 0 then [Emit(RunStarted)]
    else if Stopped(script, n - 1).Some? then Acts(script, n - 1)
    else Acts(script, n - 1) + StepActs(script.order, n - 1, script.steps[n - 1])
  }

  /** What the `catch` does about the triggers. */
  function Compensation(stop: Stop, script: Script): seq<Act> {
    if stop.cancelled && DISABLE <= stop.at <= ENABLE then
      [EnableTriggers] + if script.reenableError.None? then [] else [Emit(Log("warn", script.reenableError.value, None))]
    else []
  }

  function Ending(script: Script): seq<Act>
    requires Complete(script)
  {
    match Stopped(script, STEPS)
    case None => [Emit(RunFinished(if script.copied then Succeeded else Status.Failed, script.ms,
                                   if script.copied then None else Some(script.failedTables)))]
    case Some(stop) =>
      Compensation(stop, script) + [Emit(RunFinished(if stop.cancelled then Cancelled else Status.Failed, script.ms, Some(stop.failure)))]
  }

  function Trace(script: Script): seq<Act>
    requires Complete(script)
  {
    Acts(script, STEPS) + Ending(script)
  }

  // ---- the run itself ----

  /** `step`. */
  method Step(script: Script, i: nat, before: seq<Act>) returns (acts: seq<Act>, stop: Option<Stop>)
    requires Complete(script) && i < STEPS
    ensures acts == before + StepActs(script.order, i, script.steps[i]) && stop == StopOf(i, script.steps[i])
  {
    var s, order := script.steps[i], script.order;
    if s.abort.Some? {
      return before, Some(Stop(i, true, s.abort.value));
    }
    acts := before + [Emit(StepStarted(order[i], i))] + Effects(i);
    match s.work {
      case Fine(detail) =>
        acts := acts + [Emit(StepFinished(order[i], "ok", s.ms, detail, None))];
        stop := None;
      case Broke(f) =>
        acts := acts + [Emit(StepFinished(order[i], "failed", s.ms, None, Some(f)))];
        stop := Some(Stop(i, false, f));
      case Interrupted(f) =>
        acts := acts + [Emit(StepFinished(order[i], "failed", s.ms, None, Some(f)))];
        stop := Some(Stop(i, true, f));
    }
  }

  /** The next step of the sequence, which a thrown error ends. */
  method NextStep(script: Script, i: nat, acts: seq<Act>, stop: Option<Stop>) returns (acts': seq<Act>, stop': Option<Stop>)
    requires Complete(script) && i < STEPS && acts == Acts(script, i) && stop == Stopped(script, i)
    ensures acts' == Acts(script, i + 1) && stop' == Stopped(script, i + 1)
    ensures if stop.Some? then stop' == stop else stop'.Some? ==> stop'.value.at == i
  {
    acts', stop' := acts, stop;
    if stop.None? {
      acts', stop' := Step(script, i, acts);
    }
  }

  method RunSteps(script: Script) returns (acts: seq<Act>, stop: Option<Stop>, triggersDisabled: bool)
    requires Complete(script)
    ensures acts == Acts(script, STEPS) && stop == Stopped(script, STEPS)
    ensures stop.Some? ==> triggersDisabled == (DISABLE <= stop.value.at <= ENABLE)
  {
    acts, stop, triggersDisabled := [Emit(RunStarted)], None, false;
    acts, stop := NextStep(script, 0, acts, stop);
    acts, stop := NextStep(script, 1, acts, stop);
    acts, stop := NextStep(script, 2, acts, stop);
    acts, stop := NextStep(script, 3, acts, stop);
    if stop.None? {
      triggersDisabled := true;
    }
    acts, stop := NextStep(script, 4, acts, stop);
    acts, stop := NextStep(script, 5, acts, stop);
    acts, stop := NextStep(script, 6, acts, stop);
    if stop.None? {
      triggersDisabled := false;
    }
    acts, stop := NextStep(script, 7, acts, stop);
    acts, stop := NextStep(script, 8, acts, stop);
  }

  /** `run`. */
  method Execute(script: Script) returns (trace: seq<Act>)
    requires Complete(script)
    ensures trace == Trace(script)
  {
    var acts, stop, triggersDisabled := RunSteps(script);
    if stop.None? {
      return acts + [Emit(RunFinished(if script.copied then Succeeded else Status.Failed, script.ms,
                                      if script.copied then None else Some(script.failedTables)))];
    }
    var compensation := [];
    if stop.value.cancelled && triggersDisabled {
      compensation := [EnableTriggers];
      if script.reenableError.Some? {
        compensation := compensation + [Emit(Log("warn", script.reenableError.value, None))];
      }
    }
    trace := acts + (compensation + [Emit(RunFinished(if stop.value.cancelled then Cancelled else Status.Failed, script.ms, Some(stop.value.failure)))]);
  }

  // ---- the grammar of what is emitted ----

  /** Where a reader of the stream is. */
  datatype Phase =
    | Unstarted
    /** After `k` whole steps. */
    | Between(k: nat)
    | Within(k: nat)
    /** Step `k` failed; nothing but the end may follow. */
    | Halted(k: nat)
    | Over(outcome: Outcome, steps: nat, halted: bool)
    | Unexpected

  function Advance(order: Order, p: Phase, b: Body): Phase {
    match b
    case RunStarted => if p.Unstarted? then Between(0) else Unexpected
    case StepStarted(id, ordinal) =>
      if p.Between? && p.k < STEPS && id == order[p.k] && ordinal == p.k then Within(p.k) else Unexpected
    case StepFinished(id, status, _, _, failure) =>
      if p.Within? && p.k < STEPS && id == order[p.k] then
        if status == "ok" && failure.None? then Between(p.k + 1)
        else if status == "failed" && failure.Some? then Halted(p.k) else Unexpected
      else Unexpected
    case Log(_, _, _) => if p.Between? || p.Halted? then p else Unexpected
    case RunFinished(outcome, _, failure) =>
      if p.Between? && (outcome.Succeeded? ==> p.k == STEPS && failure.None?) then Over(outcome, p.k, false)
      else if p.Halted? && !outcome.Succeeded? && failure.Some? then Over(outcome, p.k, true)
      else Unexpected
    case _ => Unexpected
  }

  function Parse(order: Order, acts: seq<Act>): Phase {
    if acts == [] then Unstarted
    else
      var before, act := Parse(order, acts[..|acts| - 1]), acts[|acts| - 1];
      if act.Emit? then Advance(order, before, act.body) else before
  }

  lemma {:induction false} ParseThen(order: Order, acts: seq<Act>, act: Act)
    ensures Parse(order, acts + [act]) == if act.Emit? then Advance(order, Parse(order, acts), act.body) else Parse(order, acts)
  {
    assert (acts + [act])[..|acts|] == acts;
  }

  lemma {:induction false} SilentParses(order: Order, acts: seq<Act>, i: nat)
    ensures Parse(order, acts + Effects(i)) == Parse(order, acts)
  {
    if i == DISABLE {
      ParseThen(order, acts, DisableTriggers);
    } else if i == ENABLE {
      ParseThen(order, acts, EnableTriggers);
    } else {
      assert acts + [] == acts;
    }
  }

  lemma StartAdvances(order: Order, i: nat)
    requires i < STEPS
    ensures Advance(order, Between(i), StepStarted(order[i], i)) == Within(i)
  {
  }

  lemma FinishAdvances(order: Order, i: nat, s: StepRun)
    requires i < STEPS
    ensures Advance(order, Within(i), Finished(order, i, s)) == if s.work.Fine? then Between(i + 1) else Halted(i)
  {
  }

  lemma {:induction false} StepParses(order: Order, acts: seq<Act>, i: nat, s: StepRun)
    requires i < STEPS && Parse(order, acts) == Between(i)
    ensures Parse(order, acts + StepActs(order, i, s)) == if s.abort.Some? then Between(i) else if s.work.Fine? then Between(i + 1) else Halted(i)
  {
    if s.abort.Some? {
      assert acts + [] == acts;
    } else {
      var start, finish := Emit(StepStarted(order[i], i)), Emit(Finished(order, i, s));
      StartAdvances(order, i);
      FinishAdvances(order, i, s);
      ParseThen(order, acts, start);
      SilentParses(order, acts + [start], i);
      ParseThen(order, acts + [start] + Effects(i), finish);
      JoinThree(acts, start, Effects(i), finish);
    }
  }

  lemma JoinThree(acts: seq<Act>, start: Act, effects: seq<Act>, finish: Act)
    ensures acts + ([start] + effects + [finish]) == acts + [start] + effects + [finish]
  {
  }

  /** Where the steps leave the stream. */
  function PhaseAfter(script: Script, n: nat): Phase
    requires Complete(script) && n <= STEPS
  {
    match Stopped(script, n)
    case None => Between(n)
    case Some(stop) => if stop.at < STEPS && script.steps[stop.at].abort.Some? then Between(stop.at) else Halted(stop.at)
  }

  lemma {:induction false} ActsParse(script: Script, n: nat)
    requires Complete(script) && n <= STEPS
    ensures Parse(script.order, Acts(script, n)) == PhaseAfter(script, n)
    ensures Stopped(script, n).Some? ==> Stopped(script, n).value.at < n
  {
    if n == 0 {
      ParseThen(script.order, [], Emit(RunStarted));
      assert [] + [Emit(RunStarted)] == Acts(script, 0);
    } else {
      ActsParse(script, n - 1);
      if Stopped(script, n - 1).None? {
        StepParses(script.order, Acts(script, n - 1), n - 1, script.steps[n - 1]);
      }
    }
  }

  /** The status `run_finished` carries. */
  function EndStatus(script: Script): Outcome
    requires Complete(script)
  {
    match Stopped(script, STEPS)
    case None => if script.copied then Succeeded else Status.Failed
    case Some(stop) => if stop.cancelled then Cancelled else Status.Failed
  }

  /**
   However a run goes, what it emits is `run_started`, started/finished pairs of steps 0, 1, 2, ... of which
   only the last can have failed, and then exactly one `run_finished`, with nothing behind it.
   */
  lemma {:induction false} TraceFollowsGrammar(script: Script)
    requires Complete(script)
    ensures Parse(script.order, Trace(script)) ==
              match Stopped(script, STEPS)
              case None => Over(EndStatus(script), STEPS, false)
              case Some(stop) => Over(EndStatus(script), stop.at, stop.at < STEPS && !script.steps[stop.at].abort.Some?)
  {
    ActsParse(script, STEPS);
    var acts, order := Acts(script, STEPS), script.order;
    match Stopped(script, STEPS)
    case None =>
      var failure := if script.copied then None else Some(script.failedTables);
      EndAdvances(order, Between(STEPS), EndStatus(script), script.ms, failure);
      ParseThen(order, acts, Emit(RunFinished(EndStatus(script), script.ms, failure)));
    case Some(stop) =>
      var finish := Emit(RunFinished(EndStatus(script), script.ms, Some(stop.failure)));
      CompensationParses(order, acts, stop, script);
      EndAdvances(order, PhaseAfter(script, STEPS), EndStatus(script), script.ms, Some(stop.failure));
      ParseThen(order, acts + Compensation(stop, script), finish);
      assert acts + (Compensation(stop, script) + [finish]) == acts + Compensation(stop, script) + [finish];
  }

  lemma EndAdvances(order: Order, p: Phase, outcome: Outcome, ms: int, failure: Option<Failure>)
    requires p.Between? || p.Halted?
    requires if outcome.Succeeded? then p == Between(STEPS) && failure.None? else failure.Some?
    ensures Advance(order, p, RunFinished(outcome, ms, failure)) == Over(outcome, p.k, p.Halted?)
  {
  }

  lemma {:induction false} CompensationParses(order: Order, acts: seq<Act>, stop: Stop, script: Script)
    requires Parse(order, acts).Between? || Parse(order, acts).Halted?
    ensures Parse(order, acts + Compensation(stop, script)) == Parse(order, acts)
  {
    var more := Compensation(stop, script);
    if more == [] {
      assert acts + more == acts;
    } else {
      ParseThen(order, acts, EnableTriggers);
      if |more| == 2 {
        ParseThen(order, acts + [EnableTriggers], more[1]);
        assert acts + more == acts + [EnableTriggers] + [more[1]];
      }
    }
  }

  lemma {:induction false} NeverStopped(script: Script, n: nat)
    requires Complete(script) && n <= STEPS
    ensures Stopped(script, n).None? <==> forall i :: 0 <= i < n ==> !script.steps[i].abort.Some? && script.steps[i].work.Fine?
  {
    if n > 0 {
      NeverStopped(script, n - 1);
    }
  }

  /** A run says it succeeded exactly when all nine steps went through and every table was copied. */
  lemma SucceededExactly(script: Script)
    requires Complete(script)
    ensures Parse(script.order, Trace(script)) == Over(Succeeded, STEPS, false) <==>
            script.copied && forall i :: 0 <= i < STEPS ==> !script.steps[i].abort.Some? && script.steps[i].work.Fine?
  {
    TraceFollowsGrammar(script);
    NeverStopped(script, STEPS);
  }

  /** Step `i` is the first that does not go through. */
  predicate FirstToFail(script: Script, i: nat)
    requires Complete(script)
  {
    && i < STEPS && (script.steps[i].abort.Some? || !script.steps[i].work.Fine?)
    && forall j :: 0 <= j < i ==> script.steps[j].abort.None? && script.steps[j].work.Fine?
  }

  lemma {:induction false} StoppedAtFirst(script: Script, n: nat, i: nat)
    requires Complete(script) && n <= STEPS && FirstToFail(script, i)
    ensures Stopped(script, n) == if i < n then StopOf(i, script.steps[i]) else None
  {
    if n > 0 {
      StoppedAtFirst(script, n - 1, i);
    }
  }

  /**
   How a run ends: succeeded, or failed with its tables, if every step went through; otherwise with the error
   of the first that did not, cancelled if the signal was up before it or interrupted it, and failed if it broke.
   */
  lemma EndsAs(script: Script, i: nat)
    requires Complete(script)
    ensures Trace(script) != [] && Trace(script)[|Trace(script)| - 1].Emit? && Trace(script)[|Trace(script)| - 1].body.RunFinished?
    ensures var end := Trace(script)[|Trace(script)| - 1].body;
            && end.durationMs == script.ms
            && ((forall j :: 0 <= j < STEPS ==> script.steps[j].abort.None? && script.steps[j].work.Fine?) ==>
                  if script.copied then end.outcome == Succeeded && end.failure == None
                  else end.outcome == Status.Failed && end.failure == Some(script.failedTables))
            && (FirstToFail(script, i) ==>
                  var s := script.steps[i];
                  if s.abort.Some? then end.outcome == Cancelled && end.failure == s.abort
                  else if s.work.Interrupted? then end.outcome == Cancelled && end.failure == Some(s.work.failure)
                  else end.outcome == Status.Failed && end.failure == Some(s.work.failure))
  {
    NeverStopped(script, STEPS);
    if FirstToFail(script, i) {
      StoppedAtFirst(script, STEPS, i);
    }
    LastOfEnding(script);
  }

  /** All steps before `i` go through, and the signal is not up before it. */
  predicate Reached(script: Script, i: nat)
    requires Complete(script)
  {
    && i < STEPS && script.steps[i].abort.None?
    && forall j :: 0 <= j < i ==> script.steps[j].abort.None? && script.steps[j].work.Fine?
  }

  lemma {:induction false} ActsGrow(script: Script, m: nat, n: nat)
    requires Complete(script) && m <= n <= STEPS
    ensures Acts(script, m) <= Acts(script, n)
  {
    if m < n {
      ActsGrow(script, m, n - 1);
    }
  }

  /** Every step a run reaches is told of: its start, and how it ended, how long it took, with its detail or its error. */
  lemma StepIsTold(script: Script, i: nat)
    requires Complete(script) && Reached(script, i)
    ensures Emit(StepStarted(script.order[i], i)) in Trace(script)
    ensures var s := script.steps[i];
            match s.work
            case Fine(detail) => Emit(StepFinished(script.order[i], "ok", s.ms, detail, None)) in Trace(script)
            case Broke(f) => Emit(StepFinished(script.order[i], "failed", s.ms, None, Some(f))) in Trace(script)
            case Interrupted(f) => Emit(StepFinished(script.order[i], "failed", s.ms, None, Some(f))) in Trace(script)
    ensures i == 4 ==> DisableTriggers in Trace(script)
    ensures i == 6 ==> EnableTriggers in Trace(script)
  {
    NeverStopped(script, i);
    ActsGrow(script, i + 1, STEPS);
    var acts := StepActs(script.order, i, script.steps[i]);
    assert Acts(script, i + 1) == Acts(script, i) + acts;
    forall x | x in acts
      ensures x in Trace(script)
    {
      InGrown(Acts(script, i), acts, Acts(script, STEPS), Ending(script), x);
    }
    StepHas(script.order, i, script.steps[i]);
  }

  lemma InGrown(before: seq<Act>, acts: seq<Act>, all: seq<Act>, rest: seq<Act>, x: Act)
    requires before + acts <= all && x in acts
    ensures x in all + rest
  {
    var k :| 0 <= k < |acts| && acts[k] == x;
    assert (before + acts)[|before| + k] == x;
    assert (all + rest)[|before| + k] == x;
  }

  lemma StepHas(order: Order, i: nat, s: StepRun)
    requires i < STEPS && s.abort.None?
    ensures var acts := StepActs(order, i, s);
            && acts == [Emit(StepStarted(order[i], i))] + Effects(i) + [Emit(Finished(order, i, s))]
            && Emit(StepStarted(order[i], i)) in acts && Emit(Finished(order, i, s)) in acts
            && (i == 4 ==> DisableTriggers in acts) && (i == 6 ==> EnableTriggers in acts)
  {
    var acts := StepActs(order, i, s);
    assert acts[0] == Emit(StepStarted(order[i], i)) && acts[|acts| - 1] == Emit(Finished(order, i, s));
    if i == 4 || i == 6 {
      assert acts[1] == Effects(i)[0];
    }
  }

  lemma {:induction false} LastOfEnding(script: Script)
    requires Complete(script)
    ensures Ending(script) != [] && Trace(script)[|Trace(script)| - 1] == Ending(script)[|Ending(script)| - 1]
    ensures Ending(script)[|Ending(script)| - 1] == Emit(
              match Stopped(script, STEPS)
              case None => RunFinished(if script.copied then Succeeded else Status.Failed, script.ms,
                                       if script.copied then None else Some(script.failedTables))
              case Some(stop) => RunFinished(if stop.cancelled then Cancelled else Status.Failed, script.ms, Some(stop.failure)))
  {
  }

  lemma WarningIsTold(acts: seq<Act>, more: seq<Act>, ending: seq<Act>, x: Act)
    ensures more <= ending && |more| == 2 && more[1] == x ==> x in acts + ending
  {
    if more <= ending && |more| == 2 && more[1] == x {
      assert (acts + ending)[|acts| + 1] == x;
    }
  }

  // ---- the triggers ----

  /** The last thing done about the triggers. */
  function LastTouch(acts: seq<Act>): Option<Act> {
    if acts == [] then None
    else if acts[|acts| - 1].Emit? then LastTouch(acts[..|acts| - 1]) else Some(acts[|acts| - 1])
  }

  lemma {:induction false} LastTouchAppend(a: seq<Act>, b: seq<Act>)
    ensures LastTouch(a + b) == if LastTouch(b).Some? then LastTouch(b) else LastTouch(a)
    decreases |b|
  {
    if b == [] {
      assert a + b == a;
    } else {
      assert (a + b)[..|a| + |b| - 1] == a + b[..|b| - 1];
      LastTouchAppend(a, b[..|b| - 1]);
    }
  }

  lemma StepTouches(order: Order, i: nat, s: StepRun)
    requires i < STEPS
    ensures LastTouch(StepActs(order, i, s)) == if s.abort.Some? then None else LastTouch(Effects(i))
    ensures LastTouch(Effects(i)) == if i == DISABLE then Some(DisableTriggers) else if i == ENABLE then Some(EnableTriggers) else None
  {
  }

  /** How many steps were begun. */
  function Begun(script: Script, n: nat): nat
    requires Complete(script) && n <= STEPS
  {
    match Stopped(script, n)
    case None => n
    case Some(stop) => if stop.at < STEPS && script.steps[stop.at].abort.Some? then stop.at else stop.at + 1
  }

  lemma {:induction false} AbortIsCancel(script: Script, n: nat)
    requires Complete(script) && n <= STEPS
    ensures Stopped(script, n).Some? ==>
              Stopped(script, n).value.at < n && (script.steps[Stopped(script, n).value.at].abort.Some? ==> Stopped(script, n).value.cancelled)
  {
    if n > 0 {
      AbortIsCancel(script, n - 1);
    }
  }

  lemma BegunNext(script: Script, n: nat)
    requires Complete(script) && n < STEPS
    ensures Begun(script, n + 1) ==
              if Stopped(script, n).Some? then Begun(script, n) else if script.steps[n].abort.Some? then n else n + 1
    ensures Stopped(script, n).None? ==> Begun(script, n) == n
  {
  }

  function TouchedBy(begun: nat): Option<Act> {
    if begun > ENABLE then Some(EnableTriggers) else if begun > DISABLE then Some(DisableTriggers) else None
  }

  lemma {:induction false} StepsTouch(script: Script, n: nat)
    requires Complete(script) && n <= STEPS
    ensures LastTouch(Acts(script, n)) == TouchedBy(Begun(script, n))
  {
    if n > 0 {
      StepsTouch(script, n - 1);
      BegunNext(script, n - 1);
      if Stopped(script, n - 1).None? {
        StepTouches(script.order, n - 1, script.steps[n - 1]);
        LastTouchAppend(Acts(script, n - 1), StepActs(script.order, n - 1, script.steps[n - 1]));
      }
    }
  }

  lemma {:induction false} EndingTouches(script: Script)
    requires Complete(script)
    ensures LastTouch(Ending(script)) ==
              match Stopped(script, STEPS)
              case None => None
              case Some(stop) => if stop.cancelled && DISABLE <= stop.at <= ENABLE then Some(EnableTriggers) else None
  {
    match Stopped(script, STEPS)
    case None =>
    case Some(stop) =>
      var more, finish := Compensation(stop, script), Emit(RunFinished(EndStatus(script), script.ms, Some(stop.failure)));
      LastTouchAppend(more, [finish]);
      if more != [] && |more| == 2 {
        LastTouchAppend([EnableTriggers], [more[1]]);
      }
  }

  /**
   A run leaves the triggers it disabled without trying to enable them again exactly when it failed, not
   cancelled, in `disable_triggers` or `migrate_data`.
   */
  lemma {:induction false} TriggersLeftDisabledExactly(script: Script)
    requires Complete(script)
    ensures LastTouch(Trace(script)) == Some(DisableTriggers) <==>
            match Stopped(script, STEPS)
            case None => false
            case Some(stop) => !stop.cancelled && DISABLE <= stop.at < ENABLE
  {
    StepsTouch(script, STEPS);
    EndingTouches(script);
    LastTouchAppend(Acts(script, STEPS), Ending(script));
    AbortIsCancel(script, STEPS);
  }

  /** Four steps that go through, the triggers disabled, and a `migrate_data` that fails. */
  function BrokenMigration(order: Order, failure: Failure): Script {
    Script(order, seq(STEPS, i => StepRun(None, if i == DISABLE + 1 then Broke(failure) else Fine(None), 1)),
           false, failure, None, 6)
  }

  lemma BrokenMigrationStops(order: Order, failure: Failure)
    ensures Stopped(BrokenMigration(order, failure), STEPS) == Some(Stop(DISABLE + 1, false, failure))
  {
    var script := BrokenMigration(order, failure);
    var stop := Some(Stop(DISABLE + 1, false, failure));
    NeverStopped(script, DISABLE + 1);
    assert Stopped(script, 6) == stop;
    assert Stopped(script, 7) == stop;
  }

  /** Such a run: it ends as failed, and the triggers it disabled stay so. */
  lemma {:induction false} BrokenMigrationLeavesTriggersDisabled(order: Order, failure: Failure)
    ensures var script := BrokenMigration(order, failure);
            && LastTouch(Trace(script)) == Some(DisableTriggers)
            && Parse(order, Trace(script)) == Over(Status.Failed, DISABLE + 1, true)
  {
    BrokenMigrationStops(order, failure);
    TriggersLeftDisabledExactly(BrokenMigration(order, failure));
    TraceFollowsGrammar(BrokenMigration(order, failure));
  }

  lemma {:induction false} FailedReenableIsTold(script: Script)
    requires Complete(script) && Stopped(script, STEPS).Some? && Stopped(script, STEPS).value.cancelled
    requires DISABLE <= Stopped(script, STEPS).value.at <= ENABLE && script.reenableError.Some?
    ensures Emit(Log("warn", script.reenableError.value, None)) in Trace(script)
  {
    var more := Compensation(Stopped(script, STEPS).value, script);
    WarningIsTold(Acts(script, STEPS), more, Ending(script), Emit(Log("warn", script.reenableError.value, None)));
  }

  /** A cancelled run that had disabled them, and not enabled them again, tries to before it ends. */
  lemma {:induction false} CancellationReenables(script: Script)
    requires Complete(script) && Stopped(script, STEPS).Some? && Stopped(script, STEPS).value.cancelled
    requires LastTouch(Acts(script, STEPS)) == Some(DisableTriggers)
    ensures LastTouch(Trace(script)) == Some(EnableTriggers)
    ensures script.reenableError.Some? ==> Emit(Log("warn", script.reenableError.value, None)) in Trace(script)
  {
    StepsTouch(script, STEPS);
    EndingTouches(script);
    LastTouchAppend(Acts(script, STEPS), Ending(script));
    AbortIsCancel(script, STEPS);
    if script.reenableError.Some? {
      FailedReenableIsTold(script);
    }
  }
}
