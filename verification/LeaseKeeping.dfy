/**
 What a lease is kept by: a child is stopped for its lease only when a look at the deadlines finds the last
 confirming beat too old, or a beat says that the run is no longer held.
 */
module LeaseKeeping {
  import opened Wrappers
  import opened RunQueue
  import opened RunnerAgentModel
  import opened LeaseProtocol

  /** The steps in which agent `a` judges its deadlines. */
  predicate Looks(step: Step, a: AgentId) {
    (step.Watchdog? || step.BeatFail? || step.Launch?) && step.agent == a
  }

  predicate ChildStops(step: Step, a: AgentId, r: RunId) {
    (step.ChildFinish? || step.ChildDie?) && step.agent == a && step.run == r
  }

  /** An answered beat comes back to `a`, sent when `r` was live. */
  predicate Answers(s: System, step: Step, a: AgentId, r: RunId) {
    && step.BeatReply? && step.agent == a && a in s.agents && step.beat in s.agents[a].beats
    && s.agents[a].beats[step.beat].Answered? && r in s.agents[a].beats[step.beat].liveBefore
  }

  predicate SaysHeld(s: System, step: Step, a: AgentId, r: RunId) {
    Answers(s, step, a, r) && r in s.agents[a].beats[step.beat].held
  }

  predicate SaysGone(s: System, step: Step, a: AgentId, r: RunId) {
    Answers(s, step, a, r) && r !in s.agents[a].beats[step.beat].held
  }

  predicate Stops(cfg: Config, s: System, step: Step, a: AgentId, r: RunId, since: int) {
    ChildStops(step, a, r) || SaysGone(s, step, a, r) || (Looks(step, a) && s.now - since >= cfg.leaseMs - cfg.fenceMarginMs)
  }

  lemma LaunchStops(cfg: Config, s: System, step: Step, a: AgentId, r: RunId)
    requires step.Launch? && step.agent == a && a in s.agents && s.agents[a].claim.Starting? && s.agents[a].claim.run != r
    requires r in s.agents[a].state.writing && r in s.agents[a].state.owned
    ensures StopsRightly(cfg, s, step, a, r, ApplyClaim(cfg, s, step))
  {
  }

  /** The other steps of a claim touch no run but the claimed one. */
  lemma QuietClaim(cfg: Config, s: System, step: Step, a: AgentId, r: RunId)
    requires IsClaimStep(step) && !step.Launch? && step.agent == a && a in s.agents && ClaimEnabled(s, step)
    requires var g := s.agents[a]; !g.claim.Idle? && !g.claim.Asking? ==> g.claim.run != r
    ensures var s' := ApplyClaim(cfg, s, step); a in s'.agents && KeptAt(s.agents[a].state, s'.agents[a].state.(launching := s.agents[a].state.launching), r)
  {
  }

  lemma ClaimStepStops(cfg: Config, s: System, step: Step, a: AgentId, r: RunId)
    requires IsClaimStep(step) && step.agent == a && a in s.agents && ClaimEnabled(s, step)
    requires var g := s.agents[a]; r in g.state.writing && r in g.state.owned && (!g.claim.Idle? && !g.claim.Asking? ==> g.claim.run != r)
    ensures StopsRightly(cfg, s, step, a, r, ApplyClaim(cfg, s, step))
  {
    if step.Launch? {
      LaunchStops(cfg, s, step, a, r);
    } else {
      QuietClaim(cfg, s, step, a, r);
    }
  }

  lemma BeatStepStops(cfg: Config, s: System, step: Step, a: AgentId, r: RunId)
    requires IsBeatStep(step) && step.agent == a && a in s.agents && BeatEnabled(s, step)
    requires var g := s.agents[a]; r in g.state.writing && r in g.state.owned && r in g.state.live
    ensures StopsRightly(cfg, s, step, a, r, ApplyBeat(cfg, s, step))
  {
  }

  lemma ChildStepStops(cfg: Config, s: System, step: Step, a: AgentId, r: RunId)
    requires IsChildStep(step) && step.agent == a && a in s.agents && ChildEnabled(s, step)
    requires r in s.agents[a].state.writing && r in s.agents[a].state.owned
    ensures StopsRightly(cfg, s, step, a, r, ApplyChild(s, step))
  {
  }

  /** The clock, the table and other agents do nothing to an agent. */
  lemma OthersKeep(cfg: Config, s: System, step: Step, a: AgentId)
    requires ActsOn(s, step) && a in s.agents && (step.Advance? || IsTableStep(step) || step.agent != a)
    ensures a in Apply(cfg, s, step).agents && Apply(cfg, s, step).agents[a] == s.agents[a]
  {
  }

  lemma OthersStopNothing(cfg: Config, s: System, step: Step, a: AgentId, r: RunId, s': System)
    requires a in s.agents && r in s.agents[a].state.writing && r in s.agents[a].state.owned
    requires (step.Advance? || IsTableStep(step) || step.agent != a) && a in s'.agents && s'.agents[a] == s.agents[a]
    ensures StopsRightly(cfg, s, step, a, r, s')
  {
  }

  lemma ApplyIs(cfg: Config, s: System, step: Step)
    requires Enabled(cfg, s, step) && !step.Advance? && !IsTableStep(step)
    ensures step.agent in s.agents
    ensures IsClaimStep(step) ==> ClaimEnabled(s, step) && Apply(cfg, s, step) == ApplyClaim(cfg, s, step)
    ensures IsBeatStep(step) ==> BeatEnabled(s, step) && Apply(cfg, s, step) == ApplyBeat(cfg, s, step)
    ensures IsChildStep(step) ==> ChildEnabled(s, step) && Apply(cfg, s, step) == ApplyChild(s, step)
  {
  }

  lemma ClaimIsOfAnother(cfg: Config, s: System, a: AgentId, r: RunId)
    requires Inv(cfg, s) && a in s.agents && r in s.agents[a].state.writing
    ensures var g := s.agents[a]; r in g.state.owned && r in g.state.live && (!g.claim.Idle? && !g.claim.Asking? ==> g.claim.run != r)
  {
    assert AgentOk(cfg, s, a, s.agents[a]);
    assert WritingOk(cfg, s, a, s.agents[a], r);
  }

  /** A child is stopped for one of these reasons only, and for each; otherwise its lease counts from the last beat that held it. */
  predicate StopsRightly(cfg: Config, s: System, step: Step, a: AgentId, r: RunId, s': System)
    requires a in s.agents
  {
    && a in s'.agents && r in s.agents[a].state.owned
    && var since, after := s.agents[a].state.owned[r], s'.agents[a].state;
      && (r !in after.writing <==> Stops(cfg, s, step, a, r, since))
      && (r in after.writing ==>
            r in after.owned && after.owned[r] == if SaysHeld(s, step, a, r) then s.agents[a].beats[step.beat].sentAt else since)
  }

  lemma StepStops(cfg: Config, s: System, step: Step, a: AgentId, r: RunId)
    requires Enabled(cfg, s, step) && a in s.agents && r in s.agents[a].state.writing
    requires var g := s.agents[a]; r in g.state.owned && r in g.state.live && (!g.claim.Idle? && !g.claim.Asking? ==> g.claim.run != r)
    ensures StopsRightly(cfg, s, step, a, r, Apply(cfg, s, step))
  {
    if step.Advance? || IsTableStep(step) || step.agent != a {
      OthersKeep(cfg, s, step, a);
      OthersStopNothing(cfg, s, step, a, r, Apply(cfg, s, step));
    } else {
      ApplyIs(cfg, s, step);
      if IsClaimStep(step) {
        ClaimStepStops(cfg, s, step, a, r);
      } else if IsBeatStep(step) {
        BeatStepStops(cfg, s, step, a, r);
      } else {
        ChildStepStops(cfg, s, step, a, r);
      }
    }
  }

  /**
   In every reachable state: a step stops a writing child if and only if the child ends by itself, an answered
   beat says that its run is gone, or its agent looks at the deadlines and finds the run's confirmation too
   old. Otherwise the run stays owned, confirmed from the sending of the last beat that held it.
   */
  lemma StoppedExactly(cfg: Config, s: System, step: Step, a: AgentId, r: RunId)
    requires Inv(cfg, s) && Enabled(cfg, s, step) && a in s.agents && r in s.agents[a].state.writing
    ensures StopsRightly(cfg, s, step, a, r, Apply(cfg, s, step))
  {
    ClaimIsOfAnother(cfg, s, a, r);
    StepStops(cfg, s, step, a, r);
  }

  // ---- a child over a run of steps ----

  ghost function After(cfg: Config, s: System, steps: seq<Step>): System
    decreases |steps|
  {
    if steps == [] then s
    else
      var before, step := After(cfg, s, steps[..|steps| - 1]), steps[|steps| - 1];
      if Enabled(cfg, before, step) then Apply(cfg, before, step) else before
  }

  /** When the last beat that held `r` was sent; `since` if none has been answered. */
  ghost function Confirmed(cfg: Config, s: System, steps: seq<Step>, a: AgentId, r: RunId, since: int): int
    decreases |steps|
  {
    if steps == [] then since
    else
      var before, step := steps[..|steps| - 1], steps[|steps| - 1];
      var now := After(cfg, s, before);
      if Enabled(cfg, now, step) && SaysHeld(now, step, a, r) then now.agents[a].beats[step.beat].sentAt
      else Confirmed(cfg, s, before, a, r, since)
  }

  /** The child goes on, no answer calls its run gone, and every look comes in time after the last that held it. */
  ghost predicate KeptUp(cfg: Config, s: System, steps: seq<Step>, a: AgentId, r: RunId, since: int)
    decreases |steps|
  {
    steps != [] ==>
      var before, step := steps[..|steps| - 1], steps[|steps| - 1];
      var now := After(cfg, s, before);
      && KeptUp(cfg, s, before, a, r, since)
      && (Enabled(cfg, now, step) ==>
            && !ChildStops(step, a, r) && !SaysGone(now, step, a, r)
            && (Looks(step, a) ==> now.now - Confirmed(cfg, s, before, a, r, since) < cfg.leaseMs - cfg.fenceMarginMs))
  }

  lemma {:induction false} RunStaysInv(cfg: Config, s: System, steps: seq<Step>)
    requires Timely(cfg) && Inv(cfg, s)
    ensures Inv(cfg, After(cfg, s, steps))
    decreases |steps|
  {
    if steps != [] {
      var before, step := steps[..|steps| - 1], steps[|steps| - 1];
      RunStaysInv(cfg, s, before);
      if Enabled(cfg, After(cfg, s, before), step) {
        StepKeepsInv(cfg, After(cfg, s, before), step);
      }
    }
  }

  lemma {:induction false} KeptUpWrites(cfg: Config, s: System, steps: seq<Step>, a: AgentId, r: RunId)
    requires Timely(cfg) && Inv(cfg, s) && a in s.agents && r in s.agents[a].state.writing && r in s.agents[a].state.owned
    requires KeptUp(cfg, s, steps, a, r, s.agents[a].state.owned[r])
    ensures var end := After(cfg, s, steps);
            && a in end.agents && r in end.agents[a].state.writing && r in end.agents[a].state.owned
            && end.agents[a].state.owned[r] == Confirmed(cfg, s, steps, a, r, s.agents[a].state.owned[r])
    decreases |steps|
  {
    if steps != [] {
      var before, step := steps[..|steps| - 1], steps[|steps| - 1];
      KeptUpWrites(cfg, s, before, a, r);
      RunStaysInv(cfg, s, before);
      if Enabled(cfg, After(cfg, s, before), step) {
        StoppedExactly(cfg, After(cfg, s, before), step, a, r);
      }
    }
  }

  /**
   Whatever else happens, a child whose run the answered beats keep calling held, each of them sent less than
   the deadline before the agent's next looks, is never stopped for its lease.
   */
  lemma {:induction false} HeldRunKeepsWriting(cfg: Config, s: System, steps: seq<Step>, a: AgentId, r: RunId)
    requires Timely(cfg) && Reachable(cfg, s) && a in s.agents && r in s.agents[a].state.writing
    ensures r in s.agents[a].state.owned
    ensures KeptUp(cfg, s, steps, a, r, s.agents[a].state.owned[r]) ==>
              a in After(cfg, s, steps).agents && r in After(cfg, s, steps).agents[a].state.writing
  {
    var trace :| IsRun(cfg, trace) && trace[|trace| - 1] == s;
    RunKeepsInv(cfg, trace, |trace| - 1);
    assert AgentOk(cfg, s, a, s.agents[a]);
    assert WritingOk(cfg, s, a, s.agents[a], r);
    if KeptUp(cfg, s, steps, a, r, s.agents[a].state.owned[r]) {
      KeptUpWrites(cfg, s, steps, a, r);
    }
  }

  // ---- a beat that comes through ----

  lemma {:induction false} AfterThen(cfg: Config, s: System, steps: seq<Step>, step: Step)
    ensures var before := After(cfg, s, steps);
            After(cfg, s, steps + [step]) == if Enabled(cfg, before, step) then Apply(cfg, before, step) else before
  {
    assert (steps + [step])[..|steps|] == steps;
  }

  lemma {:induction false} AfterThree(cfg: Config, s: System, x: Step, y: Step, z: Step)
    requires Enabled(cfg, s, x) && Enabled(cfg, Apply(cfg, s, x), y) && Enabled(cfg, Apply(cfg, Apply(cfg, s, x), y), z)
    ensures After(cfg, s, [x, y, z]) == Apply(cfg, Apply(cfg, Apply(cfg, s, x), y), z)
  {
    AfterThen(cfg, s, [], x);
    AfterThen(cfg, s, [x], y);
    AfterThen(cfg, s, [x, y], z);
    assert [] + [x] == [x] && [x] + [y] == [x, y] && [x, y] + [z] == [x, y, z];
  }

  lemma Sending(cfg: Config, s: System, a: AgentId, b: nat)
    requires a in s.agents && b !in s.agents[a].beats
    ensures Enabled(cfg, s, BeatSend(a, b))
    ensures Apply(cfg, s, BeatSend(a, b)) ==
              WithAgent(s, a, s.agents[a].(beats := s.agents[a].beats[b := Sent(s.now, s.agents[a].state.live)]))
  {
  }

  lemma Committing(cfg: Config, s: System, a: AgentId, b: nat)
    requires a in s.agents && b in s.agents[a].beats && s.agents[a].beats[b].Sent?
    ensures Enabled(cfg, s, BeatCommit(a, b))
    ensures var s', beat := Apply(cfg, s, BeatCommit(a, b)), s.agents[a].beats[b];
            && a in s'.agents && s'.agents[a].state == s.agents[a].state && b in s'.agents[a].beats
            && s'.agents[a].beats[b] == Answered(beat.sentAt, beat.liveBefore, Held(s.runs, a))
            && s'.runs == Renew(s.runs, a, s.now, cfg.leaseMs)
  {
  }

  lemma Replying(cfg: Config, s: System, a: AgentId, b: nat)
    requires a in s.agents && b in s.agents[a].beats && s.agents[a].beats[b].Answered?
    ensures Enabled(cfg, s, BeatReply(a, b))
    ensures var s', beat := Apply(cfg, s, BeatReply(a, b)), s.agents[a].beats[b];
            && a in s'.agents && b !in s'.agents[a].beats && s'.runs == s.runs
            && s'.agents[a].state == AfterBeat(s.agents[a].state, beat.sentAt, beat.liveBefore, beat.held)
  {
  }

  lemma {:induction false} RoundTrip(cfg: Config, s: System, a: AgentId, b: nat)
    requires a in s.agents && b !in s.agents[a].beats
    ensures var end, st := After(cfg, s, [BeatSend(a, b), BeatCommit(a, b), BeatReply(a, b)]), s.agents[a].state;
            && a in end.agents && b !in end.agents[a].beats
            && end.agents[a].state == AfterBeat(st, s.now, st.live, Held(s.runs, a)) && end.runs == Renew(s.runs, a, s.now, cfg.leaseMs)
  {
    Sending(cfg, s, a, b);
    var sent := Apply(cfg, s, BeatSend(a, b));
    Committing(cfg, sent, a, b);
    Replying(cfg, Apply(cfg, sent, BeatCommit(a, b)), a, b);
    AfterThree(cfg, s, BeatSend(a, b), BeatCommit(a, b), BeatReply(a, b));
  }

  /** What such a beat leaves of one run being written. */
  lemma BeatOfWriter(st: AgentState, runs: Runs, a: AgentId, r: RunId, at: int, leaseMs: int)
    requires r in st.writing && r in st.live && r in st.owned && r in runs && Busy(runs[r].status) && runs[r].runner == Some(a)
    ensures var after, renewed := AfterBeat(st, at, st.live, Held(runs, a)), Renew(runs, a, at, leaseMs);
            && r in after.writing && r in after.owned && after.owned[r] == at
            && r in renewed && renewed[r].lease == Some(at + leaseMs)
  {
    assert r in Held(runs, a);
    BeatIsRight(st, at, st.live, Held(runs, a));
    assert JudgedRightly(st, AfterBeat(st, at, st.live, Held(runs, a)), r, at, st.live, Held(runs, a));
  }

  /**
   A beat that is sent, committed and answered renews the lease of every run being written, in the database and
   in the agent, from the moment it was sent.
   */
  lemma {:induction false} BeatRenews(cfg: Config, s: System, a: AgentId, b: nat, r: RunId)
    requires Timely(cfg) && Reachable(cfg, s) && a in s.agents && b !in s.agents[a].beats && r in s.agents[a].state.writing
    ensures var end := After(cfg, s, [BeatSend(a, b), BeatCommit(a, b), BeatReply(a, b)]);
            && a in end.agents && r in end.agents[a].state.writing && b !in end.agents[a].beats
            && r in end.agents[a].state.owned && end.agents[a].state.owned[r] == s.now
            && r in end.runs && end.runs[r].lease == Some(s.now + cfg.leaseMs)
  {
    WriterIsHeld(cfg, s, a, r);
    RoundTrip(cfg, s, a, b);
    BeatOfWriter(s.agents[a].state, s.runs, a, r, s.now, cfg.leaseMs);
  }

  lemma WriterIsHeld(cfg: Config, s: System, a: AgentId, r: RunId)
    requires Timely(cfg) && Reachable(cfg, s) && a in s.agents && r in s.agents[a].state.writing
    ensures r in s.agents[a].state.live && r in s.agents[a].state.owned
    ensures r in s.runs && Busy(s.runs[r].status) && s.runs[r].runner == Some(a)
  {
    var trace :| IsRun(cfg, trace) && trace[|trace| - 1] == s;
    RunKeepsInv(cfg, trace, |trace| - 1);
    assert AgentOk(cfg, s, a, s.agents[a]);
    assert WritingOk(cfg, s, a, s.agents[a], r);
  }

  /** A claim the index refuses is tried anew, under the time it was first sent, until its attempts are spent. */
  lemma RefusedClaim(cfg: Config, s: System, a: AgentId)
    requires a in s.agents && s.agents[a].claim.Picked? && s.agents[a].claim.run in s.runs && !IndexAllows(s.runs, s.agents[a].claim.run)
    ensures Enabled(cfg, s, ClaimCommit(a))
    ensures var was, s' := s.agents[a].claim, Apply(cfg, s, ClaimCommit(a));
            && s'.runs == s.runs && a in s'.agents
            && s'.agents[a].claim == if was.attempt >= MAX_CLAIM_ATTEMPTS - 1 then Idle else Asking(was.sentAt, was.attempt + 1)
  {
  }
}
