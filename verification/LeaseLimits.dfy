/**
 How far the single-writer guarantee reaches: the exact watchdog period it needs, and the race that
 the unique index is there to lose.
 */
module LeaseLimits {
  import opened Wrappers
  import opened RunQueue
  import opened RunnerAgentModel
  import opened LeaseProtocol

  const A: AgentId := "a"
  const B: AgentId := "b"
  const K: TargetKey := "k"

  lemma Extend(cfg: Config, s: System, step: Step)
    requires Reachable(cfg, s) && Enabled(cfg, s, step)
    ensures Reachable(cfg, Apply(cfg, s, step))
  {
    var trace :| IsRun(cfg, trace) && trace[|trace| - 1] == s;
    var s' := Apply(cfg, s, step);
    assert Next(cfg, s, s');
    var longer := trace + [s'];
    forall i | 0 < i < |longer|
      ensures Next(cfg, longer[i - 1], longer[i])
    {
      if i < |trace| {
        assert Next(cfg, trace[i - 1], trace[i]);
      }
    }
    assert IsRun(cfg, longer);
  }

  function QueuedRow(): RunRow {
    RunRow(Queued, "c", Some(K), 0, None, None)
  }

  function HeldRow(a: AgentId, lease: int): RunRow {
    RunRow(Running, "c", Some(K), 0, Some(a), Some(lease))
  }

  function Resting(claim: Claim, at: int): Agent {
    Agent("c", 1, AgentState(map[], {}, {}, {}, {}), claim, map[], at, false)
  }

  function Busily(run: RunId, since: int, at: int): Agent {
    Agent("c", 1, AgentState(map[run := since], {}, {run}, {run}, {}), Idle, map[], at, false)
  }

  /** Two runs for one destination, two agents. */
  function Pair(now: int, row1: RunRow, row2: RunRow, a: Agent, b: Agent, launched: set<RunId>): System {
    System(now, map[1 := row1, 2 := row2], map[A := a, B := b], launched, {})
  }

  function Start(): System {
    Pair(0, QueuedRow(), QueuedRow(), Resting(Idle, 0), Resting(Idle, 0), {})
  }

  lemma StartReachable(cfg: Config)
    requires 0 <= cfg.leaseMs
    ensures Reachable(cfg, Start())
  {
    assert IsRun(cfg, [Start()]);
  }

  lemma PairUpdates(now: int, row1: RunRow, row2: RunRow, a: Agent, b: Agent, launched: set<RunId>, g: Agent, row: RunRow)
    ensures WithAgent(Pair(now, row1, row2, a, b, launched), A, g) == Pair(now, row1, row2, g, b, launched)
    ensures WithAgent(Pair(now, row1, row2, a, b, launched), B, g) == Pair(now, row1, row2, a, g, launched)
    ensures Pair(now, row1, row2, a, b, launched).runs[1 := row] == Pair(now, row, row2, a, b, launched).runs
    ensures Pair(now, row1, row2, a, b, launched).runs[2 := row] == Pair(now, row1, row, a, b, launched).runs
  {
    assert map[A := a, B := b][A := g] == map[A := g, B := b];
    assert map[A := a, B := b][B := g] == map[A := a, B := g];
    assert map[1 := row1, 2 := row2][1 := row] == map[1 := row, 2 := row2];
    assert map[1 := row1, 2 := row2][2 := row] == map[1 := row1, 2 := row];
  }

  lemma SendFrom(cfg: Config, s: System, a: AgentId, at: int)
    requires Reachable(cfg, s) && a in s.agents && s.agents[a] == Resting(Idle, at)
    ensures Reachable(cfg, WithAgent(s, a, Resting(Asking(s.now, 0), at)))
  {
    Extend(cfg, s, ClaimSend(a));
  }

  lemma RelockedAs(s: System, a: AgentId, g: Agent)
    requires a in s.agents && s.agents[a].claim.Idle?
    ensures Locked(WithAgent(s, a, g)) == if g.claim.Picked? then Locked(s) + {g.claim.run} else Locked(s)
  {
    var s' := WithAgent(s, a, g);
    assert s'.agents[a] == g;
    assert forall b <- s.agents :: b != a ==> s'.agents[b] == s.agents[b];
  }

  /** An agent picks a row from what it sees, nobody else holding a row lock it would take. */
  lemma PickFrom(cfg: Config, s: System, a: AgentId, r: RunId, at: int)
    requires Reachable(cfg, s) && a in s.agents && s.agents[a] == Resting(Idle, at)
    requires Picks(s.runs, "c", Locked(s), r)
    ensures Reachable(cfg, WithAgent(s, a, Resting(Picked(s.now, 0, r, s.now), at)))
    ensures Locked(WithAgent(s, a, Resting(Picked(s.now, 0, r, s.now), at))) == Locked(s) + {r}
  {
    SendFrom(cfg, s, a, at);
    var asking, picked := Resting(Asking(s.now, 0), at), Resting(Picked(s.now, 0, r, s.now), at);
    RelockedAs(s, a, asking);
    RelockedAs(s, a, picked);
    Extend(cfg, WithAgent(s, a, asking), ClaimPick(a, r));
    TwiceWith(s, a, asking, picked);
  }

  lemma CommitFrom(cfg: Config, s: System, a: AgentId, r: RunId, at: int)
    requires Reachable(cfg, s) && a in s.agents && s.agents[a] == Resting(Picked(s.now, 0, r, s.now), at)
    requires r in s.runs && IndexAllows(s.runs, r)
    ensures Reachable(cfg, WithAgent(s, a, Resting(Granted(s.now, r), at)).(runs := Grant(s.runs, r, a, s.now, cfg.leaseMs)))
  {
    Extend(cfg, s, ClaimCommit(a));
  }

  /** From a granted claim to a writing child, in one instant. */
  lemma LaunchFrom(cfg: Config, s: System, a: AgentId, r: RunId, at: int)
    requires 0 <= cfg.fenceMarginMs < cfg.leaseMs && Reachable(cfg, s)
    requires a in s.agents && s.agents[a] == Resting(Granted(s.now, r), at)
    ensures Reachable(cfg, WithAgent(s, a, Busily(r, s.now, s.now)).(launched := s.launched + {r}))
  {
    var owner := AgentState(map[r := s.now], {r}, {}, {}, {});
    var started := s.agents[a].(claim := Starting(r), state := owner);
    var s1 := WithAgent(s, a, started);
    assert Reachable(cfg, s1) by {
      Extend(cfg, s, ClaimReply(a));
    }
    assert Due(owner, s.now, cfg.Deadline()) == {};
    assert AfterCheck(owner, s.now, cfg.Deadline()) == owner;
    assert AfterLaunch(owner, r, s.now, cfg.Deadline()) == AgentState(map[r := s.now], {}, {r}, {r}, {});
    Extend(cfg, s1, Launch(a));
    TwiceWith(s, a, started, Busily(r, s.now, s.now));
  }

  /** Claimed and launched in one instant. */
  lemma StartFrom(cfg: Config, s: System, a: AgentId, r: RunId, at: int)
    requires 0 <= cfg.fenceMarginMs < cfg.leaseMs && Reachable(cfg, s)
    requires a in s.agents && s.agents[a] == Resting(Idle, at)
    requires Picks(s.runs, "c", Locked(s), r)
    ensures Reachable(cfg, WithAgent(s, a, Busily(r, s.now, s.now))
                           .(runs := Grant(s.runs, r, a, s.now, cfg.leaseMs), launched := s.launched + {r}))
  {
    PickFrom(cfg, s, a, r, at);
    var picked := Resting(Picked(s.now, 0, r, s.now), at);
    var granted := Resting(Granted(s.now, r), at);
    var s1 := WithAgent(s, a, picked);
    CommitFrom(cfg, s1, a, r, at);
    TwiceWith(s, a, picked, granted);
    var s2 := WithAgent(s, a, granted).(runs := Grant(s.runs, r, a, s.now, cfg.leaseMs));
    LaunchFrom(cfg, s2, a, r, at);
    TwiceWith(s, a, granted, Busily(r, s.now, s.now));
  }

  // ---- the race the unique index is for ----

  /** Both agents past their pick, the first now committed. */
  function Raced(cfg: Config): System {
    Pair(0, HeldRow(A, cfg.leaseMs), QueuedRow(), Resting(Granted(0, 1), 0), Resting(Picked(0, 0, 2, 0), 0), {})
  }

  lemma BothPick(cfg: Config)
    requires 0 <= cfg.leaseMs
    ensures Reachable(cfg, Pair(0, QueuedRow(), QueuedRow(), Resting(Picked(0, 0, 1, 0), 0), Resting(Picked(0, 0, 2, 0), 0), {}))
  {
    var rest, pickA, pickB := Resting(Idle, 0), Resting(Picked(0, 0, 1, 0), 0), Resting(Picked(0, 0, 2, 0), 0);
    StartReachable(cfg);
    assert Locked(Start()) == {};
    assert Picks(Start().runs, "c", {}, 1);
    PickFrom(cfg, Start(), A, 1, 0);
    PairUpdates(0, QueuedRow(), QueuedRow(), rest, rest, {}, pickA, QueuedRow());
    var s1 := Pair(0, QueuedRow(), QueuedRow(), pickA, rest, {});
    assert Picks(s1.runs, "c", {1}, 2);
    PickFrom(cfg, s1, B, 2, 0);
    PairUpdates(0, QueuedRow(), QueuedRow(), pickA, rest, {}, pickB, QueuedRow());
  }

  lemma RacedReachable(cfg: Config)
    requires 0 <= cfg.leaseMs
    ensures Reachable(cfg, Raced(cfg))
  {
    var pickA, pickB := Resting(Picked(0, 0, 1, 0), 0), Resting(Picked(0, 0, 2, 0), 0);
    BothPick(cfg);
    CommitFrom(cfg, Pair(0, QueuedRow(), QueuedRow(), pickA, pickB, {}), A, 1, 0);
    PairUpdates(0, QueuedRow(), QueuedRow(), pickA, pickB, {}, Resting(Granted(0, 1), 0), HeldRow(A, cfg.leaseMs));
  }

  /**
   The race is real: both agents can hold a pick for one destination at once, each taken from a
   snapshot in which it was free. The index then refuses the second, and without that refusal
   the ledger would hold two busy runs for one destination.
   */
  lemma RaceReachesIndex(cfg: Config)
    requires 0 <= cfg.leaseMs
    ensures exists s, a, r :: Reachable(cfg, s) && a in s.agents && s.agents[a].claim.Picked? && s.agents[a].claim.run == r
                              && r in s.runs && s.runs[r].status == Queued && !IndexAllows(s.runs, r)
                              && !UniqueBusyTargets(Grant(s.runs, r, a, s.agents[a].claim.begunAt, cfg.leaseMs))
  {
    RacedReachable(cfg);
    RefusedPair(Raced(cfg), cfg.leaseMs);
    assert Raced(cfg).agents[B].claim.run == 2;
  }

  lemma RefusedPair(s: System, leaseMs: int)
    requires 1 in s.runs && 2 in s.runs && s.runs.Keys == {1, 2}
    requires Busy(s.runs[1].status) && !Busy(s.runs[2].status) && SameDestination(s.runs[1], s.runs[2])
    ensures !IndexAllows(s.runs, 2)
    ensures forall a, at :: !UniqueBusyTargets(Grant(s.runs, 2, a, at, leaseMs))
  {
    assert SameDestination(s.runs[2], s.runs[1]);
    forall a, at
      ensures !UniqueBusyTargets(Grant(s.runs, 2, a, at, leaseMs))
    {
      GrantNeedsIndex(s.runs, 2, a, at, leaseMs);
    }
  }

  // ---- the watchdog period ----

  /** Run 1 written by `a` since 0, both watchdogs having looked at `at`. */
  function WritingSince(cfg: Config, at: int): System {
    Pair(at, HeldRow(A, cfg.leaseMs), QueuedRow(), Busily(1, 0, at), Resting(Idle, at), {1})
  }

  lemma FirstLaunch(cfg: Config)
    requires 0 <= cfg.fenceMarginMs < cfg.leaseMs
    ensures Reachable(cfg, WritingSince(cfg, 0))
  {
    StartReachable(cfg);
    assert Locked(Start()) == {};
    assert Picks(Start().runs, "c", {}, 1);
    StartFrom(cfg, Start(), A, 1, 0);
    PairUpdates(0, QueuedRow(), QueuedRow(), Resting(Idle, 0), Resting(Idle, 0), {}, Busily(1, 0, 0), HeldRow(A, cfg.leaseMs));
  }

  lemma AdvanceFrom(cfg: Config, s: System, to: int)
    requires Reachable(cfg, s) && s.now <= to && forall a <- s.agents :: to <= s.agents[a].lastCheck + cfg.checkMs
    ensures Reachable(cfg, s.(now := to))
  {
    Extend(cfg, s, Advance(to));
  }

  lemma LookFrom(cfg: Config, s: System, a: AgentId, g: Agent)
    requires Reachable(cfg, s) && a in s.agents && Checked(s.agents[a], s.now, cfg) == g
    ensures Reachable(cfg, WithAgent(s, a, g))
  {
    Extend(cfg, s, Watchdog(a));
  }

  /** While the deadline has not come, a watchdog's look changes nothing but when it looked. */
  lemma {:induction false} KeepsWriting(cfg: Config, at: nat)
    requires 0 <= cfg.fenceMarginMs < cfg.leaseMs && 1 <= cfg.checkMs && at < cfg.Deadline()
    ensures Reachable(cfg, WritingSince(cfg, at))
  {
    if at == 0 {
      FirstLaunch(cfg);
      return;
    }
    KeepsWriting(cfg, at - 1);
    var rest, held, queued := Resting(Idle, at - 1), HeldRow(A, cfg.leaseMs), QueuedRow();
    AdvanceFrom(cfg, WritingSince(cfg, at - 1), at);
    var s1 := Pair(at, held, queued, Busily(1, 0, at - 1), rest, {1});
    assert Checked(Busily(1, 0, at - 1), at, cfg) == Busily(1, 0, at) by {
      assert Due(Busily(1, 0, at - 1).state, at, cfg.Deadline()) == {};
    }
    LookFrom(cfg, s1, A, Busily(1, 0, at));
    PairUpdates(at, held, queued, Busily(1, 0, at - 1), rest, {1}, Busily(1, 0, at), queued);
    LookIdle(cfg, Pair(at, held, queued, Busily(1, 0, at), rest, {1}), B, at - 1);
    PairUpdates(at, held, queued, Busily(1, 0, at), rest, {1}, Resting(Idle, at), queued);
  }

  lemma LookIdle(cfg: Config, s: System, b: AgentId, at: int)
    requires Reachable(cfg, s) && b in s.agents && s.agents[b] == Resting(Idle, at)
    ensures Reachable(cfg, WithAgent(s, b, Resting(Idle, s.now)))
  {
    assert Due(s.agents[b].state, s.now, cfg.Deadline()) == {};
    assert Checked(s.agents[b], s.now, cfg) == Resting(Idle, s.now);
    LookFrom(cfg, s, b, Resting(Idle, s.now));
  }

  /** Run 1 settled by the sweep while its child, unseen by a late watchdog, writes on. */
  function Swept(cfg: Config, last: int, late: int): System {
    Pair(late, HeldRow(A, cfg.leaseMs).(status := Failed), QueuedRow(), Busily(1, 0, last), Resting(Idle, last), {1})
  }

  lemma SweptWhileWriting(cfg: Config, last: int, late: int)
    requires 0 <= cfg.fenceMarginMs < cfg.leaseMs && cfg.fenceMarginMs + 2 <= cfg.checkMs
    requires last == cfg.Deadline() - 1 && late == cfg.leaseMs + 1
    ensures Reachable(cfg, Swept(cfg, last, late))
  {
    KeepsWriting(cfg, last);
    AdvanceFrom(cfg, WritingSince(cfg, last), late);
    var s1 := Pair(late, HeldRow(A, cfg.leaseMs), QueuedRow(), Busily(1, 0, last), Resting(Idle, last), {1});
    Extend(cfg, s1, SweepStep);
    assert Sweep(s1.runs, late) == Swept(cfg, last, late).runs;
  }

  lemma SweptFreesDestination(cfg: Config, last: int, late: int)
    ensures Locked(Swept(cfg, last, late)) == {}
    ensures Picks(Swept(cfg, last, late).runs, "c", {}, 2)
  {
  }

  /** The second agent's child, writing where the first still does. */
  function Doubled(cfg: Config, last: int, late: int): System {
    Pair(late, HeldRow(A, cfg.leaseMs).(status := Failed), HeldRow(B, late + cfg.leaseMs), Busily(1, 0, last), Busily(2, late, late), {1} + {2})
  }

  lemma SecondLaunch(cfg: Config, last: int, late: int)
    requires 0 <= cfg.fenceMarginMs < cfg.leaseMs && Reachable(cfg, Swept(cfg, last, late))
    ensures Reachable(cfg, Doubled(cfg, last, late))
  {
    SweptFreesDestination(cfg, last, late);
    StartFrom(cfg, Swept(cfg, last, late), B, 2, last);
    PairUpdates(late, HeldRow(A, cfg.leaseMs).(status := Failed), QueuedRow(), Busily(1, 0, last), Resting(Idle, last), {1},
                Busily(2, late, late), HeldRow(B, late + cfg.leaseMs));
  }

  /** A watchdog that looks just before the deadline and then too late: the sweep and a second agent come in between. */
  lemma LateWatchdog(cfg: Config)
    requires 0 <= cfg.fenceMarginMs < cfg.leaseMs && cfg.fenceMarginMs + 2 <= cfg.checkMs
    ensures exists s :: Reachable(cfg, s) && !SingleWriter(s)
  {
    var last, late := cfg.Deadline() - 1, cfg.leaseMs + 1;
    SweptWhileWriting(cfg, last, late);
    SecondLaunch(cfg, last, late);
    TwoWritersSeen(Doubled(cfg, last, late));
  }

  lemma TwoWritersSeen(s: System)
    requires A in s.agents && B in s.agents && 1 in s.runs && 2 in s.runs
    requires 1 in s.agents[A].state.writing && 2 in s.agents[B].state.writing && SameDestination(s.runs[1], s.runs[2])
    ensures !SingleWriter(s)
  {
  }

  /**
   Exactly how often the watchdog must look: for any lease longer than its margin, no reachable
   state has two writers if and only if the period is at most the margin, to the millisecond.
   */
  lemma SingleWriterExactly(cfg: Config)
    requires 0 <= cfg.fenceMarginMs < cfg.leaseMs && 0 <= cfg.checkMs
    ensures (forall s :: Reachable(cfg, s) ==> SingleWriter(s)) <==> cfg.checkMs <= cfg.fenceMarginMs + 1
  {
    if cfg.checkMs <= cfg.fenceMarginMs + 1 {
      forall s | Reachable(cfg, s)
        ensures SingleWriter(s)
      {
        AtMostOneWriter(cfg, s);
      }
    } else {
      LateWatchdog(cfg);
    }
  }
}
