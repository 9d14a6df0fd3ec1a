/**
 The lease, claim and fence protocol between one database and any number of agents, as a step
 system. Every message is its own step, so it may be delayed for as long as the clock allows or
 lost altogether; heartbeats of one agent may overlap and be answered out of order.
 */
module LeaseProtocol {
  import opened Wrappers
  import opened RunQueue
  import opened RunnerAgentModel

  datatype Config = Config(
    leaseMs: int,
    fenceMarginMs: int,
    /** The longest an agent goes without looking at its lease deadlines. */
    checkMs: int)
  {
    function Deadline(): int {
      leaseMs - fenceMarginMs
    }
  }

  /** Where an agent's one claim loop is. */
  datatype Claim =
    | Idle
    | Asking(sentAt: int, attempt: nat)
    | Picked(sentAt: int, attempt: nat, run: RunId, begunAt: int)
    | Granted(sentAt: int, run: RunId)
    | Starting(run: RunId)
    | Failing(run: RunId)

  datatype Beat =
    | Sent(sentAt: int, liveBefore: set<RunId>)
    | Answered(sentAt: int, liveBefore: set<RunId>, held: set<RunId>)

  datatype Agent = Agent(
    cls: string,
    slots: nat,
    state: AgentState,
    claim: Claim,
    beats: map<nat, Beat>,
    lastCheck: int,
    draining: bool)

  datatype System = System(
    now: int,
    runs: Runs,
    agents: map<AgentId, Agent>,
    /** Runs some child was ever forked for. */
    launched: set<RunId>,
    /** Runs whose child has emitted `run_finished`, and so writes no more. */
    reported: set<RunId>)

  datatype Step =
    | Advance(to: int)
    | Enqueue(run: RunId, row: RunRow)
    | ClaimSend(agent: AgentId)
    | ClaimPick(agent: AgentId, run: RunId)
    | ClaimCommit(agent: AgentId)
    | ClaimEnd(agent: AgentId)
    | ClaimReply(agent: AgentId)
    | Launch(agent: AgentId)
    | LaunchFail(agent: AgentId)
    | FailSettle(agent: AgentId)
    | BeatSend(agent: AgentId, beat: nat)
    | BeatCommit(agent: AgentId, beat: nat)
    | BeatReply(agent: AgentId, beat: nat)
    | BeatFail(agent: AgentId, beat: nat)
    | Watchdog(agent: AgentId)
    | Drain(agent: AgentId)
    | SweepStep
    | CancelQueuedStep(run: RunId)
    | CancelRunningStep(run: RunId)
    | ChildFinish(agent: AgentId, run: RunId)
    | ChildDie(agent: AgentId, run: RunId)
    | ChildExit(agent: AgentId, run: RunId)
    | StartedStored(run: RunId)
    | FinishedStored(run: RunId, status: Status)
    | SettleGone(run: RunId, status: Status)
    /** A claim, or a beat, whose client has given up on it, and which the server commits all the same. */
    | LateClaim(client: AgentId, run: RunId, begunAt: int)
    | LateBeat(client: AgentId)

  /** Rows locked by a claim between its pick and its commit. */
  function Locked(s: System): set<RunId> {
    set a <- s.agents | s.agents[a].claim.Picked? :: s.agents[a].claim.run
  }

  ghost predicate Written(s: System, r: RunId) {
    exists a :: a in s.agents && r in s.agents[a].state.writing
  }

  function WithAgent(s: System, a: AgentId, g: Agent): System {
    s.(agents := s.agents[a := g])
  }

  function Checked(g: Agent, now: int, cfg: Config): Agent {
    g.(state := AfterCheck(g.state, now, cfg.Deadline()), lastCheck := now)
  }

  predicate IsTableStep(step: Step) {
    step.Enqueue? || step.SweepStep? || step.CancelQueuedStep? || step.CancelRunningStep?
    || step.StartedStored? || step.FinishedStored? || step.SettleGone? || step.LateClaim? || step.LateBeat?
  }

  predicate IsClaimStep(step: Step) {
    step.ClaimSend? || step.ClaimPick? || step.ClaimCommit? || step.ClaimEnd? || step.ClaimReply?
    || step.Launch? || step.LaunchFail? || step.FailSettle?
  }

  predicate IsBeatStep(step: Step) {
    step.BeatSend? || step.BeatCommit? || step.BeatReply? || step.BeatFail? || step.Watchdog?
  }

  predicate IsChildStep(step: Step) {
    step.ChildFinish? || step.ChildDie? || step.ChildExit? || step.Drain?
  }

  predicate ActsOn(s: System, step: Step) {
    step.Advance? || IsTableStep(step) || step.agent in s.agents
  }

  ghost predicate TableEnabled(s: System, step: Step)
    requires IsTableStep(step)
  {
    match step
    case Enqueue(r, row) => r !in s.runs && row.status == Queued && row.runner.None? && row.lease.None?
    case SweepStep => true
    // The statement waits for a row a claim has locked.
    case CancelQueuedStep(r) => r !in Locked(s)
    // Asked for only where cancelling it as queued came too late.
    case CancelRunningStep(r) => r in s.runs ==> s.runs[r].status != Queued
    // A batch that would break the unique index is refused as a whole.
    case StartedStored(r) => r in s.launched && r in s.runs && (Busy(s.runs[r].status) || IndexAllows(s.runs, r))
    case FinishedStored(r, status) => r in s.reported && r in s.runs && Terminal(status)
    // A run forked once whose process is gone, settled by whoever notices.
    case SettleGone(r, status) => r in s.launched && !Written(s, r) && Terminal(status)
    case LateClaim(_, r, begunAt) =>
      r in s.runs && s.runs[r].status == Queued && r !in Locked(s) && IndexAllows(s.runs, r) && begunAt <= s.now
    case LateBeat(_) => true
  }

  ghost predicate ClaimEnabled(s: System, step: Step)
    requires IsClaimStep(step) && step.agent in s.agents
  {
    var g := s.agents[step.agent];
    match step
    case ClaimSend(_) => g.claim.Idle? && !g.draining && |g.state.live| < g.slots
    case ClaimPick(_, r) => g.claim.Asking? && Picks(s.runs, g.cls, Locked(s), r)
    case ClaimCommit(_) => g.claim.Picked? && g.claim.run in s.runs
    // The queue was empty, the query failed, or its answer was lost after the commit.
    case ClaimEnd(_) => g.claim.Asking? || g.claim.Picked? || g.claim.Granted? || g.claim.Failing?
    case ClaimReply(_) => g.claim.Granted?
    case Launch(_) => g.claim.Starting?
    case LaunchFail(_) => g.claim.Starting?
    case FailSettle(_) => g.claim.Failing?
  }

  ghost predicate BeatEnabled(s: System, step: Step)
    requires IsBeatStep(step) && step.agent in s.agents
  {
    var g := s.agents[step.agent];
    match step
    case BeatSend(_, b) => b !in g.beats
    case BeatCommit(_, b) => b in g.beats && g.beats[b].Sent?
    case BeatReply(_, b) => b in g.beats && g.beats[b].Answered?
    case BeatFail(_, b) => b in g.beats
    case Watchdog(_) => true
  }

  ghost predicate ChildEnabled(s: System, step: Step)
    requires IsChildStep(step) && step.agent in s.agents
  {
    var g := s.agents[step.agent];
    match step
    case ChildFinish(_, r) => r in g.state.writing
    case ChildDie(_, r) => r in g.state.writing
    case ChildExit(_, r) => r in g.state.live && r !in g.state.writing
    case Drain(_) => true
  }

  /** When a step may happen. */
  ghost predicate Enabled(cfg: Config, s: System, step: Step) {
    && ActsOn(s, step)
    // One clock; every agent stays up, so its watchdog is never later than its period.
    && (step.Advance? ==> s.now <= step.to && forall a <- s.agents :: step.to <= s.agents[a].lastCheck + cfg.checkMs)
    && (IsTableStep(step) ==> TableEnabled(s, step))
    && (IsClaimStep(step) ==> ClaimEnabled(s, step))
    && (IsBeatStep(step) ==> BeatEnabled(s, step))
    && (IsChildStep(step) ==> ChildEnabled(s, step))
  }

  function ApplyTable(cfg: Config, s: System, step: Step): Runs
    requires IsTableStep(step)
  {
    match step
    case Enqueue(r, row) => s.runs[r := row]
    case SweepStep => Sweep(s.runs, s.now)
    case CancelQueuedStep(r) => CancelQueued(s.runs, r)
    case CancelRunningStep(r) => RequestCancel(s.runs, r)
    case StartedStored(r) => MarkStarted(s.runs, r)
    case FinishedStored(r, status) => if r in s.runs then WithStatus(s.runs, r, status) else s.runs
    case SettleGone(r, status) => Settle(s.runs, r, status)
    case LateClaim(a, r, begunAt) => if r in s.runs then Grant(s.runs, r, a, begunAt, cfg.leaseMs) else s.runs
    case LateBeat(a) => Renew(s.runs, a, s.now, cfg.leaseMs)
  }

  function ApplyClaim(cfg: Config, s: System, step: Step): System
    requires IsClaimStep(step) && step.agent in s.agents
  {
    var a, g := step.agent, s.agents[step.agent];
    match step
    case ClaimSend(_) => WithAgent(s, a, g.(claim := Asking(s.now, 0)))
    case ClaimPick(_, r) =>
      if g.claim.Asking? then WithAgent(s, a, g.(claim := Picked(g.claim.sentAt, g.claim.attempt, r, s.now))) else s
    case ClaimCommit(_) =>
      if !g.claim.Picked? || g.claim.run !in s.runs then s
      else if IndexAllows(s.runs, g.claim.run) then
        WithAgent(s, a, g.(claim := Granted(g.claim.sentAt, g.claim.run)))
        .(runs := Grant(s.runs, g.claim.run, a, g.claim.begunAt, cfg.leaseMs))
      else if g.claim.attempt + 1 < MAX_CLAIM_ATTEMPTS then
        WithAgent(s, a, g.(claim := Asking(g.claim.sentAt, g.claim.attempt + 1)))
      else WithAgent(s, a, g.(claim := Idle))
    case ClaimEnd(_) =>
      var st := if g.claim.Failing? then g.state.(launching := g.state.launching - {g.claim.run}) else g.state;
      WithAgent(s, a, g.(claim := Idle, state := st))
    case ClaimReply(_) =>
      if g.claim.Granted?
      then WithAgent(s, a, g.(claim := Starting(g.claim.run), state := AfterClaimed(g.state, g.claim.run, g.claim.sentAt)))
      else s
    case Launch(_) =>
      if !g.claim.Starting? then s else
      var st := AfterLaunch(g.state, g.claim.run, s.now, cfg.Deadline());
      var forked := g.claim.run in Checked(g, s.now, cfg).state.owned;
      WithAgent(s, a, g.(claim := Idle, state := st, lastCheck := s.now))
      .(launched := if forked then s.launched + {g.claim.run} else s.launched)
    case LaunchFail(_) =>
      if g.claim.Starting? then WithAgent(s, a, g.(claim := Failing(g.claim.run), state := Released(g.state, g.claim.run))) else s
    case FailSettle(_) =>
      if g.claim.Failing? then s.(runs := Settle(s.runs, g.claim.run, Failed)) else s
  }

  function ApplyBeat(cfg: Config, s: System, step: Step): System
    requires IsBeatStep(step) && step.agent in s.agents
  {
    var a, g := step.agent, s.agents[step.agent];
    match step
    case BeatSend(_, b) => WithAgent(s, a, g.(beats := g.beats[b := Sent(s.now, g.state.live)]))
    case BeatCommit(_, b) =>
      if b !in g.beats then s else
      WithAgent(s, a, g.(beats := g.beats[b := Answered(g.beats[b].sentAt, g.beats[b].liveBefore, Held(s.runs, a))]))
      .(runs := Renew(s.runs, a, s.now, cfg.leaseMs))
    case BeatReply(_, b) =>
      if b !in g.beats || !g.beats[b].Answered? then s else
      WithAgent(s, a, g.(beats := g.beats - {b},
                         state := AfterBeat(g.state, g.beats[b].sentAt, g.beats[b].liveBefore, g.beats[b].held)))
    case BeatFail(_, b) => WithAgent(s, a, Checked(g, s.now, cfg).(beats := g.beats - {b}))
    case Watchdog(_) => WithAgent(s, a, Checked(g, s.now, cfg))
  }

  function ApplyChild(s: System, step: Step): System
    requires IsChildStep(step) && step.agent in s.agents
  {
    var a, g := step.agent, s.agents[step.agent];
    match step
    case ChildFinish(_, r) => WithAgent(s, a, g.(state := g.state.(writing := g.state.writing - {r}))).(reported := s.reported + {r})
    case ChildDie(_, r) => WithAgent(s, a, g.(state := g.state.(writing := g.state.writing - {r})))
    case ChildExit(_, r) => WithAgent(s, a, g.(state := g.state.(live := g.state.live - {r})))
    case Drain(_) => WithAgent(s, a, g.(draining := true))
  }

  /** What a step does. */
  function Apply(cfg: Config, s: System, step: Step): System
    requires ActsOn(s, step)
  {
    if step.Advance? then s.(now := step.to)
    else if IsTableStep(step) then s.(runs := ApplyTable(cfg, s, step))
    else if IsClaimStep(step) then ApplyClaim(cfg, s, step)
    else if IsBeatStep(step) then ApplyBeat(cfg, s, step)
    else if IsChildStep(step) then ApplyChild(s, step)
    else s
  }

  /** Agents just started, over any ledger in which nothing is running. */
  ghost predicate Init(cfg: Config, s: System) {
    && s.launched == s.reported == {}
    && (forall r <- s.runs :: !Busy(s.runs[r].status))
    && (forall r <- s.runs :: s.runs[r].status == Queued ==> s.runs[r].runner.None?)
    && (forall r <- s.runs :: s.runs[r].lease.Some? ==> s.runs[r].lease.value <= s.now + cfg.leaseMs)
    && forall a <- s.agents ::
         && s.agents[a].state == AgentState(map[], {}, {}, {}, {})
         && s.agents[a].claim.Idle? && s.agents[a].beats == map[] && s.agents[a].lastCheck == s.now
  }

  ghost predicate Next(cfg: Config, s: System, s': System) {
    exists step :: Enabled(cfg, s, step) && s' == Apply(cfg, s, step)
  }

  ghost predicate IsRun(cfg: Config, trace: seq<System>) {
    && trace != []
    && Init(cfg, trace[0])
    && forall i :: 0 < i < |trace| ==> Next(cfg, trace[i - 1], trace[i])
  }

  ghost predicate Reachable(cfg: Config, s: System) {
    exists trace :: IsRun(cfg, trace) && trace[|trace| - 1] == s
  }

  /** Two writers in one destination: the harm the lease exists to prevent. */
  ghost predicate SingleWriter(s: System) {
    forall a, r, b, q ::
      && a in s.agents && r in s.agents[a].state.writing && r in s.runs
      && b in s.agents && q in s.agents[b].state.writing && q in s.runs
      && (r == q || SameDestination(s.runs[r], s.runs[q]))
      ==> a == b && r == q
  }

  // ---- the invariant ----

  /** A run some claim of agent `a` holds, up to its launch: still busy, or already too late to launch. */
  predicate ClaimedRun(s: System, a: AgentId, r: RunId) {
    && r in s.runs && r !in s.launched
    && s.runs[r].status != Queued && s.runs[r].runner == Some(a) && s.runs[r].lease.Some?
    && (Busy(s.runs[r].status) || s.runs[r].lease.value < s.now)
  }

  ghost predicate ClaimOk(cfg: Config, s: System, a: AgentId, g: Agent) {
    match g.claim
    case Idle => true
    case Asking(sentAt, _) => sentAt <= s.now
    case Picked(sentAt, _, r, begunAt) =>
      && sentAt <= begunAt <= s.now && r in s.runs && s.runs[r].status == Queued
      && r !in s.launched
    case Granted(sentAt, r) => ClaimedRun(s, a, r) && sentAt + cfg.leaseMs <= s.runs[r].lease.value
    case Starting(r) => ClaimedRun(s, a, r)
    case Failing(r) => r in s.runs && r !in s.launched && s.runs[r].status != Queued && s.runs[r].runner == Some(a)
  }

  ghost predicate WritingOk(cfg: Config, s: System, a: AgentId, g: Agent, r: RunId) {
    && r in g.state.live && r in g.state.owned
    && r in s.runs && Busy(s.runs[r].status) && s.runs[r].runner == Some(a)
    && s.runs[r].lease.Some? && g.lastCheck + cfg.fenceMarginMs < s.runs[r].lease.value
    && r in s.launched && r !in s.reported
  }

  predicate LeaseCovers(cfg: Config, s: System, a: AgentId, r: RunId, since: int) {
    && r in s.runs && s.runs[r].status != Queued && s.runs[r].runner == Some(a)
    && s.runs[r].lease.Some? && since + cfg.leaseMs <= s.runs[r].lease.value
  }

  ghost predicate BeatOk(cfg: Config, s: System, a: AgentId, b: Beat) {
    && b.sentAt <= s.now
    && (b.Answered? ==> forall r <- b.held :: LeaseCovers(cfg, s, a, r, b.sentAt))
  }

  ghost predicate AgentOk(cfg: Config, s: System, a: AgentId, g: Agent) {
    && g.lastCheck <= s.now <= g.lastCheck + cfg.checkMs
    && ClaimOk(cfg, s, a, g)
    && (forall r <- g.state.writing :: WritingOk(cfg, s, a, g, r))
    && (forall r <- g.state.owned :: LeaseCovers(cfg, s, a, r, g.state.owned[r]))
    && (forall b <- g.beats :: BeatOk(cfg, s, a, g.beats[b]))
    && |g.state.live| <= g.slots
    && (!g.claim.Idle? ==> |g.state.live| < g.slots)
  }

  ghost predicate TableOk(cfg: Config, s: System) {
    && UniqueBusyTargets(s.runs)
    && s.reported <= s.launched
    && (forall r <- s.launched :: r in s.runs && s.runs[r].status != Queued)
    && (forall r <- s.runs :: s.runs[r].status == Queued ==> s.runs[r].runner.None?)
    && (forall r <- s.runs :: s.runs[r].lease.Some? ==> s.runs[r].lease.value <= s.now + cfg.leaseMs)
    && forall a, b :: a in s.agents && b in s.agents && a != b && s.agents[a].claim.Picked? && s.agents[b].claim.Picked?
         ==> s.agents[a].claim.run != s.agents[b].claim.run
  }

  ghost predicate Inv(cfg: Config, s: System) {
    TableOk(cfg, s) && forall a <- s.agents :: AgentOk(cfg, s, a, s.agents[a])
  }

  /** Enough for safety: the watchdog looks at least as often as the margin allows, to the millisecond. */
  predicate Timely(cfg: Config) {
    0 <= cfg.checkMs <= cfg.fenceMarginMs + 1
  }

  // ---- what a step may do to the agents it is not about ----

  /** The row of a run some agent has claimed: same runner, never queued again, lease never earlier. */
  predicate RowKept(s: System, s': System, r: RunId)
    requires r in s.runs
  {
    && r in s'.runs && s'.runs[r].status != Queued
    && s'.runs[r].runner == s.runs[r].runner
    && (s.runs[r].lease.Some? ==> s'.runs[r].lease.Some? && s.runs[r].lease.value <= s'.runs[r].lease.value)
  }

  /** ...and nobody but an expired lease ends it. */
  predicate RowLive(s: System, s': System, r: RunId)
    requires r in s.runs
  {
    && RowKept(s, s', r)
    && (Busy(s'.runs[r].status) ||
        (s'.runs[r].lease == s.runs[r].lease && s.runs[r].lease.Some?
         && (!Busy(s.runs[r].status) || s.runs[r].lease.value < s.now)))
  }

  /** The runs agent `g` relies on staying busy. */
  function Relied(g: Agent): set<RunId> {
    g.state.writing + if g.claim.Granted? || g.claim.Starting? then {g.claim.run} else {}
  }

  ghost predicate Undisturbed(s: System, s': System, a: AgentId, g: Agent) {
    && s'.now == s.now
    && s.launched <= s'.launched && s.reported <= s'.reported
    && (forall r <- s.runs :: s.runs[r].status != Queued && s.runs[r].runner == Some(a) ==> RowKept(s, s', r))
    && (forall r <- Relied(g) :: r in s.runs ==> RowLive(s, s', r))
    && (g.claim.Picked? && g.claim.run in s.runs ==> g.claim.run in s'.runs && s'.runs[g.claim.run].status == Queued)
    && (!g.claim.Idle? && !g.claim.Asking? ==> g.claim.run !in s'.launched - s.launched)
    && (forall r <- g.state.writing :: r !in s'.reported - s.reported)
  }

  lemma AgentFrame(cfg: Config, s: System, s': System, a: AgentId, g: Agent)
    requires Timely(cfg) && AgentOk(cfg, s, a, g) && Undisturbed(s, s', a, g)
    ensures AgentOk(cfg, s', a, g)
  {
  }

  /** No run an agent relies on has an expired lease, unless it is not launched yet. */
  lemma WritersHoldTheirLease(cfg: Config, s: System, a: AgentId, r: RunId)
    requires Timely(cfg) && Inv(cfg, s) && a in s.agents && r in s.agents[a].state.writing
    ensures r in s.runs && Busy(s.runs[r].status) && !Expired(s.runs[r], s.now)
  {
    assert WritingOk(cfg, s, a, s.agents[a], r);
  }

  ghost predicate ReliedOn(s: System, r: RunId) {
    exists a :: a in s.agents && r in Relied(s.agents[a])
  }

  /** How any statement may move a row: see `TableMoveKeeps` for why this is harmless. */
  ghost predicate RowMoves(cfg: Config, s: System, after: Runs, r: RunId)
    requires r in s.runs
  {
    var row := s.runs[r];
    && r in after && after[r].target == row.target
    && (row.status == Queued ==>
          if after[r].status == Queued then after[r] == row
          else r !in Locked(s) && r !in s.launched && (after[r].lease.Some? ==> after[r].lease.value <= s.now + cfg.leaseMs))
    && (row.status != Queued ==>
          && after[r].status != Queued && after[r].runner == row.runner
          && (after[r].lease == row.lease || (Busy(row.status) && Busy(after[r].status) && after[r].lease == Some(s.now + cfg.leaseMs)))
          && (Busy(row.status) && !Busy(after[r].status) ==> Expired(row, s.now) || !ReliedOn(s, r)))
  }

  ghost predicate TableMove(cfg: Config, s: System, after: Runs) {
    && UniqueBusyTargets(after)
    && (forall r <- s.runs :: RowMoves(cfg, s, after, r))
    && (forall r <- after :: r !in s.runs ==> after[r].status == Queued && after[r].runner.None? && after[r].lease.None?)
  }

  /** A table statement that moves rows only so, disturbs no agent. */
  lemma TableMoveKeeps(cfg: Config, s: System, after: Runs)
    requires Timely(cfg) && Inv(cfg, s) && TableMove(cfg, s, after)
    ensures Inv(cfg, s.(runs := after))
  {
    var s' := s.(runs := after);
    forall r | r in s.runs && s.runs[r].status != Queued
      ensures RowKept(s, s', r)
    {
      assert RowMoves(cfg, s, after, r);
    }
    forall a | a in s'.agents
      ensures AgentOk(cfg, s', a, s'.agents[a])
    {
      TableMoveAgent(cfg, s, after, a);
    }
    forall r | r in after
      ensures (after[r].status == Queued ==> after[r].runner.None?)
              && (after[r].lease.Some? ==> after[r].lease.value <= s.now + cfg.leaseMs)
    {
      if r in s.runs {
        assert RowMoves(cfg, s, after, r);
      }
    }
  }

  lemma TableMoveAgent(cfg: Config, s: System, after: Runs, a: AgentId)
    requires Timely(cfg) && Inv(cfg, s) && TableMove(cfg, s, after) && a in s.agents
    requires forall r <- s.runs :: s.runs[r].status != Queued ==> RowKept(s, s.(runs := after), r)
    ensures AgentOk(cfg, s.(runs := after), a, s.agents[a])
  {
    var s' := s.(runs := after);
    var g := s.agents[a];
    assert AgentOk(cfg, s, a, g);
    forall r | r in Relied(g) && r in s.runs
      ensures RowLive(s, s', r)
    {
      assert RowMoves(cfg, s, after, r) && ReliedOn(s, r);
      if r in g.state.writing {
        WritersHoldTheirLease(cfg, s, a, r);
        assert WritingOk(cfg, s, a, g, r);
      }
      if !Busy(s.runs[r].status) && Busy(after[r].status) {
        assert r !in s.launched;
      }
    }
    if g.claim.Picked? {
      assert g.claim.run in Locked(s);
      assert RowMoves(cfg, s, after, g.claim.run);
    }
    AgentFrame(cfg, s, s', a, g);
  }

  /** Settling a run no agent relies on, whatever its row says now. */
  lemma SettledMove(cfg: Config, s: System, r: RunId, status: Status)
    requires Inv(cfg, s) && r in s.runs && s.runs[r].status != Queued && Terminal(status) && !ReliedOn(s, r)
    ensures TableMove(cfg, s, WithStatus(s.runs, r, status))
  {
  }

  lemma LaunchedUnwritten(cfg: Config, s: System, r: RunId)
    requires Inv(cfg, s) && r in s.launched && (r in s.reported || !Written(s, r))
    ensures !ReliedOn(s, r)
  {
  }

  lemma StartedMove(cfg: Config, s: System, r: RunId)
    requires Inv(cfg, s) && r in s.launched && r in s.runs && (Busy(s.runs[r].status) || IndexAllows(s.runs, r))
    ensures TableMove(cfg, s, MarkStarted(s.runs, r))
  {
    var after := MarkStarted(s.runs, r);
    forall x, y | x in after && y in after && x != y && Busy(after[x].status) && Busy(after[y].status)
      ensures !SameDestination(after[x], after[y])
    {
      if x != r && !Busy(s.runs[r].status) && y == r {
        assert !SameDestination(s.runs[r], s.runs[x]);
      }
    }
  }

  lemma SweepMove(cfg: Config, s: System)
    requires Inv(cfg, s)
    ensures TableMove(cfg, s, Sweep(s.runs, s.now))
  {
  }

  lemma RenewMove(cfg: Config, s: System, a: AgentId)
    requires Inv(cfg, s)
    ensures TableMove(cfg, s, Renew(s.runs, a, s.now, cfg.leaseMs))
  {
    var after := Renew(s.runs, a, s.now, cfg.leaseMs);
    forall r | r in s.runs
      ensures RowMoves(cfg, s, after, r) && after[r].status == s.runs[r].status && after[r].target == s.runs[r].target
    {
    }
  }

  /** `cancel`, queued or running, and a new queued run. */
  lemma UserMove(cfg: Config, s: System, step: Step)
    requires Inv(cfg, s) && (step.Enqueue? || step.CancelQueuedStep? || step.CancelRunningStep?) && TableEnabled(s, step)
    ensures TableMove(cfg, s, ApplyTable(cfg, s, step))
  {
    var after := ApplyTable(cfg, s, step);
    forall r | r in s.runs
      ensures RowMoves(cfg, s, after, r) && (Busy(after[r].status) ==> Busy(s.runs[r].status)) && after[r].target == s.runs[r].target
    {
    }
    assert forall r <- after :: r !in s.runs ==> after[r].status == Queued;
  }

  lemma GrantMove(cfg: Config, s: System, a: AgentId, r: RunId, begunAt: int)
    requires Timely(cfg) && Inv(cfg, s) && r in s.runs && s.runs[r].status == Queued && IndexAllows(s.runs, r)
    requires r !in Locked(s) && r !in s.launched && begunAt <= s.now
    ensures TableMove(cfg, s, Grant(s.runs, r, a, begunAt, cfg.leaseMs))
  {
    GrantKeepsUnique(s.runs, r, a, begunAt, cfg.leaseMs);
    forall q | q in s.runs
      ensures RowMoves(cfg, s, Grant(s.runs, r, a, begunAt, cfg.leaseMs), q)
    {
    }
  }

  lemma TableStepOk(cfg: Config, s: System, step: Step)
    requires Timely(cfg) && Inv(cfg, s) && IsTableStep(step) && TableEnabled(s, step)
    ensures Inv(cfg, s.(runs := ApplyTable(cfg, s, step)))
  {
    match step {
      case SweepStep => SweepMove(cfg, s);
      case StartedStored(r) => StartedMove(cfg, s, r);
      case FinishedStored(r, status) =>
        LaunchedUnwritten(cfg, s, r);
        SettledMove(cfg, s, r, status);
      case SettleGone(r, status) =>
        LaunchedUnwritten(cfg, s, r);
        if Settle(s.runs, r, status) != s.runs {
          SettledMove(cfg, s, r, status);
        } else {
          return;
        }
      case LateClaim(a, r, begunAt) => GrantMove(cfg, s, a, r, begunAt);
      case LateBeat(a) => RenewMove(cfg, s, a);
      case _ => UserMove(cfg, s, step);
    }
    TableMoveKeeps(cfg, s, ApplyTable(cfg, s, step));
  }

  lemma AdvanceStep(cfg: Config, s: System, to: int)
    requires Timely(cfg) && Inv(cfg, s) && s.now <= to && forall a <- s.agents :: to <= s.agents[a].lastCheck + cfg.checkMs
    ensures Inv(cfg, s.(now := to))
  {
    var s' := s.(now := to);
    forall a | a in s'.agents
      ensures AgentOk(cfg, s', a, s'.agents[a])
    {
      var g := s.agents[a];
      assert AgentOk(cfg, s, a, g);
      forall r | r in g.state.writing
        ensures WritingOk(cfg, s', a, g, r)
      {
        assert WritingOk(cfg, s, a, g, r);
      }
      forall b | b in g.beats
        ensures BeatOk(cfg, s', a, g.beats[b])
      {
        assert BeatOk(cfg, s, a, g.beats[b]);
      }
    }
  }

  /** What an agent relies on is in the table, not in the other agents. */
  lemma SameTableOk(cfg: Config, s: System, s': System, a: AgentId, g: Agent)
    requires AgentOk(cfg, s, a, g)
    requires s' == s.(agents := s'.agents)
    ensures AgentOk(cfg, s', a, g)
  {
  }

  /** A step of one agent that writes nothing to the table. */
  lemma AgentOnly(cfg: Config, s: System, a: AgentId, g: Agent)
    requires Timely(cfg) && Inv(cfg, s) && a in s.agents && AgentOk(cfg, s, a, g)
    requires g.claim.Picked? ==> s.agents[a].claim == g.claim || g.claim.run !in Locked(s)
    ensures Inv(cfg, WithAgent(s, a, g))
  {
    var s' := WithAgent(s, a, g);
    forall b | b in s'.agents
      ensures AgentOk(cfg, s', b, s'.agents[b])
    {
      SameTableOk(cfg, s, s', b, s'.agents[b]);
    }
    forall b | b in s.agents && b != a && s.agents[b].claim.Picked? && g.claim.Picked?
      ensures s.agents[b].claim.run != g.claim.run
    {
      assert s.agents[b].claim.run in Locked(s);
    }
  }

  /** Judging the leases: whatever is left writing has more than the margin still to run. */
  lemma CheckedOk(cfg: Config, s: System, a: AgentId, g: Agent)
    requires Timely(cfg) && AgentOk(cfg, s, a, g)
    ensures AgentOk(cfg, s, a, Checked(g, s.now, cfg))
    ensures forall r <- Checked(g, s.now, cfg).state.owned :: s.now + cfg.fenceMarginMs < s.runs[r].lease.value
  {
  }

  lemma FewerBeatsOk(cfg: Config, s: System, a: AgentId, g: Agent, b: nat)
    requires AgentOk(cfg, s, a, g)
    ensures AgentOk(cfg, s, a, g.(beats := g.beats - {b}))
  {
  }

  lemma MoreBeatsOk(cfg: Config, s: System, a: AgentId, g: Agent, b: nat, beat: Beat)
    requires AgentOk(cfg, s, a, g) && BeatOk(cfg, s, a, beat)
    ensures AgentOk(cfg, s, a, g.(beats := g.beats[b := beat]))
  {
  }

  /** A child that stops writing, and then its handle going. */
  lemma ChildGoneOk(cfg: Config, s: System, a: AgentId, g: Agent, r: RunId)
    requires AgentOk(cfg, s, a, g)
    ensures AgentOk(cfg, s, a, g.(state := g.state.(writing := g.state.writing - {r})))
    ensures r !in g.state.writing ==> AgentOk(cfg, s, a, g.(state := g.state.(live := g.state.live - {r})))
  {
    var stopped := g.(state := g.state.(writing := g.state.writing - {r}));
    var exited := g.(state := g.state.(live := g.state.live - {r}));
    forall q | q in g.state.writing
      ensures q != r ==> WritingOk(cfg, s, a, stopped, q)
      ensures r !in g.state.writing ==> WritingOk(cfg, s, a, exited, q)
    {
      assert WritingOk(cfg, s, a, g, q);
    }
    assert |exited.state.live| <= |g.state.live| by {
      if r in g.state.live {
        assert g.state.live == exited.state.live + {r};
      } else {
        assert g.state.live == exited.state.live;
      }
    }
  }

  /** A heartbeat's answer, however old: what it confirms is still covered, what it does not is stopped. */
  lemma BeatReplyOk(cfg: Config, s: System, a: AgentId, g: Agent, b: nat)
    requires AgentOk(cfg, s, a, g) && b in g.beats && g.beats[b].Answered?
    ensures var beat := g.beats[b];
            AgentOk(cfg, s, a, g.(state := AfterBeat(g.state, beat.sentAt, beat.liveBefore, beat.held)))
  {
  }

  lemma BeatCommitOk(cfg: Config, s: System, a: AgentId, b: nat)
    requires Timely(cfg) && Inv(cfg, s) && a in s.agents && b in s.agents[a].beats
    ensures var g := s.agents[a];
            var beat := Answered(g.beats[b].sentAt, g.beats[b].liveBefore, Held(s.runs, a));
            Inv(cfg, WithAgent(s.(runs := Renew(s.runs, a, s.now, cfg.leaseMs)), a, g.(beats := g.beats[b := beat])))
  {
    var mid := s.(runs := Renew(s.runs, a, s.now, cfg.leaseMs));
    RenewMove(cfg, s, a);
    TableMoveKeeps(cfg, s, mid.runs);
    var g := s.agents[a];
    var beat := Answered(g.beats[b].sentAt, g.beats[b].liveBefore, Held(s.runs, a));
    assert AgentOk(cfg, s, a, g) && BeatOk(cfg, s, a, g.beats[b]);
    forall r | r in Held(s.runs, a)
      ensures LeaseCovers(cfg, mid, a, r, beat.sentAt)
    {
    }
    MoreBeatsOk(cfg, mid, a, g, b, beat);
    AgentOnly(cfg, mid, a, g.(beats := g.beats[b := beat]));
  }

  /** The claim loop moving on without touching what the agent owns. */
  lemma ReclaimOk(cfg: Config, s: System, a: AgentId, g: Agent, claim: Claim)
    requires AgentOk(cfg, s, a, g) && ClaimOk(cfg, s, a, g.(claim := claim))
    requires !claim.Idle? ==> |g.state.live| < g.slots
    ensures AgentOk(cfg, s, a, g.(claim := claim))
  {
  }

  lemma Reclaim(cfg: Config, s: System, a: AgentId, claim: Claim)
    requires Timely(cfg) && Inv(cfg, s) && a in s.agents && ClaimOk(cfg, s, a, s.agents[a].(claim := claim))
    requires !claim.Idle? ==> |s.agents[a].state.live| < s.agents[a].slots
    requires claim.Picked? ==> claim.run !in Locked(s)
    ensures Inv(cfg, WithAgent(s, a, s.agents[a].(claim := claim)))
  {
    assert AgentOk(cfg, s, a, s.agents[a]);
    ReclaimOk(cfg, s, a, s.agents[a], claim);
    AgentOnly(cfg, s, a, s.agents[a].(claim := claim));
  }

  /** The commit of a claim: let go of the row lock, write the row, and hold the lease. */
  lemma GrantOk(cfg: Config, s: System, a: AgentId)
    requires Timely(cfg) && Inv(cfg, s) && a in s.agents && s.agents[a].claim.Picked?
    requires s.agents[a].claim.run in s.runs && IndexAllows(s.runs, s.agents[a].claim.run)
    ensures var g := s.agents[a];
            Inv(cfg, WithAgent(s, a, g.(claim := Granted(g.claim.sentAt, g.claim.run)))
                     .(runs := Grant(s.runs, g.claim.run, a, g.claim.begunAt, cfg.leaseMs)))
  {
    var g, r := s.agents[a], s.agents[a].claim.run;
    var done := g.(claim := Granted(g.claim.sentAt, r));
    var idle := WithAgent(s, a, g.(claim := Idle));
    UnlockedOk(cfg, s, a);
    TwiceWith(s, a, g.(claim := Idle), done);
    GrantMove(cfg, idle, a, r, g.claim.begunAt);
    var granted := idle.(runs := Grant(s.runs, r, a, g.claim.begunAt, cfg.leaseMs));
    TableMoveKeeps(cfg, idle, granted.runs);
    Reclaim(cfg, granted, a, Granted(g.claim.sentAt, r));
  }

  lemma UnlockedOk(cfg: Config, s: System, a: AgentId)
    requires Timely(cfg) && Inv(cfg, s) && a in s.agents && s.agents[a].claim.Picked?
    ensures var g := s.agents[a];
            var idle := WithAgent(s, a, g.(claim := Idle));
            && Inv(cfg, idle)
            && g.claim.run in s.runs && s.runs[g.claim.run].status == Queued
            && g.claim.run !in Locked(idle) && g.claim.run !in s.launched
            && g.claim.sentAt <= g.claim.begunAt <= s.now && |g.state.live| < g.slots
  {
    var g := s.agents[a];
    assert AgentOk(cfg, s, a, g);
    assert ClaimOk(cfg, s, a, g);
    Reclaim(cfg, s, a, Idle);
  }

  lemma ClaimReplyOk(cfg: Config, s: System, a: AgentId)
    requires Timely(cfg) && Inv(cfg, s) && a in s.agents && s.agents[a].claim.Granted?
    ensures var g := s.agents[a];
            Inv(cfg, WithAgent(s, a, g.(claim := Starting(g.claim.run), state := AfterClaimed(g.state, g.claim.run, g.claim.sentAt))))
  {
    var g := s.agents[a];
    var g' := g.(claim := Starting(g.claim.run), state := AfterClaimed(g.state, g.claim.run, g.claim.sentAt));
    assert AgentOk(cfg, s, a, g);
    forall r | r in g'.state.writing
      ensures WritingOk(cfg, s, a, g', r)
    {
      assert WritingOk(cfg, s, a, g, r);
    }
    forall b | b in g'.beats
      ensures BeatOk(cfg, s, a, g'.beats[b])
    {
      assert BeatOk(cfg, s, a, g.beats[b]);
    }
    AgentOnly(cfg, s, a, g');
  }

  lemma LaunchFailOk(cfg: Config, s: System, a: AgentId)
    requires Timely(cfg) && Inv(cfg, s) && a in s.agents && s.agents[a].claim.Starting?
    ensures var g := s.agents[a];
            Inv(cfg, WithAgent(s, a, g.(claim := Failing(g.claim.run), state := Released(g.state, g.claim.run))))
  {
    var g := s.agents[a];
    var g' := g.(claim := Failing(g.claim.run), state := Released(g.state, g.claim.run));
    assert AgentOk(cfg, s, a, g);
    forall r | r in g'.state.writing
      ensures WritingOk(cfg, s, a, g', r)
    {
      assert WritingOk(cfg, s, a, g, r);
    }
    forall b | b in g'.beats
      ensures BeatOk(cfg, s, a, g'.beats[b])
    {
      assert BeatOk(cfg, s, a, g.beats[b]);
    }
    AgentOnly(cfg, s, a, g');
  }

  /** Only the failing agent ever claimed the run, and it has let it go. */
  lemma FailSettleOk(cfg: Config, s: System, a: AgentId)
    requires Timely(cfg) && Inv(cfg, s) && a in s.agents && s.agents[a].claim.Failing?
    ensures Inv(cfg, s.(runs := Settle(s.runs, s.agents[a].claim.run, Failed)))
  {
    var r := s.agents[a].claim.run;
    assert AgentOk(cfg, s, a, s.agents[a]);
    forall b | b in s.agents
      ensures r !in Relied(s.agents[b])
    {
      assert AgentOk(cfg, s, b, s.agents[b]);
      assert r in s.agents[b].state.writing ==> WritingOk(cfg, s, b, s.agents[b], r);
    }
    if !Terminal(s.runs[r].status) {
      SettledMove(cfg, s, r, Failed);
      TableMoveKeeps(cfg, s, WithStatus(s.runs, r, Failed));
    } else {
      assert s.(runs := Settle(s.runs, r, Failed)) == s;
    }
  }

  lemma ForkOk(cfg: Config, s: System, a: AgentId, g: Agent, r: RunId, launching: set<RunId>, forked: bool)
    requires AgentOk(cfg, s, a, g) && |g.state.live| < g.slots && g.claim.Idle?
    requires forked ==>
               && r in g.state.owned && r in s.runs && Busy(s.runs[r].status) && s.runs[r].runner == Some(a)
               && s.runs[r].lease.Some? && g.lastCheck + cfg.fenceMarginMs < s.runs[r].lease.value
               && r in s.launched && r !in s.reported
    ensures AgentOk(cfg, s, a, g.(state := g.state.(launching := launching,
                                                    live := if forked then g.state.live + {r} else g.state.live,
                                                    writing := if forked then g.state.writing + {r} else g.state.writing)))
  {
  }

  /** Up to the fork: leases judged, and the run marked as launched if its own stands. */
  lemma BeforeFork(cfg: Config, s: System, a: AgentId, checked: Agent)
    requires Timely(cfg) && Inv(cfg, s) && a in s.agents && s.agents[a].claim.Starting?
    requires checked == Checked(s.agents[a], s.now, cfg)
    ensures var r := s.agents[a].claim.run;
            var s1 := WithAgent(s, a, checked.(claim := Idle));
            if r in checked.state.owned
            then Inv(cfg, s1.(launched := s1.launched + {r})) && ClaimedRun(s, a, r)
                 && s.now + cfg.fenceMarginMs < s.runs[r].lease.value && r !in s.reported
            else Inv(cfg, s1)
    ensures |s.agents[a].state.live| < s.agents[a].slots
  {
    var g, r := s.agents[a], s.agents[a].claim.run;
    assert AgentOk(cfg, s, a, g);
    assert ClaimedRun(s, a, r);
    CheckedOk(cfg, s, a, g);
    ReclaimOk(cfg, s, a, checked, Idle);
    AgentOnly(cfg, s, a, checked.(claim := Idle));
    var s1 := WithAgent(s, a, checked.(claim := Idle));
    assert ClaimedRun(s1, a, r);
    LaunchedOk(cfg, s1, s1.(launched := s1.launched + {r}), a, r);
  }

  /** The fork itself. */
  lemma AfterFork(cfg: Config, s: System, a: AgentId, r: RunId, launching: set<RunId>, forked: bool)
    requires Timely(cfg) && Inv(cfg, s) && a in s.agents && s.agents[a].claim.Idle?
    requires |s.agents[a].state.live| < s.agents[a].slots
    requires forked ==>
               && r in s.agents[a].state.owned && r in s.runs && Busy(s.runs[r].status) && s.runs[r].runner == Some(a)
               && s.runs[r].lease.Some? && s.agents[a].lastCheck + cfg.fenceMarginMs < s.runs[r].lease.value
               && r in s.launched && r !in s.reported
    ensures var g := s.agents[a];
            Inv(cfg, WithAgent(s, a, g.(state := g.state.(
              launching := launching,
              live := if forked then g.state.live + {r} else g.state.live,
              writing := if forked then g.state.writing + {r} else g.state.writing))))
  {
    var g := s.agents[a];
    assert AgentOk(cfg, s, a, g);
    ForkOk(cfg, s, a, g, r, launching, forked);
    AgentOnly(cfg, s, a, g.(state := g.state.(
      launching := launching,
      live := if forked then g.state.live + {r} else g.state.live,
      writing := if forked then g.state.writing + {r} else g.state.writing)));
  }

  /** A launch: every lease judged at this very moment, and the run started only if its own stands. */
  lemma LaunchOk(cfg: Config, s: System, a: AgentId, s': System)
    requires Timely(cfg) && Inv(cfg, s) && a in s.agents && s.agents[a].claim.Starting?
    requires var g, r := s.agents[a], s.agents[a].claim.run;
             var forked := r in Checked(g, s.now, cfg).state.owned;
             s' == WithAgent(s, a, g.(claim := Idle, state := AfterLaunch(g.state, r, s.now, cfg.Deadline()), lastCheck := s.now))
                   .(launched := if forked then s.launched + {r} else s.launched)
    ensures Inv(cfg, s')
  {
    var g, r := s.agents[a], s.agents[a].claim.run;
    var checked := Checked(g, s.now, cfg);
    var forked := r in checked.state.owned;
    var s1 := WithAgent(s, a, checked.(claim := Idle));
    var s2 := if forked then s1.(launched := s1.launched + {r}) else s1;
    BeforeFork(cfg, s, a, checked);
    TwiceWith(s, a, checked.(claim := Idle), g.(claim := Idle, state := AfterLaunch(g.state, r, s.now, cfg.Deadline()), lastCheck := s.now));
    AfterFork(cfg, s2, a, r, g.state.launching - {r}, forked);
  }

  lemma TwiceWith(s: System, a: AgentId, g: Agent, g': Agent)
    ensures WithAgent(WithAgent(s, a, g), a, g') == WithAgent(s, a, g')
    ensures s.agents[a := g][a := g'] == s.agents[a := g']
  {
    assert s.agents[a := g][a := g'] == s.agents[a := g'];
  }

  /** No other claim is after a run this agent has been granted. */
  lemma LaunchedOk(cfg: Config, s: System, s': System, a: AgentId, r: RunId)
    requires Timely(cfg) && Inv(cfg, s) && ClaimedRun(s, a, r) && a in s.agents && s.agents[a].claim.Idle?
    requires s' == s || s' == s.(launched := s.launched + {r})
    ensures Inv(cfg, s')
  {
    forall b | b in s'.agents
      ensures AgentOk(cfg, s', b, s'.agents[b])
    {
      assert AgentOk(cfg, s, b, s.agents[b]);
      forall q | q in Relied(s.agents[b]) && q in s.runs
        ensures RowLive(s, s', q)
      {
        assert q in s.agents[b].state.writing ==> WritingOk(cfg, s, b, s.agents[b], q);
      }
      AgentFrame(cfg, s, s', b, s.agents[b]);
    }
  }

  lemma ClaimStepOk(cfg: Config, s: System, step: Step)
    requires Timely(cfg) && Inv(cfg, s) && IsClaimStep(step) && step.agent in s.agents && ClaimEnabled(s, step)
    ensures Inv(cfg, ApplyClaim(cfg, s, step))
  {
    match step {
      case ClaimSend(_) => AskOk(cfg, s, step);
      case ClaimPick(_, r) => AskOk(cfg, s, step);
      case ClaimCommit(_) => CommitOk(cfg, s, step);
      case ClaimEnd(_) => ClaimEndOk(cfg, s, step.agent);
      case ClaimReply(_) => ClaimReplyOk(cfg, s, step.agent);
      case Launch(_) => LaunchOk(cfg, s, step.agent, ApplyClaim(cfg, s, step));
      case LaunchFail(_) => LaunchFailOk(cfg, s, step.agent);
      case FailSettle(_) => FailSettleOk(cfg, s, step.agent);
    }
  }

  lemma AskOk(cfg: Config, s: System, step: Step)
    requires Timely(cfg) && Inv(cfg, s) && (step.ClaimSend? || step.ClaimPick?) && step.agent in s.agents && ClaimEnabled(s, step)
    ensures Inv(cfg, ApplyClaim(cfg, s, step))
  {
    var a, g := step.agent, s.agents[step.agent];
    assert AgentOk(cfg, s, a, g);
    if step.ClaimSend? {
      Reclaim(cfg, s, a, Asking(s.now, 0));
    } else {
      Reclaim(cfg, s, a, Picked(g.claim.sentAt, g.claim.attempt, step.run, s.now));
    }
  }

  lemma CommitOk(cfg: Config, s: System, step: Step)
    requires Timely(cfg) && Inv(cfg, s) && step.ClaimCommit? && step.agent in s.agents && ClaimEnabled(s, step)
    ensures Inv(cfg, ApplyClaim(cfg, s, step))
  {
    var a, g := step.agent, s.agents[step.agent];
    if IndexAllows(s.runs, g.claim.run) {
      GrantOk(cfg, s, a);
    } else {
      assert AgentOk(cfg, s, a, g);
      if g.claim.attempt + 1 < MAX_CLAIM_ATTEMPTS {
        Reclaim(cfg, s, a, Asking(g.claim.sentAt, g.claim.attempt + 1));
      } else {
        Reclaim(cfg, s, a, Idle);
      }
    }
  }

  lemma ClaimEndOk(cfg: Config, s: System, a: AgentId)
    requires Timely(cfg) && Inv(cfg, s) && a in s.agents
    ensures var g := s.agents[a];
            var st := if g.claim.Failing? then g.state.(launching := g.state.launching - {g.claim.run}) else g.state;
            Inv(cfg, WithAgent(s, a, g.(claim := Idle, state := st)))
  {
    Reclaim(cfg, s, a, Idle);
    var s1 := WithAgent(s, a, s.agents[a].(claim := Idle));
    var g := s.agents[a];
    assert AgentOk(cfg, s1, a, s1.agents[a]);
    var st := if g.claim.Failing? then g.state.(launching := g.state.launching - {g.claim.run}) else g.state;
    var g' := g.(claim := Idle, state := st);
    forall r | r in g'.state.writing
      ensures WritingOk(cfg, s1, a, g', r)
    {
      assert WritingOk(cfg, s1, a, s1.agents[a], r);
    }
    AgentOnly(cfg, s1, a, g');
    TwiceWith(s, a, s1.agents[a], g');
  }

  lemma BeatStepOk(cfg: Config, s: System, step: Step)
    requires Timely(cfg) && Inv(cfg, s) && IsBeatStep(step) && step.agent in s.agents && BeatEnabled(s, step)
    ensures Inv(cfg, ApplyBeat(cfg, s, step))
  {
    var a, g := step.agent, s.agents[step.agent];
    assert AgentOk(cfg, s, a, g);
    match step {
      case BeatSend(_, b) =>
        MoreBeatsOk(cfg, s, a, g, b, Sent(s.now, g.state.live));
      case BeatCommit(_, b) =>
        BeatCommitOk(cfg, s, a, b);
        return;
      case BeatReply(_, b) =>
        BeatReplyOk(cfg, s, a, g, b);
        FewerBeatsOk(cfg, s, a, g.(state := AfterBeat(g.state, g.beats[b].sentAt, g.beats[b].liveBefore, g.beats[b].held)), b);
      case BeatFail(_, b) =>
        CheckedOk(cfg, s, a, g);
        FewerBeatsOk(cfg, s, a, Checked(g, s.now, cfg), b);
      case Watchdog(_) =>
        CheckedOk(cfg, s, a, g);
    }
    AgentOnly(cfg, s, a, ApplyBeat(cfg, s, step).agents[a]);
  }

  lemma ChildStepOk(cfg: Config, s: System, step: Step)
    requires Timely(cfg) && Inv(cfg, s) && IsChildStep(step) && step.agent in s.agents && ChildEnabled(s, step)
    ensures Inv(cfg, ApplyChild(s, step))
  {
    var a, g := step.agent, s.agents[step.agent];
    assert AgentOk(cfg, s, a, g);
    match step {
      case ChildFinish(_, r) =>
        assert WritingOk(cfg, s, a, g, r);
        ChildGoneOk(cfg, s, a, g, r);
        var s1 := WithAgent(s, a, g.(state := g.state.(writing := g.state.writing - {r})));
        AgentOnly(cfg, s, a, s1.agents[a]);
        ReportedOk(cfg, s1, r);
        return;
      case ChildDie(_, r) => ChildGoneOk(cfg, s, a, g, r);
      case ChildExit(_, r) => ChildGoneOk(cfg, s, a, g, r);
      case Drain(_) => DrainOk(cfg, s, a, g);
    }
    AgentOnly(cfg, s, a, ApplyChild(s, step).agents[a]);
  }

  lemma DrainOk(cfg: Config, s: System, a: AgentId, g: Agent)
    requires AgentOk(cfg, s, a, g)
    ensures AgentOk(cfg, s, a, g.(draining := true))
  {
  }

  /** The one child of the run has stopped writing, so nobody writes it. */
  lemma ReportedOk(cfg: Config, s: System, r: RunId)
    requires Timely(cfg) && Inv(cfg, s) && r in s.launched && !Written(s, r)
    ensures Inv(cfg, s.(reported := s.reported + {r}))
  {
    var s' := s.(reported := s.reported + {r});
    forall a | a in s'.agents
      ensures AgentOk(cfg, s', a, s'.agents[a])
    {
      assert AgentOk(cfg, s, a, s.agents[a]);
      forall q | q in Relied(s.agents[a]) && q in s.runs
        ensures RowLive(s, s', q)
      {
        assert q in s.agents[a].state.writing ==> WritingOk(cfg, s, a, s.agents[a], q);
      }
      AgentFrame(cfg, s, s', a, s.agents[a]);
    }
  }

  // ---- the theorems ----

  lemma StepKeepsInv(cfg: Config, s: System, step: Step)
    requires Timely(cfg) && Inv(cfg, s) && Enabled(cfg, s, step)
    ensures Inv(cfg, Apply(cfg, s, step))
  {
    if step.Advance? {
      AdvanceStep(cfg, s, step.to);
    } else if IsTableStep(step) {
      TableStepOk(cfg, s, step);
    } else if IsClaimStep(step) {
      ClaimStepOk(cfg, s, step);
    } else if IsBeatStep(step) {
      BeatStepOk(cfg, s, step);
    } else {
      ChildStepOk(cfg, s, step);
    }
  }

  lemma {:induction false} RunKeepsInv(cfg: Config, trace: seq<System>, i: nat)
    requires Timely(cfg) && IsRun(cfg, trace) && i < |trace|
    ensures Inv(cfg, trace[i])
  {
    if i > 0 {
      RunKeepsInv(cfg, trace, i - 1);
      assert Next(cfg, trace[i - 1], trace[i]);
      var step :| Enabled(cfg, trace[i - 1], step) && trace[i] == Apply(cfg, trace[i - 1], step);
      StepKeepsInv(cfg, trace[i - 1], step);
    }
  }

  lemma TwoWriters(cfg: Config, s: System, a: AgentId, r: RunId, b: AgentId, q: RunId)
    requires Inv(cfg, s) && a in s.agents && b in s.agents
    requires r in s.agents[a].state.writing && q in s.agents[b].state.writing
    ensures r in s.runs && q in s.runs && (r == q ==> a == b) && (r != q ==> !SameDestination(s.runs[r], s.runs[q]))
  {
    assert WritingOk(cfg, s, a, s.agents[a], r) && WritingOk(cfg, s, b, s.agents[b], q);
  }

  /**
   No two children ever write to one destination, and no run ever has two: in every reachable
   state, whatever was delayed, lost or answered out of order.
   */
  lemma AtMostOneWriter(cfg: Config, s: System)
    requires Timely(cfg) && Reachable(cfg, s)
    ensures SingleWriter(s)
  {
    assert Inv(cfg, s) by {
      var trace :| IsRun(cfg, trace) && trace[|trace| - 1] == s;
      RunKeepsInv(cfg, trace, |trace| - 1);
    }
    forall a, r, b, q | a in s.agents && r in s.agents[a].state.writing && b in s.agents && q in s.agents[b].state.writing
      ensures r in s.runs && q in s.runs && (r == q ==> a == b) && (r != q ==> !SameDestination(s.runs[r], s.runs[q]))
    {
      TwoWriters(cfg, s, a, r, b, q);
    }
  }

  /** A sweep at any moment settles no run that is still being written, and no agent runs more than its slots. */
  lemma SweepSparesWriters(cfg: Config, s: System, a: AgentId)
    requires Timely(cfg) && Reachable(cfg, s) && a in s.agents
    ensures forall r <- s.agents[a].state.writing :: r in s.runs && Sweep(s.runs, s.now)[r] == s.runs[r] && s.runs[r].runner == Some(a)
    ensures |s.agents[a].state.live| <= s.agents[a].slots
    ensures UniqueBusyTargets(s.runs)
  {
    var trace :| IsRun(cfg, trace) && trace[|trace| - 1] == s;
    RunKeepsInv(cfg, trace, |trace| - 1);
    assert AgentOk(cfg, s, a, s.agents[a]);
    forall r | r in s.agents[a].state.writing
      ensures r in s.runs && Sweep(s.runs, s.now)[r] == s.runs[r] && s.runs[r].runner == Some(a)
    {
      WritersHoldTheirLease(cfg, s, a, r);
      assert WritingOk(cfg, s, a, s.agents[a], r);
    }
  }
}
