/**
 The run queue of `queue-store.ts`: the `runs` table as a map, each SQL statement
 as a function from table to table, and the class that executes them.
 Every statement is one atomic step; `now()` is the time it is given.
 */
module RunQueue {
  import opened Wrappers

  /** A uuid, ordered by its numeric value as the database orders it. */
  type RunId = nat
  type AgentId = string
  /** `target_lock_key`: opaque; None for a simulated run, which writes nowhere. */
  type TargetKey = string

  datatype Status = Queued | Running | Cancelling | Succeeded | Failed | Cancelled

  /** The statuses the partial unique index `runs_target_busy_uq` covers. */
  predicate Busy(s: Status) {
    s == Running || s == Cancelling
  }

  predicate Terminal(s: Status) {
    s == Succeeded || s == Failed || s == Cancelled
  }

  datatype RunRow = RunRow(
    status: Status,
    runnerClass: string,
    target: Option<TargetKey>,
    createdAt: int,
    runner: Option<AgentId>,
    lease: Option<int>)

  type Runs = map<RunId, RunRow>

  const MAX_CLAIM_ATTEMPTS: nat := 5

  // ---- the claim ----

  predicate SameDestination(a: RunRow, b: RunRow) {
    a.target.Some? && a.target == b.target
  }

  /** No busy run but `r` itself holds the destination of `r`: what the unique index demands. */
  predicate IndexAllows(runs: Runs, r: RunId)
    requires r in runs
  {
    forall b <- runs :: b != r && Busy(runs[b].status) ==> !SameDestination(runs[r], runs[b])
  }

  /** No two busy runs share a destination. */
  ghost predicate UniqueBusyTargets(runs: Runs) {
    forall a, b :: a in runs && b in runs && a != b && Busy(runs[a].status) && Busy(runs[b].status)
      ==> !SameDestination(runs[a], runs[b])
  }

  /** The WHERE clause of the claim's subquery. */
  predicate Claimable(runs: Runs, cls: string, r: RunId) {
    && r in runs
    && runs[r].status == Queued
    && runs[r].runnerClass == cls
    && IndexAllows(runs, r)
  }

  /** `ORDER BY created_at, id`. */
  predicate Older(runs: Runs, r: RunId, q: RunId)
    requires r in runs && q in runs
  {
    runs[r].createdAt < runs[q].createdAt || (runs[r].createdAt == runs[q].createdAt && r < q)
  }

  /** The row `FOR UPDATE SKIP LOCKED LIMIT 1` takes from a snapshot, given the rows others have locked. */
  ghost predicate Picks(runs: Runs, cls: string, locked: set<RunId>, r: RunId) {
    && Claimable(runs, cls, r)
    && r !in locked
    && forall q :: Claimable(runs, cls, q) && q !in locked && q != r ==> Older(runs, r, q)
  }

  ghost predicate NothingToPick(runs: Runs, cls: string, locked: set<RunId>) {
    forall q :: Claimable(runs, cls, q) ==> q in locked
  }

  /** An attempt that picked a row the index then refused. */
  ghost predicate Refused(runs: Runs, snapshot: Runs, cls: string, locked: set<RunId>) {
    exists r :: r in runs && Picks(snapshot, cls, locked, r) && !IndexAllows(runs, r)
  }

  function Grant(runs: Runs, r: RunId, agent: AgentId, at: int, leaseMs: int): Runs
    requires r in runs
  {
    runs[r := runs[r].(status := Running, runner := Some(agent), lease := Some(at + leaseMs))]
  }

  /** A queued, unlocked run of the class, whose destination no running or cancelling run holds. */
  ghost predicate Takeable(runs: Runs, cls: string, locked: set<RunId>, r: RunId) {
    && r in runs && runs[r].status == Queued && runs[r].runnerClass == cls && r !in locked
    && (runs[r].target.Some? ==> forall b <- runs :: b != r && (runs[b].status == Running || runs[b].status == Cancelling) ==>
                                                     runs[b].target != runs[r].target)
  }

  // ---- the other statements ----

  /** The rows a heartbeat of `agent` matches. */
  function Held(runs: Runs, agent: AgentId): set<RunId> {
    set r <- runs | runs[r].runner == Some(agent) && Busy(runs[r].status)
  }

  function Renew(runs: Runs, agent: AgentId, at: int, leaseMs: int): Runs {
    map r <- runs :: if runs[r].runner == Some(agent) && Busy(runs[r].status)
                     then runs[r].(lease := Some(at + leaseMs)) else runs[r]
  }

  function WithStatus(runs: Runs, r: RunId, s: Status): Runs
    requires r in runs
  {
    runs[r := runs[r].(status := s)]
  }

  /** `settleClaimedRun` and `finaliseRunIfUnsettled`: never overwrites an outcome. */
  function Settle(runs: Runs, r: RunId, outcome: Status): Runs {
    if r in runs && !Terminal(runs[r].status) then WithStatus(runs, r, outcome) else runs
  }

  function CancelQueued(runs: Runs, r: RunId): Runs {
    if r in runs && runs[r].status == Queued then WithStatus(runs, r, Cancelled) else runs
  }

  /** `requestCancel`: never overwrites an outcome either. */
  function RequestCancel(runs: Runs, r: RunId): Runs {
    if r in runs && !Terminal(runs[r].status) then WithStatus(runs, r, Cancelling) else runs
  }

  predicate Expired(row: RunRow, at: int) {
    Busy(row.status) && row.lease.Some? && row.lease.value < at
  }

  function Sweep(runs: Runs, at: int): Runs {
    map r <- runs :: if Expired(runs[r], at)
                     then runs[r].(status := if runs[r].status == Cancelling then Cancelled else Failed)
                     else runs[r]
  }

  /** `applyProjection` of a batch holding `run_started`: keeps a cancel already asked for. */
  function MarkStarted(runs: Runs, r: RunId): Runs {
    if r in runs && runs[r].status != Cancelling then WithStatus(runs, r, Running) else runs
  }

  /** The statements as they run against the table. */
  class QueueStore {
    var runs: Runs

    constructor ()
      ensures runs == map[]
    {
      runs := map[];
    }

    /** One attempt's subquery: a scan of the snapshot for the oldest row it may claim. */
    method PickNext(snapshot: Runs, cls: string, locked: set<RunId>) returns (picked: Option<RunId>)
      ensures picked.Some? ==> Picks(snapshot, cls, locked, picked.value)
      ensures picked.None? ==> NothingToPick(snapshot, cls, locked)
      // Told apart from the predicates: the first, by creation and then by id, of the rows it may take.
      ensures picked.Some? ==> Takeable(snapshot, cls, locked, picked.value)
      ensures picked.None? ==> forall q :: !Takeable(snapshot, cls, locked, q)
      ensures picked.Some? ==> forall q :: Takeable(snapshot, cls, locked, q) && q != picked.value ==>
                var at, at' := snapshot[picked.value].createdAt, snapshot[q].createdAt;
                at < at' || (at == at' && picked.value < q)
    {
      picked := None;
      var left := snapshot.Keys;
      while left != {}
        invariant left <= snapshot.Keys
        invariant picked.Some? ==> picked.value in snapshot.Keys - left
                                   && Claimable(snapshot, cls, picked.value) && picked.value !in locked
        invariant forall q :: q in snapshot.Keys - left && Claimable(snapshot, cls, q) && q !in locked ==>
                                picked.Some? && (q == picked.value || Older(snapshot, picked.value, q))
        decreases left
      {
        var q :| q in left;
        left := left - {q};
        if Claimable(snapshot, cls, q) && q !in locked {
          if picked.None? || Older(snapshot, q, picked.value) {
            picked := Some(q);
          }
        }
      }
    }

    /**
     `claimNextRun`: pick from what the statement's snapshot shows, then write; the index may refuse
     the write, and then the whole statement is tried again. `snapshots` and `startedAt` are what each
     attempt reads and when it began; `runs` is the table the write lands in.
     */
    method ClaimNextRun(agent: AgentId, cls: string, leaseMs: int, locked: set<RunId>,
                        snapshots: seq<Runs>, startedAt: seq<int>)
      returns (claimed: Option<RunId>, ghost attempt: nat)
      requires |snapshots| == |startedAt| == MAX_CLAIM_ATTEMPTS
      // The row lock keeps a picked row as it was: still there, and still queued.
      requires forall k, r :: 0 <= k < MAX_CLAIM_ATTEMPTS && Picks(snapshots[k], cls, locked, r) ==> r in runs && runs[r].status == Queued
      requires UniqueBusyTargets(runs)
      modifies this
      ensures UniqueBusyTargets(runs)
      ensures claimed.Some? ==>
                && attempt < MAX_CLAIM_ATTEMPTS
                && Picks(snapshots[attempt], cls, locked, claimed.value)
                && claimed.value in old(runs) && IndexAllows(old(runs), claimed.value)
                && runs == Grant(old(runs), claimed.value, agent, startedAt[attempt], leaseMs)
                && runs == old(runs)[claimed.value := old(runs)[claimed.value].(
                             status := Running, runner := Some(agent), lease := Some(startedAt[attempt] + leaseMs))]
      ensures claimed.None? ==>
                && runs == old(runs)
                && (attempt < MAX_CLAIM_ATTEMPTS ==> NothingToPick(snapshots[attempt], cls, locked))
      ensures attempt <= MAX_CLAIM_ATTEMPTS
      ensures forall k :: 0 <= k < attempt ==> Refused(old(runs), snapshots[k], cls, locked)
    {
      attempt := 0;
      for i := 0 to MAX_CLAIM_ATTEMPTS
        invariant runs == old(runs) && attempt == i
        invariant forall k :: 0 <= k < i ==> Refused(runs, snapshots[k], cls, locked)
      {
        var picked := PickNext(snapshots[i], cls, locked);
        if picked.None? {
          return None, i;
        }
        var r := picked.value;
        if IndexAllows(runs, r) {
          runs := Grant(runs, r, agent, startedAt[i], leaseMs);
          return Some(r), i;
        }
        attempt := i + 1;
      }
      claimed := None;
    }

    method Heartbeat(agent: AgentId, at: int, leaseMs: int) returns (held: set<RunId>, cancelling: set<RunId>)
      modifies this
      ensures runs == Renew(old(runs), agent, at, leaseMs)
      ensures held == Held(old(runs), agent)
      ensures forall r :: r in cancelling <==> r in held && old(runs)[r].status == Cancelling
      ensures forall r :: r in held <==>
                r in old(runs) && old(runs)[r].runner == Some(agent) && (old(runs)[r].status == Running || old(runs)[r].status == Cancelling)
      ensures runs.Keys == old(runs).Keys
      ensures forall r <- runs :: runs[r] == if r in held then old(runs)[r].(lease := Some(at + leaseMs)) else old(runs)[r]
    {
      held := Held(runs, agent);
      cancelling := set r <- held | runs[r].status == Cancelling;
      runs := Renew(runs, agent, at, leaseMs);
    }

    method SettleClaimedRun(r: RunId, outcome: Status) returns (settled: bool)
      requires outcome == Failed || outcome == Cancelled
      modifies this
      ensures runs == Settle(old(runs), r, outcome)
      ensures settled <==> r in old(runs) && !Terminal(old(runs)[r].status)
      ensures settled <==> r in old(runs) && old(runs)[r].status !in {Succeeded, Failed, Cancelled}
      ensures runs == if settled then old(runs)[r := old(runs)[r].(status := outcome)] else old(runs)
    {
      settled := r in runs && !Terminal(runs[r].status);
      if settled {
        runs := WithStatus(runs, r, outcome);
      }
    }

    method CancelQueuedRun(r: RunId) returns (cancelled: bool)
      modifies this
      ensures runs == CancelQueued(old(runs), r)
      ensures cancelled <==> r in old(runs) && old(runs)[r].status == Queued
      ensures runs == if cancelled then old(runs)[r := old(runs)[r].(status := Cancelled)] else old(runs)
    {
      cancelled := r in runs && runs[r].status == Queued;
      if cancelled {
        runs := WithStatus(runs, r, Cancelled);
      }
    }

    method RequestRunCancel(r: RunId) returns (updated: bool)
      modifies this
      ensures runs == RequestCancel(old(runs), r)
      ensures updated <==> r in old(runs) && old(runs)[r].status != Succeeded && old(runs)[r].status != Failed && old(runs)[r].status != Cancelled
      ensures runs == if updated then old(runs)[r := old(runs)[r].(status := Cancelling)] else old(runs)
    {
      updated := r in runs && !Terminal(runs[r].status);
      if updated {
        runs := WithStatus(runs, r, Cancelling);
      }
    }

    /**
     `cancel.post.ts`, with nothing between its two statements: a run that still waits is over at once, one in
     work is asked to stop, and one that has ended keeps its outcome.
     */
    method CancelRun(r: RunId) returns (cancelled: bool, updated: bool)
      requires UniqueBusyTargets(runs)
      modifies this
      ensures UniqueBusyTargets(runs) && runs.Keys == old(runs).Keys && forall q <- runs :: q != r ==> runs[q] == old(runs)[q]
      ensures r in runs ==>
                var was := old(runs)[r].status;
                && runs[r] == old(runs)[r].(status := if was == Queued then Cancelled else if was == Running then Cancelling else was)
                && (cancelled <==> was == Queued) && (updated <==> was == Running || was == Cancelling)
    {
      updated := false;
      cancelled := CancelQueuedRun(r);
      if !cancelled {
        updated := RequestRunCancel(r);
      }
    }

    method SweepExpired(at: int) returns (settled: set<RunId>)
      modifies this
      ensures runs == Sweep(old(runs), at)
      ensures forall r :: r in settled <==>
                && r in old(runs) && (old(runs)[r].status == Running || old(runs)[r].status == Cancelling)
                && old(runs)[r].lease.Some? && old(runs)[r].lease.value < at
      ensures runs.Keys == old(runs).Keys
      ensures forall r <- runs :: runs[r] ==
                if r !in settled then old(runs)[r]
                else old(runs)[r].(status := if old(runs)[r].status == Cancelling then Cancelled else Failed)
    {
      settled := set r <- runs | Expired(runs[r], at);
      runs := Sweep(runs, at);
    }
  }

  // ---- what the statements keep ----

  /** A claim the index lets through, from whatever stale snapshot it was picked, keeps destinations exclusive. */
  lemma GrantKeepsUnique(runs: Runs, r: RunId, agent: AgentId, at: int, leaseMs: int)
    requires UniqueBusyTargets(runs) && r in runs && IndexAllows(runs, r)
    ensures UniqueBusyTargets(Grant(runs, r, agent, at, leaseMs))
  {
  }

  /** Exactly: the table stays exclusive if and only if the index would let the claim through. */
  lemma GrantNeedsIndex(runs: Runs, r: RunId, agent: AgentId, at: int, leaseMs: int)
    requires UniqueBusyTargets(runs) && r in runs && !Busy(runs[r].status)
    ensures UniqueBusyTargets(Grant(runs, r, agent, at, leaseMs)) <==> IndexAllows(runs, r)
  {
    var after := Grant(runs, r, agent, at, leaseMs);
    if !IndexAllows(runs, r) {
      var b :| b in runs && b != r && Busy(runs[b].status) && SameDestination(runs[r], runs[b]);
      assert Busy(after[b].status) && SameDestination(after[r], after[b]);
    }
  }

  /** A queued run is claimed or cancelled, never both, whichever statement comes first. */
  lemma ClaimExcludesCancel(runs: Runs, cls: string, r: RunId, agent: AgentId, at: int, leaseMs: int)
    requires Claimable(runs, cls, r)
    ensures CancelQueued(Grant(runs, r, agent, at, leaseMs), r) == Grant(runs, r, agent, at, leaseMs)
    ensures !Claimable(CancelQueued(runs, r), cls, r)
  {
  }
}
