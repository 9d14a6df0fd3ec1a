/**
 One runner agent (`runner-agent.ts`): which runs it owns and since when, which it is launching,
 and the children it keeps alive. Each handler is a function on `AgentState`; the class runs the
 same handlers over its fields, one key at a time, as the source does.
 */
module RunnerAgentModel {
  import opened RunQueue

  datatype AgentState = AgentState(
    /** Runs held under a lease, and when the request that last renewed each was sent. */
    owned: map<RunId, int>,
    /** Claimed, not launched yet. */
    launching: set<RunId>,
    /** `control.liveRunIds()`: runs with a handle here, until the child's exit is seen. */
    live: set<RunId>,
    /** Runs whose child process is still able to write. */
    writing: set<RunId>,
    cancelSent: set<RunId>)

  function Fenced(s: AgentState, rs: set<RunId>): AgentState {
    s.(owned := s.owned - rs, cancelSent := s.cancelSent - rs, writing := s.writing - rs)
  }

  function Released(s: AgentState, r: RunId): AgentState {
    s.(owned := s.owned - {r}, cancelSent := s.cancelSent - {r})
  }

  /** Runs whose lease may expire before anything here could renew it. */
  function Due(s: AgentState, now: int, deadline: int): set<RunId> {
    set r <- s.owned | now - s.owned[r] >= deadline
  }

  /** `checkLeases`. */
  function AfterCheck(s: AgentState, now: int, deadline: int): AgentState {
    Fenced(s, Due(s, now, deadline))
  }

  datatype Verdict = Keep | Confirm | Release | Fence

  /** What a heartbeat's answer says of one owned run. */
  function Judge(s: AgentState, r: RunId, liveBefore: set<RunId>, held: set<RunId>): Verdict {
    if r !in liveBefore then
      if r !in s.launching && r !in s.live then Release else Keep
    else if r !in s.live then Release
    else if r !in held then Fence
    else Confirm
  }

  /** The answer applied to the runs in `rs` only. */
  function BeatOver(s: AgentState, rs: set<RunId>, sentAt: int, liveBefore: set<RunId>, held: set<RunId>): AgentState {
    var fenced := set r <- s.owned | r in rs && Judge(s, r, liveBefore, held).Fence?;
    var dropped := fenced + set r <- s.owned | r in rs && Judge(s, r, liveBefore, held).Release?;
    s.(owned := map r <- s.owned | r !in dropped ::
                  if r in rs && Judge(s, r, liveBefore, held).Confirm? then sentAt else s.owned[r],
       cancelSent := s.cancelSent - dropped,
       writing := s.writing - fenced)
  }

  /** `beat`, from the moment its answer arrives: every owned run is judged. */
  function AfterBeat(s: AgentState, sentAt: int, liveBefore: set<RunId>, held: set<RunId>): AgentState {
    BeatOver(s, s.owned.Keys, sentAt, liveBefore, held)
  }

  /** `claimLoop`, from the moment the claim's answer arrives. */
  function AfterClaimed(s: AgentState, r: RunId, sentAt: int): AgentState {
    s.(owned := s.owned[r := sentAt], launching := s.launching + {r})
  }

  /** The last steps of `startRun`: judge every lease now, and launch only a run still owned. */
  function AfterLaunch(s: AgentState, r: RunId, now: int, deadline: int): AgentState {
    var checked := AfterCheck(s, now, deadline);
    var done := checked.(launching := checked.launching - {r});
    if r in checked.owned then done.(live := done.live + {r}, writing := done.writing + {r}) else done
  }

  /** Nothing happened to one run: its lease, its child, its cancel. */
  predicate KeptAt(before: AgentState, after: AgentState, r: RunId) {
    && (r in after.owned <==> r in before.owned) && (r in before.owned && r in after.owned ==> after.owned[r] == before.owned[r])
    && (r in after.writing <==> r in before.writing) && (r in after.cancelSent <==> r in before.cancelSent)
    && (r in after.launching <==> r in before.launching) && (r in after.live <==> r in before.live)
  }

  /** The processes behind the agent: `RunManager`, as far as the agent sees it. */
  class RunControl {
    var live: set<RunId>
    var writing: set<RunId>
    var cancelled: seq<RunId>

    constructor ()
      ensures live == writing == {} && cancelled == []
    {
      live, writing, cancelled := {}, {}, [];
    }

    /** Forks a child, or throws without having forked one. */
    method Launch(r: RunId, forks: bool) returns (ok: bool)
      modifies this
      ensures ok == forks && cancelled == old(cancelled)
      ensures live == if ok then old(live) + {r} else old(live)
      ensures writing == if ok then old(writing) + {r} else old(writing)
    {
      ok := forks;
      if ok {
        live, writing := live + {r}, writing + {r};
      }
    }

    /** SIGKILL: the child stops writing at once; its handle stays until the exit is seen. */
    method Terminate(r: RunId)
      modifies this`writing
      ensures writing == old(writing) - {r}
    {
      writing := writing - {r};
    }

    /** The user's cooperative cancel. */
    method Cancel(r: RunId)
      modifies this`cancelled
      ensures cancelled == old(cancelled) + [r]
    {
      cancelled := cancelled + [r];
    }
  }

  class RunnerAgent {
    const control: RunControl
    const leaseMs: int
    const fenceMarginMs: int
    var owned: map<RunId, int>
    var launching: set<RunId>
    var cancelSent: set<RunId>

    constructor (control: RunControl, leaseMs: int := 30_000, fenceMarginMs: int := 5_000)
      ensures this.control == control && this.leaseMs == leaseMs && this.fenceMarginMs == fenceMarginMs
      ensures State() == AgentState(map[], {}, control.live, control.writing, {})
    {
      this.control, this.leaseMs, this.fenceMarginMs := control, leaseMs, fenceMarginMs;
      owned, launching, cancelSent := map[], {}, {};
    }

    ghost function State(): AgentState
      reads this, control
    {
      AgentState(owned, launching, control.live, control.writing, cancelSent)
    }

    method Release(r: RunId)
      modifies this
      ensures State() == Released(old(State()), r)
    {
      owned := owned - {r};
      cancelSent := cancelSent - {r};
    }

    method FenceRun(r: RunId)
      modifies this, control`writing
      ensures State() == Fenced(old(State()), {r})
      ensures r !in owned && r !in control.writing && r !in cancelSent
      ensures forall q :: q != r ==> KeptAt(old(State()), State(), q)
    {
      control.Terminate(r);
      Release(r);
    }

    method CheckLeases(now: int)
      modifies this, control`writing
      ensures State() == AfterCheck(old(State()), now, leaseMs - fenceMarginMs)
      ensures forall r <- old(owned) :: if now - old(owned)[r] >= leaseMs - fenceMarginMs
                                        then r !in owned && r !in control.writing else KeptAt(old(State()), State(), r)
      ensures forall r :: r !in old(owned) ==> KeptAt(old(State()), State(), r)
    {
      var deadline := leaseMs - fenceMarginMs;
      ghost var before := State();
      ghost var due := Due(before, now, deadline);
      var entries := owned;
      var left := entries.Keys;
      ghost var done: set<RunId> := {};
      assert State() == Fenced(before, {});
      while left != {}
        invariant left <= entries.Keys && done == entries.Keys - left
        invariant State() == Fenced(before, due * done)
        decreases left
      {
        var r :| r in left;
        left, done := left - {r}, done + {r};
        if now - entries[r] >= deadline {
          assert due * done == due * (done - {r}) + {r};
          FenceRun(r);
          assert before.owned - due * done == before.owned - due * (done - {r}) - {r};
        } else {
          assert due * done == due * (done - {r});
        }
      }
      assert due * done == due;
    }

    /** `beat` once the heartbeat has answered; returns the runs whose cancel it forwarded. */
    method OnHeartbeat(sentAt: int, liveBefore: set<RunId>, held: set<RunId>, cancelling: set<RunId>)
      returns (forwarded: set<RunId>)
      requires cancelling <= held
      modifies this, control`writing, control`cancelled
      ensures State() == var s := AfterBeat(old(State()), sentAt, liveBefore, held);
                         s.(cancelSent := s.cancelSent + forwarded)
      ensures BeatJudged(old(State()), State(), sentAt, liveBefore, held)
      ensures forwarded == cancelling * old(control.live) - old(cancelSent)
      ensures forall r :: r in cancelSent <==> (r in old(cancelSent) && (r in old(owned) ==> r in owned)) || r in forwarded
      ensures OnceEach(old(control.cancelled), control.cancelled, forwarded)
    {
      ghost var before := State();
      JudgeOwned(sentAt, liveBefore, held);
      BeatIsRight(before, sentAt, liveBefore, held);
      HeldIsNotDropped(before, sentAt, liveBefore, held, cancelling);
      ghost var judged := State();
      forwarded := cancelling * control.live - cancelSent;
      Forward(forwarded);
      CancelsAreNoMatter(before, judged, State(), sentAt, liveBefore, held);
    }

    /** Its loop over the runs owned. */
    method JudgeOwned(sentAt: int, liveBefore: set<RunId>, held: set<RunId>)
      modifies this, control`writing
      ensures State() == AfterBeat(old(State()), sentAt, liveBefore, held)
    {
      ghost var before := State();
      var liveNow := control.live;
      var entries := owned;
      var left := entries.Keys;
      ghost var done: set<RunId> := {};
      while left != {}
        invariant left <= entries.Keys && done == entries.Keys - left
        invariant launching == before.launching && control.live == before.live
        invariant State() == BeatOver(before, done, sentAt, liveBefore, held)
        decreases left
      {
        var r :| r in left;
        left := left - {r};
        ghost var was := BeatOver(before, done, sentAt, liveBefore, held);
        done := done + {r};
        if r !in liveBefore {
          if r !in launching && r !in liveNow {
            Release(r);
          }
        } else if r !in liveNow {
          Release(r);
        } else if r !in held {
          FenceRun(r);
        } else {
          owned := owned[r := sentAt];
        }
        JudgeOne(before, done - {r}, r, sentAt, liveBefore, held);
        assert done - {r} + {r} == done;
        assert was == BeatOver(before, done - {r}, sentAt, liveBefore, held);
      }
      assert done == before.owned.Keys;
    }

    /** Its loop over the runs to cancel. */
    method Forward(asked: set<RunId>)
      requires asked !! cancelSent
      modifies this`cancelSent, control`cancelled
      ensures cancelSent == old(cancelSent) + asked && OnceEach(old(control.cancelled), control.cancelled, asked)
    {
      var left := asked;
      while left != {}
        invariant left <= asked && cancelSent == old(cancelSent) + (asked - left)
        invariant OnceEach(old(control.cancelled), control.cancelled, asked - left)
        decreases left
      {
        var r :| r in left;
        OneMoreAsked(old(control.cancelled), control.cancelled, asked - left, r);
        assert asked - (left - {r}) == (asked - left) + {r};
        left := left - {r};
        cancelSent := cancelSent + {r};
        control.Cancel(r);
      }
      assert asked - left == asked;
    }

    method OnClaimed(r: RunId, sentAt: int)
      modifies this
      ensures State() == AfterClaimed(old(State()), r, sentAt)
      ensures owned == old(owned)[r := sentAt] && launching == old(launching) + {r} && cancelSent == old(cancelSent)
    {
      owned := owned[r := sentAt];
      launching := launching + {r};
    }

    /** The end of `startRun`, its spec in hand. A launch that throws releases the run for `fail` to settle. */
    method LaunchClaimed(r: RunId, now: int, forks: bool) returns (launched: bool)
      modifies this, control
      ensures launched <==> forks && r in AfterCheck(old(State()), now, leaseMs - fenceMarginMs).owned
      ensures launched <==> forks && r in old(owned) && now - old(owned)[r] < leaseMs - fenceMarginMs
      ensures launched ==> r in owned && r in control.live && r in control.writing
      ensures control.live == (if launched then old(control.live) + {r} else old(control.live)) && launching == old(launching) - {r}
      ensures !launched ==> r !in owned
      ensures forks ==> State() == AfterLaunch(old(State()), r, now, leaseMs - fenceMarginMs)
      ensures !forks ==> State() == var s := AfterCheck(old(State()), now, leaseMs - fenceMarginMs);
                                    Released(s, r).(launching := s.launching - {r},
                                                    cancelSent := if r in s.owned then s.cancelSent - {r} else s.cancelSent)
    {
      CheckLeases(now);
      launched := false;
      if r in owned {
        launched := control.Launch(r, forks);
        if !launched {
          Release(r);
        }
      }
      launching := launching - {r};
    }
  }

  /** What a beat sent at `sentAt` makes of one owned run, told case by case. */
  ghost predicate JudgedRightly(before: AgentState, after: AgentState, r: RunId, sentAt: int, liveBefore: set<RunId>, held: set<RunId>) {
    // Live throughout, and still held: confirmed from the moment the beat was sent.
    && (r in liveBefore && r in before.live && r in held ==>
          r in after.owned && after.owned[r] == sentAt && (r in after.writing <==> r in before.writing))
    // Live, and swept: stopped and let go.
    && (r in liveBefore && r in before.live && r !in held ==> r !in after.owned && r !in after.writing)
    // Ended while the beat was under way: let go.
    && (r in liveBefore && r !in before.live ==> r !in after.owned && (r in after.writing <==> r in before.writing))
    // Not live when the beat was sent: kept as it was while it is launching or live by now, else let go.
    && (r !in liveBefore && (r in before.launching || r in before.live) ==>
          r in after.owned && r in before.owned && after.owned[r] == before.owned[r] && (r in after.writing <==> r in before.writing))
    && (r !in liveBefore && r !in before.launching && r !in before.live ==>
          r !in after.owned && (r in after.writing <==> r in before.writing))
  }

  ghost predicate BeatJudged(before: AgentState, after: AgentState, sentAt: int, liveBefore: set<RunId>, held: set<RunId>) {
    && (forall r <- before.owned :: JudgedRightly(before, after, r, sentAt, liveBefore, held))
    && (forall r :: r !in before.owned ==> r !in after.owned && (r in after.writing <==> r in before.writing))
    && after.launching == before.launching && after.live == before.live
  }

  lemma BeatIsRight(s: AgentState, sentAt: int, liveBefore: set<RunId>, held: set<RunId>)
    ensures BeatJudged(s, AfterBeat(s, sentAt, liveBefore, held), sentAt, liveBefore, held)
    ensures forall r :: r in AfterBeat(s, sentAt, liveBefore, held).cancelSent <==>
                        r in s.cancelSent && (r in s.owned ==> r in AfterBeat(s, sentAt, liveBefore, held).owned)
  {
  }

  lemma CancelsAreNoMatter(before: AgentState, judged: AgentState, after: AgentState, sentAt: int, liveBefore: set<RunId>, held: set<RunId>)
    requires BeatJudged(before, judged, sentAt, liveBefore, held) && after == judged.(cancelSent := after.cancelSent)
    ensures BeatJudged(before, after, sentAt, liveBefore, held)
  {
    forall r | r in before.owned
      ensures JudgedRightly(before, after, r, sentAt, liveBefore, held)
    {
      assert JudgedRightly(before, judged, r, sentAt, liveBefore, held);
    }
  }

  /** A run still held keeps the mark of its cancel. */
  lemma HeldIsNotDropped(s: AgentState, sentAt: int, liveBefore: set<RunId>, held: set<RunId>, cancelling: set<RunId>)
    requires cancelling <= held
    ensures cancelling * s.live - AfterBeat(s, sentAt, liveBefore, held).cancelSent == cancelling * s.live - s.cancelSent
  {
  }

  /** `after` is `before` and then each of `rs` once. */
  ghost predicate OnceEach(before: seq<RunId>, after: seq<RunId>, rs: set<RunId>) {
    before <= after && multiset(after[|before|..]) == multiset(rs)
  }

  lemma OneMoreAsked(before: seq<RunId>, after: seq<RunId>, rs: set<RunId>, r: RunId)
    requires OnceEach(before, after, rs) && r !in rs
    ensures OnceEach(before, after + [r], rs + {r})
  {
    assert (after + [r])[|before|..] == after[|before|..] + [r];
  }

  /** Judging one more run on top of those already judged. */
  lemma JudgeOne(s: AgentState, rs: set<RunId>, r: RunId, sentAt: int, liveBefore: set<RunId>, held: set<RunId>)
    requires r in s.owned && r !in rs
    ensures var was := BeatOver(s, rs, sentAt, liveBefore, held);
            BeatOver(s, rs + {r}, sentAt, liveBefore, held) ==
            match Judge(s, r, liveBefore, held)
            case Keep => was
            case Confirm => was.(owned := was.owned[r := sentAt])
            case Release => Released(was, r)
            case Fence => Fenced(was, {r})
  {
  }
}
