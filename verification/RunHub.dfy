/**
 The fan-out of run events to sockets (`run-hub.ts`): rooms by run and cohort, one room a peer, and a
 re-check of every role.
 */
module RunHubModel {
  import opened Wrappers
  import opened RunEvents

  type Peer(==, !new)
  type Id(==, !new)

  datatype Cohort = Full | Redacted

  datatype OrgRole = Admin | Editor | Viewer

  /** Only those who may read the logs are in the full cohort. */
  function CohortFor(role: OrgRole): Cohort {
    if role.Viewer? then Redacted else Full
  }

  datatype Grant = Grant(userId: Id, orgId: Id, runId: Id, cohort: Cohort)

  /** A room's key; its ids are UUIDs, so the text the source builds is as good. */
  datatype Key = Key(orgId: Id, runId: Id, cohort: Cohort)

  function RoomKey(g: Grant): Key {
    Key(g.orgId, g.runId, g.cohort)
  }

  /** `serial` tells apart the objects that say the same. */
  datatype Membership = Membership(serial: nat, peer: Peer, grant: Grant)

  type ByRun = map<Id, map<Key, set<Membership>>>

  function MembersAt(byRun: ByRun, run: Id, room: Key): set<Membership> {
    if run in byRun && room in byRun[run] then byRun[run][room] else {}
  }

  function Joined(byRun: ByRun, m: Membership): ByRun {
    var run, room := m.grant.runId, RoomKey(m.grant);
    var rooms := if run in byRun then byRun[run] else map[];
    byRun[run := rooms[room := MembersAt(byRun, run, room) + {m}]]
  }

  /** A room that empties goes, and its run with the last of them. */
  function Left(byRun: ByRun, m: Membership): ByRun {
    var run, room := m.grant.runId, RoomKey(m.grant);
    if run !in byRun || room !in byRun[run] then byRun
    else
      var members := byRun[run][room] - {m};
      var rooms := if members == {} then byRun[run] - {room} else byRun[run][room := members];
      if rooms == map[] then byRun - {run} else byRun[run := rooms]
  }

  /** Every membership in the one index is in the other, in its own room and no other, and no room is empty. */
  ghost predicate Indexed(byRun: ByRun, byPeer: map<Peer, Membership>) {
    && (forall p :: p in byPeer ==> byPeer[p].peer == p)
    && (forall run, room, m :: m in MembersAt(byRun, run, room) <==>
                                 At(byPeer, m.peer) == Some(m) && run == m.grant.runId && room == RoomKey(m.grant))
    && (forall run :: run in byRun ==> byRun[run] != map[])
    && (forall run, room :: run in byRun && room in byRun[run] ==> byRun[run][room] != {})
  }

  lemma JoinedAt(byRun: ByRun, m: Membership, run: Id, room: Key, x: Membership)
    ensures x in MembersAt(Joined(byRun, m), run, room) <==>
            x in MembersAt(byRun, run, room) || (x == m && run == m.grant.runId && room == RoomKey(m.grant))
  {
  }

  lemma LeftAt(byRun: ByRun, m: Membership, run: Id, room: Key, x: Membership)
    ensures x in MembersAt(Left(byRun, m), run, room) <==>
            x in MembersAt(byRun, run, room) && !(x == m && run == m.grant.runId && room == RoomKey(m.grant))
  {
    var next, key := Left(byRun, m), RoomKey(m.grant);
    if m.grant.runId in byRun && key in byRun[m.grant.runId] {
      if run != m.grant.runId {
        assert run in next <==> run in byRun;
      } else {
        var members := byRun[run][key] - {m};
        var rooms := if members == {} then byRun[run] - {key} else byRun[run][key := members];
        assert room in rooms <==> room in byRun[run] && (room != key || members != {});
        assert run in next <==> rooms != map[];
        assert room in rooms ==> rooms != map[];
        assert x in byRun[run][key] && x != m ==> x in members;
        assert rooms != map[] ==> next == byRun[run := rooms];
      }
    }
  }

  lemma JoinKeepsIndexed(byRun: ByRun, byPeer: map<Peer, Membership>, m: Membership)
    requires Indexed(byRun, byPeer) && m.peer !in byPeer
    ensures Indexed(Joined(byRun, m), byPeer[m.peer := m])
  {
    forall run, room, x
      ensures x in MembersAt(Joined(byRun, m), run, room) <==>
              At(byPeer[m.peer := m], x.peer) == Some(x) && run == x.grant.runId && room == RoomKey(x.grant)
    {
      JoinedAt(byRun, m, run, room, x);
    }
    var next := Joined(byRun, m);
    assert RoomKey(m.grant) in next[m.grant.runId] && m in next[m.grant.runId][RoomKey(m.grant)];
    assert forall run :: run in next && run != m.grant.runId ==> run in byRun && next[run] == byRun[run];
  }

  lemma LeaveKeepsIndexed(byRun: ByRun, byPeer: map<Peer, Membership>, p: Peer)
    requires Indexed(byRun, byPeer) && p in byPeer
    ensures Indexed(Left(byRun, byPeer[p]), byPeer - {p})
  {
    var m := byPeer[p];
    forall run, room, x
      ensures x in MembersAt(Left(byRun, m), run, room) <==>
              At(byPeer - {p}, x.peer) == Some(x) && run == x.grant.runId && room == RoomKey(x.grant)
    {
      LeftAt(byRun, m, run, room, x);
    }
  }

  // ---- what a room is sent ----

  function Payload(cohort: Cohort, events: seq<Event>): seq<Event> {
    Visible(cohort.Redacted?, events)
  }

  lemma {:induction false} NoLogIsLeft(events: seq<Event>)
    ensures forall i :: 0 <= i < |NoLogs(events)| ==> !NoLogs(events)[i].body.Log?
  {
    if events != [] {
      NoLogIsLeft(events[1..]);
    }
  }

  type Frames = seq<(Peer, seq<Event>)>

  /** What one peer got. */
  function FramesTo(frames: Frames, p: Peer): seq<seq<Event>> {
    if frames == [] then []
    else
      var before, last := FramesTo(frames[..|frames| - 1], p), frames[|frames| - 1];
      if last.0 == p then before + [last.1] else before
  }

  lemma {:induction false} FramesThen(frames: Frames, p: Peer, events: seq<Event>, q: Peer)
    ensures FramesTo(frames + [(p, events)], q) == if q == p then FramesTo(frames, q) + [events] else FramesTo(frames, q)
  {
    assert (frames + [(p, events)])[..|frames|] == frames;
  }

  class RunHub {
    var byRun: ByRun
    var byPeer: map<Peer, Membership>
    var serial: nat

    ghost predicate Valid()
      reads this
    {
      Indexed(byRun, byPeer)
    }

    constructor ()
      ensures Valid() && byPeer == map[]
    {
      byRun, byPeer, serial := map[], map[], 0;
    }

    method Unsubscribe(peer: Peer)
      requires Valid()
      modifies this
      ensures Valid() && byPeer == old(byPeer) - {peer}
    {
      if peer !in byPeer {
        return;
      }
      LeaveKeepsIndexed(byRun, byPeer, peer);
      byRun, byPeer := Left(byRun, byPeer[peer]), byPeer - {peer};
    }

    /** Re-subscribing moves a peer: it is in the one room of its last grant. */
    method Subscribe(peer: Peer, grant: Grant)
      requires Valid()
      modifies this
      ensures Valid() && GrantAt(byPeer, peer) == Some(grant)
      ensures forall p :: p != peer ==> GrantAt(byPeer, p) == GrantAt(old(byPeer), p)
    {
      Unsubscribe(peer);
      var membership := Membership(serial, peer, grant);
      JoinKeepsIndexed(byRun, byPeer, membership);
      byRun, byPeer, serial := Joined(byRun, membership), byPeer[peer := membership], serial + 1;
    }

    /** A socket that throws is dropped. */
    method Deliver(p: Peer, payload: seq<Event>, dead: set<Peer>, frames: Frames) returns (frames': Frames)
      requires Valid()
      modifies this
      ensures Valid() && byPeer == (if p in dead then old(byPeer) - {p} else old(byPeer))
      ensures forall q :: FramesTo(frames', q) == FramesTo(frames, q) + if q == p && p !in dead then [payload] else []
    {
      frames' := frames;
      if p in dead {
        Unsubscribe(p);
      } else {
        frames' := frames + [(p, payload)];
        forall q {
          FramesThen(frames, p, payload, q);
        }
      }
    }

    method DeliverRoom(members: set<Membership>, payload: seq<Event>, dead: set<Peer>, frames: Frames) returns (frames': Frames)
      requires Valid() && forall m, n :: m in members && n in members && m.peer == n.peer ==> m == n
      modifies this
      ensures Valid() && byPeer == old(byPeer) - (PeersOf(members) * dead)
      ensures forall q :: FramesTo(frames', q) == FramesTo(frames, q) + if q in PeersOf(members) && q !in dead then [payload] else []
    {
      frames' := frames;
      var left := members;
      while left != {}
        invariant left <= members && Valid() && byPeer == old(byPeer) - (PeersOf(members - left) * dead)
        invariant forall q :: FramesTo(frames', q) == FramesTo(frames, q) + if q in PeersOf(members - left) && q !in dead then [payload] else []
        decreases left
      {
        var m :| m in left;
        OneMoreMember(members, left, m);
        frames' := Deliver(m.peer, payload, dead, frames');
        left := left - {m};
      }
      assert members - left == members;
    }

    /**
     `publish`: every peer watching the run gets its cohort's part of the batch, once, and nobody else gets
     anything; a peer whose socket throws is dropped.
     */
    method Publish(run: Id, events: seq<Event>, dead: set<Peer>) returns (frames: Frames)
      requires Valid()
      modifies this
      ensures Valid() && Delivered(old(byPeer), byPeer, frames, Audience(old(byPeer), run, events), dead, events)
    {
      frames := [];
      if events == [] || run !in byRun {
        NobodyThere(byRun, byPeer, run, events);
        return;
      }
      var rooms := byRun[run];
      var left := rooms.Keys;
      while left != {}
        invariant left <= rooms.Keys && Valid()
        invariant Delivered(old(byPeer), byPeer, frames, Reached(old(byPeer), run, rooms.Keys - left, events), dead, events)
        decreases left
      {
        var room :| room in left;
        ghost var mid, said := byPeer, frames;
        RoomReached(old(byRun), old(byPeer), run, rooms.Keys - left, room, events);
        assert rooms.Keys - (left - {room}) == (rooms.Keys - left) + {room};
        var payload := Payload(room.cohort, events);
        if payload != [] {
          OnePeerEach(old(byRun), old(byPeer), run, room);
          frames := DeliverRoom(rooms[room], payload, dead, frames);
          RoomCohort(old(byRun), old(byPeer), run, room);
          DeliveredMore(old(byPeer), mid, byPeer, said, frames, Reached(old(byPeer), run, rooms.Keys - left, events),
                        PeersOf(rooms[room]), dead, events, room.cohort);
        }
        left := left - {room};
      }
      AllReached(old(byRun), old(byPeer), run, events);
      assert rooms.Keys - left == rooms.Keys;
    }

    /**
     `revalidate` once the roles are here, of the memberships it noted before it asked: who has no role is told
     so and gone, whose cohort changed is told so and put into its noted room's other cohort, and the rest stay
     where they are by now. A check that failed changes nothing. With nobody come, gone or moved meanwhile,
     everyone left is in the cohort of its current role.
     */
    method Revalidate(noted: map<Peer, Membership>, roles: Option<map<(Id, Id), OrgRole>>, dead: set<Peer>)
      returns (moved: nat, evicted: nat, toldMoved: set<Peer>, toldEvicted: set<Peer>)
      requires Valid() && forall p :: p in noted ==> noted[p].peer == p
      modifies this
      ensures Valid()
      ensures roles.None? ==> byPeer == old(byPeer) && moved == evicted == 0 && toldMoved == toldEvicted == {}
      ensures roles.Some? ==> CheckedBut(old(byPeer), byPeer, noted, roles.value, {}, dead)
      ensures roles.Some? ==> moved == |Moved(noted, roles.value)| && evicted == |Evicted(noted, roles.value)|
      ensures roles.Some? ==> toldMoved == Moved(noted, roles.value) - dead && toldEvicted == Evicted(noted, roles.value) - dead
      ensures roles.Some? && noted == old(byPeer) ==> forall p :: p in byPeer ==> InCohort(byPeer[p].grant, roles.value)
    {
      moved, evicted, toldMoved, toldEvicted := 0, 0, {}, {};
      if roles.None? {
        return;
      }
      var left := noted.Keys;
      var out: set<Peer>, over: set<Peer> := {}, {};
      ghost var was := byPeer;
      assert Tallied(noted, roles.value, left, out, over, evicted, moved);
      while left != {}
        invariant left <= noted.Keys && Valid()
        invariant CheckedBut(was, byPeer, noted, roles.value, left, dead)
        invariant Tallied(noted, roles.value, left, out, over, evicted, moved)
        decreases left
      {
        var p :| p in left;
        ghost var before := byPeer;
        var fate := Recheck(p, noted[p].grant, roles.value, p in dead);
        OneMoreChecked(was, before, byPeer, noted, roles.value, left, dead, p);
        OneMoreTallied(noted, roles.value, left, out, over, evicted, moved, p);
        left := left - {p};
        if fate == Out {
          out, evicted := out + {p}, evicted + 1;
        } else if fate == Over {
          over, moved := over + {p}, moved + 1;
        }
      }
      toldMoved, toldEvicted := over - dead, out - dead;
      AllTallied(noted, roles.value, out, over, evicted, moved);
      if noted == was {
        AllInCohort(was, byPeer, roles.value, dead);
      }
    }

    /** One turn of its loop. */
    method Recheck(p: Peer, grant: Grant, roles: map<(Id, Id), OrgRole>, dead: bool) returns (fate: Fate)
      requires Valid()
      modifies this
      ensures Valid() && fate == FateOf(grant, roles)
      ensures GrantAt(byPeer, p) == Rechecked(GrantAt(old(byPeer), p), grant, roles, dead)
      ensures forall q :: q != p ==> GrantAt(byPeer, q) == GrantAt(old(byPeer), q)
    {
      if (grant.orgId, grant.userId) !in roles {
        Unsubscribe(p);
        return Out;
      }
      var current := CohortFor(roles[(grant.orgId, grant.userId)]);
      if current == grant.cohort {
        return Stays;
      }
      Subscribe(p, grant.(cohort := current));
      if dead {
        Unsubscribe(p);
      }
      fate := Over;
    }
  }

  datatype Fate = Stays | Out | Over

  function FateOf(g: Grant, roles: map<(Id, Id), OrgRole>): Fate {
    if (g.orgId, g.userId) !in roles then Out
    else if CohortFor(roles[(g.orgId, g.userId)]) == g.cohort then Stays else Over
  }

  /** Where a check leaves a peer that is at `now`; one that has to be told of a move and throws is dropped. */
  function Rechecked(now: Option<Grant>, g: Grant, roles: map<(Id, Id), OrgRole>, dead: bool): Option<Grant> {
    if (g.orgId, g.userId) !in roles then None
    else
      var current := CohortFor(roles[(g.orgId, g.userId)]);
      if current == g.cohort then now else if dead then None else Some(g.(cohort := current))
  }

  function Evicted(noted: map<Peer, Membership>, roles: map<(Id, Id), OrgRole>): set<Peer> {
    set p | p in noted && FateOf(noted[p].grant, roles) == Out
  }

  function Moved(noted: map<Peer, Membership>, roles: map<(Id, Id), OrgRole>): set<Peer> {
    set p | p in noted && FateOf(noted[p].grant, roles) == Over
  }

  /** The noted peers not in `left` are where the check leaves them; everyone else is where it was. */
  ghost predicate CheckedBut(was: map<Peer, Membership>, now: map<Peer, Membership>, noted: map<Peer, Membership>,
                             roles: map<(Id, Id), OrgRole>, left: set<Peer>, dead: set<Peer>) {
    forall p :: GrantAt(now, p) ==
      if p in noted && p !in left then Rechecked(GrantAt(was, p), noted[p].grant, roles, p in dead) else GrantAt(was, p)
  }

  ghost predicate Tallied(noted: map<Peer, Membership>, roles: map<(Id, Id), OrgRole>, left: set<Peer>,
                          out: set<Peer>, over: set<Peer>, evicted: nat, moved: nat) {
    out == Evicted(noted, roles) - left && over == Moved(noted, roles) - left && evicted == |out| && moved == |over|
  }

  lemma OneMoreChecked(was: map<Peer, Membership>, before: map<Peer, Membership>, now: map<Peer, Membership>, noted: map<Peer, Membership>,
                       roles: map<(Id, Id), OrgRole>, left: set<Peer>, dead: set<Peer>, p: Peer)
    requires p in noted && p in left && CheckedBut(was, before, noted, roles, left, dead)
    requires GrantAt(now, p) == Rechecked(GrantAt(before, p), noted[p].grant, roles, p in dead)
    requires forall q :: q != p ==> GrantAt(now, q) == GrantAt(before, q)
    ensures CheckedBut(was, now, noted, roles, left - {p}, dead)
  {
  }

  lemma OneMoreTallied(noted: map<Peer, Membership>, roles: map<(Id, Id), OrgRole>, left: set<Peer>,
                       out: set<Peer>, over: set<Peer>, evicted: nat, moved: nat, p: Peer)
    requires p in noted && p in left && Tallied(noted, roles, left, out, over, evicted, moved)
    ensures match FateOf(noted[p].grant, roles)
            case Out => Tallied(noted, roles, left - {p}, out + {p}, over, evicted + 1, moved)
            case Over => Tallied(noted, roles, left - {p}, out, over + {p}, evicted, moved + 1)
            case Stays => Tallied(noted, roles, left - {p}, out, over, evicted, moved)
  {
  }

  lemma AllTallied(noted: map<Peer, Membership>, roles: map<(Id, Id), OrgRole>, out: set<Peer>, over: set<Peer>, evicted: nat, moved: nat)
    requires Tallied(noted, roles, {}, out, over, evicted, moved)
    ensures out == Evicted(noted, roles) && over == Moved(noted, roles) && evicted == |out| && moved == |over|
  {
  }

  predicate InCohort(g: Grant, roles: map<(Id, Id), OrgRole>) {
    (g.orgId, g.userId) in roles && (g.cohort == Redacted <==> roles[(g.orgId, g.userId)] == Viewer)
  }

  lemma AllInCohort(was: map<Peer, Membership>, now: map<Peer, Membership>, roles: map<(Id, Id), OrgRole>, dead: set<Peer>)
    requires CheckedBut(was, now, was, roles, {}, dead)
    ensures forall p :: p in now ==> InCohort(now[p].grant, roles)
  {
    forall p | p in now
      ensures InCohort(now[p].grant, roles)
    {
      assert GrantAt(now, p) == Some(now[p].grant);
    }
  }

  /**
   A peer that left while the roles were asked for is put back into a room if and only if its cohort changed;
   one that subscribed elsewhere meanwhile is then taken back to the run it had left.
   */
  lemma OvertakenByCheckExactly(now: Option<Grant>, g: Grant, roles: map<(Id, Id), OrgRole>)
    requires now.Some? ==> now.value.runId != g.runId
    ensures var after := Rechecked(now, g, roles, false);
            after.Some? && after.value.runId == g.runId <==> FateOf(g, roles) == Over
  {
  }

  /** Such a peer: it is noted, leaves while the roles are asked for, and its editor has become a viewer. */
  method LeftPeerIsPutBack(peer: Peer, user: Id, org: Id, run: Id) returns (hub: RunHub)
    ensures fresh(hub) && hub.Valid() && GrantAt(hub.byPeer, peer) == Some(Grant(user, org, run, Redacted))
  {
    hub := new RunHub();
    hub.Subscribe(peer, Grant(user, org, run, Full));
    var noted := hub.byPeer;
    hub.Unsubscribe(peer);
    assert GrantAt(hub.byPeer, peer) == None;
    var moved, evicted, toldMoved, toldEvicted := hub.Revalidate(noted, Some(map[(org, user) := Viewer]), {});
  }

  lemma OneMoreMember(members: set<Membership>, left: set<Membership>, m: Membership)
    requires m in left && left <= members && forall x, y :: x in members && y in members && x.peer == y.peer ==> x == y
    ensures PeersOf(members - (left - {m})) == PeersOf(members - left) + {m.peer} && m.peer !in PeersOf(members - left)
  {
    assert members - (left - {m}) == (members - left) + {m};
  }

  function GrantAt(byPeer: map<Peer, Membership>, p: Peer): Option<Grant> {
    if p in byPeer then Some(byPeer[p].grant) else None
  }

  /** The peers a batch concerns: those that watch its run and whose cohort has a part of it. */
  function Audience(byPeer: map<Peer, Membership>, run: Id, events: seq<Event>): set<Peer> {
    set p | p in byPeer && byPeer[p].grant.runId == run && Payload(byPeer[p].grant.cohort, events) != []
  }

  function Reached(byPeer: map<Peer, Membership>, run: Id, rooms: set<Key>, events: seq<Event>): set<Peer> {
    set p | p in Audience(byPeer, run, events) && RoomKey(byPeer[p].grant) in rooms
  }

  /** Each of `peers` that is not dead has got its part, the dead among them are gone, and that is all. */
  ghost predicate Delivered(was: map<Peer, Membership>, now: map<Peer, Membership>, frames: Frames, peers: set<Peer>,
                            dead: set<Peer>, events: seq<Event>) {
    && peers <= was.Keys && now == was - (peers * dead)
    && forall q :: FramesTo(frames, q) == if q in peers && q !in dead then [Payload(was[q].grant.cohort, events)] else []
  }

  lemma {:induction false} DeliveredMore(was: map<Peer, Membership>, mid: map<Peer, Membership>, now: map<Peer, Membership>,
                      frames: Frames, frames': Frames, peers: set<Peer>, more: set<Peer>, dead: set<Peer>,
                      events: seq<Event>, cohort: Cohort)
    requires Delivered(was, mid, frames, peers, dead, events) && peers !! more && more <= was.Keys
    requires now == mid - (more * dead) && forall p :: p in more ==> was[p].grant.cohort == cohort
    requires forall q :: FramesTo(frames', q) == FramesTo(frames, q) + if q in more && q !in dead then [Payload(cohort, events)] else []
    ensures Delivered(was, now, frames', peers + more, dead, events)
  {
    assert (peers + more) * dead == (peers * dead) + (more * dead);
  }

  lemma RoomCohort(byRun: ByRun, byPeer: map<Peer, Membership>, run: Id, room: Key)
    requires Indexed(byRun, byPeer)
    ensures forall p :: p in PeersOf(MembersAt(byRun, run, room)) ==> p in byPeer && byPeer[p].grant.cohort == room.cohort
  {
  }

  lemma OnePeerEach(byRun: ByRun, byPeer: map<Peer, Membership>, run: Id, room: Key)
    requires Indexed(byRun, byPeer)
    ensures forall m, n :: m in MembersAt(byRun, run, room) && n in MembersAt(byRun, run, room) && m.peer == n.peer ==> m == n
  {
  }

  lemma RoomReached(byRun: ByRun, byPeer: map<Peer, Membership>, run: Id, rooms: set<Key>, room: Key, events: seq<Event>)
    requires Indexed(byRun, byPeer) && room !in rooms
    ensures Reached(byPeer, run, rooms + {room}, events) == Reached(byPeer, run, rooms, events) +
              if Payload(room.cohort, events) != [] then PeersOf(MembersAt(byRun, run, room)) else {}
    ensures Reached(byPeer, run, rooms, events) !! PeersOf(MembersAt(byRun, run, room))
  {
  }

  lemma AllReached(byRun: ByRun, byPeer: map<Peer, Membership>, run: Id, events: seq<Event>)
    requires Indexed(byRun, byPeer) && run in byRun
    ensures Reached(byPeer, run, byRun[run].Keys, events) == Audience(byPeer, run, events)
  {
    forall p | p in Audience(byPeer, run, events)
      ensures RoomKey(byPeer[p].grant) in byRun[run]
    {
      assert byPeer[p] in MembersAt(byRun, run, RoomKey(byPeer[p].grant));
    }
  }

  lemma NobodyThere(byRun: ByRun, byPeer: map<Peer, Membership>, run: Id, events: seq<Event>)
    requires Indexed(byRun, byPeer) && (events == [] || run !in byRun)
    ensures Audience(byPeer, run, events) == {}
  {
    forall p | p in byPeer && byPeer[p].grant.runId == run
      ensures run in byRun
    {
      assert byPeer[p] in MembersAt(byRun, run, RoomKey(byPeer[p].grant));
    }
  }

  function PeersOf(members: set<Membership>): set<Peer> {
    set m | m in members :: m.peer
  }

  // ---- the theorem ----

  /** After any publish, no peer in the redacted cohort has got a log event. */
  lemma {:induction false} RedactedGetsNoLogs(was: map<Peer, Membership>, now: map<Peer, Membership>, frames: Frames, run: Id,
                           dead: set<Peer>, events: seq<Event>, p: Peer)
    requires Delivered(was, now, frames, Audience(was, run, events), dead, events)
    requires p in was && was[p].grant.cohort.Redacted?
    ensures forall i, j :: 0 <= i < |FramesTo(frames, p)| && 0 <= j < |FramesTo(frames, p)[i]| ==> !FramesTo(frames, p)[i][j].body.Log?
  {
    NoLogIsLeft(events);
  }
}
