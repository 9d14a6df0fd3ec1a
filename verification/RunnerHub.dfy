/**
 Runner availability by room (`runner-hub.ts`): every subscription and every refresh loads a snapshot
 before it sends, and meanwhile peers join, leave and move. A room is an object here as it is there: one
 that emptied and was opened again is another.
 */
module RunnerHubModel {
  import opened Wrappers

  type Peer(==, !new)
  /** An org and an audience. */
  type Key(==, !new)
  /** A snapshot without its timestamp. */
  type Signature(==, !new)

  datatype Membership = Membership(serial: nat, peer: Peer, key: Key, room: nat)

  datatype Room = Room(key: Key, members: set<Membership>, last: Option<Signature>)

  /** A snapshot on its way: for a subscription, or for a room that is being refreshed. */
  datatype Load = ForSubscriber(who: Membership) | ForRoom(id: nat)

  /** The last frame a peer got: whose view, and what it said. */
  datatype Frame = Frame(key: Key, signature: Signature)

  datatype Hub = Hub(
    objects: map<nat, Room>,
    rooms: map<Key, nat>,
    byPeer: map<Peer, Membership>,
    loading: set<Load>,
    shown: map<Peer, Frame>,
    /** The memberships a revalidation took note of before it asked for their roles. */
    checking: set<Membership>,
    nextId: nat)

  const NOBODY := Hub(map[], map[], map[], {}, map[], {}, 0)

  // ---- the operations ----

  function Unsubscribe(h: Hub, p: Peer): Hub {
    if p !in h.byPeer then h
    else
      var m := h.byPeer[p];
      var h' := h.(byPeer := h.byPeer - {p});
      if m.key !in h.rooms || h.rooms[m.key] !in h.objects then h'
      else
        var id := h.rooms[m.key];
        var room := h.objects[id];
        var left := room.members - {m};
        h'.(objects := h.objects[id := room.(members := left)],
            rooms := if left == {} then h.rooms - {m.key} else h.rooms)
  }

  /** `rooms.get(key) ?? { … }`: the key's room, or a new one. */
  function RoomFor(h: Hub, key: Key): (nat, Room) {
    if key in h.rooms && h.rooms[key] in h.objects then (h.rooms[key], h.objects[h.rooms[key]])
    else (h.nextId, Room(key, {}, None))
  }

  /** A peer put into a room, what the room last sent being kept or forgotten. */
  function Join(h: Hub, p: Peer, key: Key, forget: bool): Hub {
    var (id, room) := RoomFor(h, key);
    var m := Membership(h.nextId, p, key, id);
    h.(objects := h.objects[id := Room(room.key, room.members + {m}, if forget then None else room.last)],
       rooms := h.rooms[key := id], byPeer := h.byPeer[p := m], nextId := h.nextId + 1)
  }

  function Enter(h: Hub, p: Peer, key: Key, forget: bool): Hub {
    Join(Unsubscribe(h, p), p, key, forget)
  }

  /** `subscribe`, up to its `await`. */
  function Subscribe(h: Hub, p: Peer, key: Key): Hub {
    var in' := Enter(h, p, key, false);
    if p in in'.byPeer then in'.(loading := in'.loading + {ForSubscriber(in'.byPeer[p])}) else in'
  }

  function Peers(members: set<Membership>): set<Peer> {
    set m | m in members :: m.peer
  }

  /** A changed frame goes to every member. */
  function SendAll(h: Hub, id: nat, s: Signature): Hub {
    if id !in h.objects then h
    else
      var room := h.objects[id];
      var peers := Peers(room.members);
      h.(objects := h.objects[id := room.(last := Some(s))],
         shown := map p | p in h.shown.Keys + peers :: if p in peers then Frame(room.key, s) else h.shown[p])
  }

  /** The rest of `subscribe`: the newcomer alone, if the room has already seen this, or everyone. */
  function Arrived(h: Hub, who: Membership, s: Signature): Hub {
    var done := h.(loading := h.loading - {ForSubscriber(who)});
    if who.room !in h.objects then done
    else if h.objects[who.room].last == Some(s) then done.(shown := h.shown[who.peer := Frame(who.key, s)])
    else SendAll(done, who.room, s)
  }

  /** A load that fails rejects, and the socket's handler unsubscribes the peer. */
  function Rejected(h: Hub, who: Membership): Hub {
    Unsubscribe(h.(loading := h.loading - {ForSubscriber(who)}), who.peer)
  }

  function Refreshed(h: Hub, id: nat, s: Option<Signature>): Hub {
    var done := h.(loading := h.loading - {ForRoom(id)});
    if s.None? || id !in h.objects || h.objects[id].last == s then done else SendAll(done, id, s.value)
  }

  /** `revalidate`, up to its first `await`. */
  function CheckAsked(h: Hub): Hub {
    h.(checking := h.checking + h.byPeer.Values)
  }

  /** `move`, once the roles are here: of a membership noted before, whatever became of it since. */
  function Move(h: Hub, who: Membership, key: Key): Hub {
    Enter(h, who.peer, key, true).(checking := h.checking - {who})
  }

  function Evict(h: Hub, who: Membership): Hub {
    Unsubscribe(h, who.peer).(checking := h.checking - {who})
  }

  /** The hub, one handler per callback. */
  class RunnerHub {
    var objects: map<nat, Room>
    var rooms: map<Key, nat>
    var byPeer: map<Peer, Membership>
    var loading: set<Load>
    var shown: map<Peer, Frame>
    var checking: set<Membership>
    var nextId: nat

    ghost function State(): Hub
      reads this
    {
      Hub(objects, rooms, byPeer, loading, shown, checking, nextId)
    }

    constructor ()
      ensures State() == NOBODY
    {
      objects, rooms, byPeer, loading, shown, checking, nextId := map[], map[], map[], {}, map[], {}, 0;
    }

    method Drop(p: Peer)
      modifies this
      ensures State() == Unsubscribe(old(State()), p)
    {
      if p !in byPeer {
        return;
      }
      var m := byPeer[p];
      byPeer := byPeer - {p};
      if m.key !in rooms || rooms[m.key] !in objects {
        return;
      }
      var id := rooms[m.key];
      var left := objects[id].members - {m};
      objects := objects[id := objects[id].(members := left)];
      if left == {} {
        rooms := rooms - {m.key};
      }
    }

    method Put(p: Peer, key: Key, forget: bool) returns (m: Membership)
      modifies this
      ensures State() == Enter(old(State()), p, key, forget) && p in byPeer && m == byPeer[p]
    {
      Drop(p);
      var id, room := nextId, Room(key, {}, None);
      if key in rooms && rooms[key] in objects {
        id, room := rooms[key], objects[rooms[key]];
      }
      m := Membership(nextId, p, key, id);
      objects := objects[id := Room(room.key, room.members + {m}, if forget then None else room.last)];
      rooms, byPeer, nextId := rooms[key := id], byPeer[p := m], nextId + 1;
    }

    method OnSubscribe(p: Peer, key: Key)
      modifies this
      ensures State() == Subscribe(old(State()), p, key)
      ensures p in byPeer && byPeer[p].peer == p && byPeer[p].key == key && key in rooms && byPeer[p].room == rooms[key]
      ensures byPeer[p].room in objects && byPeer[p] in objects[byPeer[p].room].members && ForSubscriber(byPeer[p]) in loading
      ensures shown == old(shown) && forall q :: q != p ==> At(byPeer, q) == At(old(byPeer), q)
    {
      var m := Put(p, key, false);
      loading := loading + {ForSubscriber(m)};
    }

    method OnCheckAsked()
      modifies this
      ensures State() == CheckAsked(old(State()))
    {
      checking := checking + byPeer.Values;
    }

    method MovePeer(who: Membership, key: Key)
      modifies this
      ensures State() == Move(old(State()), who, key)
      ensures var p := who.peer;
              && p in byPeer && byPeer[p].peer == p && byPeer[p].key == key && key in rooms && byPeer[p].room == rooms[key]
              && byPeer[p].room in objects && byPeer[p] in objects[byPeer[p].room].members && objects[byPeer[p].room].last == None
      ensures shown == old(shown) && forall q :: q != who.peer ==> At(byPeer, q) == At(old(byPeer), q)
      ensures checking == old(checking) - {who}
    {
      var _ := Put(who.peer, key, true);
      checking := checking - {who};
    }

    method EvictPeer(who: Membership)
      modifies this
      ensures State() == Evict(old(State()), who)
      ensures who.peer !in byPeer && shown == old(shown) && forall q :: q != who.peer ==> At(byPeer, q) == At(old(byPeer), q)
      ensures checking == old(checking) - {who}
    {
      Drop(who.peer);
      checking := checking - {who};
    }

    method SendRoom(id: nat, s: Signature)
      modifies this
      ensures State() == SendAll(old(State()), id, s)
    {
      if id !in objects {
        return;
      }
      var room := objects[id];
      objects := objects[id := room.(last := Some(s))];
      var left := room.members;
      ghost var was := shown;
      while left != {}
        invariant left <= room.members && State() == old(State()).(objects := objects, shown := shown)
        invariant objects == old(objects)[id := room.(last := Some(s))]
        invariant forall p :: At(shown, p) == if p in Peers(room.members - left) then Some(Frame(room.key, s)) else At(was, p)
        decreases left
      {
        var m :| m in left;
        assert room.members - (left - {m}) == (room.members - left) + {m};
        assert Peers((room.members - left) + {m}) == Peers(room.members - left) + {m.peer};
        left := left - {m};
        shown := shown[m.peer := Frame(room.key, s)];
      }
      assert room.members - left == room.members;
      SameShown(shown, was, Peers(room.members), Frame(room.key, s));
    }

    /** The load of a subscription is here. */
    method OnSnapshot(who: Membership, s: Signature)
      modifies this
      ensures State() == Arrived(old(State()), who, s)
      ensures loading == old(loading) - {ForSubscriber(who)} && SameMembers(old(State()), State())
      ensures if who.room !in old(objects) then SaysNothing(old(State()), State())
              else if old(objects)[who.room].last != Some(s) then SaysNews(old(State()), State(), who.room, s)
              else objects == old(objects) && At(shown, who.peer) == Some(Frame(who.key, s)) &&
                   forall p :: p != who.peer ==> At(shown, p) == At(old(shown), p)
    {
      NewsIsSaid(State().(loading := loading - {ForSubscriber(who)}), who.room, s);
      loading := loading - {ForSubscriber(who)};
      if who.room !in objects {
        return;
      }
      if objects[who.room].last == Some(s) {
        shown := shown[who.peer := Frame(who.key, s)];
        return;
      }
      SendRoom(who.room, s);
    }

    method OnRejected(who: Membership)
      modifies this
      ensures State() == Rejected(old(State()), who)
      ensures who.peer !in byPeer && loading == old(loading) - {ForSubscriber(who)} && shown == old(shown)
      ensures forall q :: q != who.peer ==> At(byPeer, q) == At(old(byPeer), q)
    {
      loading := loading - {ForSubscriber(who)};
      Drop(who.peer);
    }

    method OnRefreshed(id: nat, found: Option<Signature>)
      modifies this
      ensures State() == Refreshed(old(State()), id, found)
      ensures loading == old(loading) - {ForRoom(id)} && SameMembers(old(State()), State())
      ensures found.Some? && id in old(objects) ==> id in objects && objects[id].last == found
      ensures if found.Some? && id in old(objects) && old(objects)[id].last != found
              then SaysNews(old(State()), State(), id, found.value) else SaysNothing(old(State()), State())
    {
      if found.Some? {
        NewsIsSaid(State().(loading := loading - {ForRoom(id)}), id, found.value);
      }
      loading := loading - {ForRoom(id)};
      if found.None? || id !in objects || objects[id].last == found {
        return;
      }
      SendRoom(id, found.value);
    }
  }

  /** Nobody came, went or moved. */
  predicate SameMembers(before: Hub, after: Hub) {
    && after.rooms == before.rooms && after.byPeer == before.byPeer && after.nextId == before.nextId && after.checking == before.checking
    && after.objects.Keys == before.objects.Keys
    && forall id <- before.objects :: after.objects[id].members == before.objects[id].members && after.objects[id].key == before.objects[id].key
  }

  predicate SaysNothing(before: Hub, after: Hub) {
    after.objects == before.objects && after.shown == before.shown
  }

  /** Every member of the room is shown `s`, nobody else anything, and the room remembers it. */
  ghost predicate SaysNews(before: Hub, after: Hub, id: nat, s: Signature) {
    && id in before.objects && id in after.objects && after.objects[id].last == Some(s)
    && (forall m <- before.objects[id].members :: At(after.shown, m.peer) == Some(Frame(before.objects[id].key, s)))
    && (forall p :: (forall m <- before.objects[id].members :: m.peer != p) ==> At(after.shown, p) == At(before.shown, p))
    && forall i <- before.objects :: i != id ==> i in after.objects && after.objects[i] == before.objects[i]
  }

  lemma NewsIsSaid(h: Hub, id: nat, s: Signature)
    ensures id in h.objects ==> SaysNews(h, SendAll(h, id, s), id, s) && SameMembers(h, SendAll(h, id, s)) && SendAll(h, id, s).loading == h.loading
    ensures id !in h.objects ==> SendAll(h, id, s) == h
  {
    if id in h.objects {
      var members, after := h.objects[id].members, SendAll(h, id, s);
      forall m | m in members
        ensures At(after.shown, m.peer) == Some(Frame(h.objects[id].key, s))
      {
        assert m.peer in Peers(members);
      }
    }
  }

  lemma SameShown(shown: map<Peer, Frame>, was: map<Peer, Frame>, peers: set<Peer>, frame: Frame)
    requires forall p :: At(shown, p) == if p in peers then Some(frame) else At(was, p)
    ensures shown == map p | p in was.Keys + peers :: if p in peers then frame else was[p]
  {
    assert forall p :: p in shown <==> At(shown, p).Some?;
  }

  // ---- every interleaving ----

  datatype Step =
    | Subscribes(p: Peer, key: Key)
    | SubscribeLoads(who: Membership, s: Signature)
    | SubscribeFails(who: Membership)
    | Leaves(p: Peer)
    | CheckAsks
    /** A revalidation moves a peer to another audience's room, or out. */
    | Moves(m: Membership, key: Key)
    | Evicts(m: Membership)
    | RefreshAsks(key: Key)
    | RefreshEnds(id: nat, found: Option<Signature>)

  predicate Enabled(h: Hub, step: Step) {
    match step
    case SubscribeLoads(who, _) => ForSubscriber(who) in h.loading
    case SubscribeFails(who) => ForSubscriber(who) in h.loading
    case Moves(m, key) => m in h.checking && m.key != key
    case Evicts(m) => m in h.checking
    case RefreshAsks(key) => key in h.rooms
    case RefreshEnds(id, _) => ForRoom(id) in h.loading
    case _ => true
  }

  function Apply(h: Hub, step: Step): Hub
    requires Enabled(h, step)
  {
    match step
    case Subscribes(p, key) => Subscribe(h, p, key)
    case SubscribeLoads(who, s) => Arrived(h, who, s)
    case SubscribeFails(who) => Rejected(h, who)
    case Leaves(p) => Unsubscribe(h, p)
    case CheckAsks => CheckAsked(h)
    case Moves(m, key) => Move(h, m, key)
    case Evicts(m) => Evict(h, m)
    case RefreshAsks(key) => h.(loading := h.loading + {ForRoom(h.rooms[key])})
    case RefreshEnds(id, found) => Refreshed(h, id, found)
  }

  // ---- the invariants ----

  ghost predicate PeersOk(h: Hub) {
    forall p :: p in h.byPeer ==> h.byPeer[p].peer == p && h.byPeer[p].serial < h.nextId && InRoom(h, h.byPeer[p])
  }

  ghost predicate RoomsOk(h: Hub) {
    && (forall key :: key in h.rooms ==> h.rooms[key] in h.objects)
    && (forall key :: key in h.rooms ==> h.objects[h.rooms[key]].members != {} && h.objects[h.rooms[key]].key == key)
    && (forall id :: id in h.objects ==> id < h.nextId)
  }

  predicate MemberOk(h: Hub, id: nat, m: Membership) {
    At(h.byPeer, m.peer) == Some(m) && m.room == id && id in h.objects && m.key == h.objects[id].key
  }

  ghost predicate MembersOk(h: Hub) {
    forall id, m :: id in h.objects && m in h.objects[id].members ==> MemberOk(h, id, m)
  }

  predicate LoadOk(h: Hub, who: Membership) {
    who.serial < h.nextId && who.room in h.objects && h.objects[who.room].key == who.key
  }

  ghost predicate LoadsOk(h: Hub) {
    forall who :: ForSubscriber(who) in h.loading ==> LoadOk(h, who)
  }

  /** One membership object in both indexes, no empty room, and nothing numbered twice. */
  ghost predicate Indexed(h: Hub) {
    PeersOk(h) && RoomsOk(h) && MembersOk(h) && LoadsOk(h)
  }

  predicate InRoom(h: Hub, m: Membership) {
    At(h.rooms, m.key) == Some(m.room) && m.room in h.objects && m in h.objects[m.room].members
  }

  /** A member has been shown what its room last sent, or its own snapshot is on its way. */
  predicate Shown(h: Hub, m: Membership) {
    m.room in h.objects ==>
      var last := h.objects[m.room].last;
      last.Some? ==> At(h.shown, m.peer) == Some(Frame(m.key, last.value)) || ForSubscriber(m) in h.loading
  }

  ghost predicate Coherent(h: Hub) {
    forall p :: p in h.byPeer ==> Shown(h, h.byPeer[p])
  }

  /**
   The frame of a subscription its peer has since replaced, coming after all: it says what its own room
   last sent, while the room the peer is in now last sent something else, and no snapshot of that one is
   on its way to the peer.
   */
  predicate StaleFrame(h: Hub, step: Step) {
    step.SubscribeLoads? &&
    var who := step.who;
    && who.room in h.objects && h.objects[who.room].last == Some(step.s)
    && who.peer in h.byPeer && h.byPeer[who.peer] != who && Settled(h, h.byPeer[who.peer], Frame(who.key, step.s))
  }

  /** A member whose room has sent something other than `frame`, and who waits for no load. */
  predicate Settled(h: Hub, now: Membership, frame: Frame) {
    && now.room in h.objects && h.objects[now.room].last.Some?
    && Frame(now.key, h.objects[now.room].last.value) != frame && ForSubscriber(now) !in h.loading
  }

  // ---- the indexes ----

  /** What unsubscribing a peer that is there comes to. */
  lemma UnsubscribeIs(h: Hub, p: Peer)
    requires Indexed(h) && p in h.byPeer
    ensures var m := h.byPeer[p]; var left := h.objects[m.room].members - {m};
            Unsubscribe(h, p) == h.(byPeer := h.byPeer - {p},
                                    objects := h.objects[m.room := h.objects[m.room].(members := left)],
                                    rooms := if left == {} then h.rooms - {m.key} else h.rooms)
    ensures InRoom(h, h.byPeer[p])
  {
    assert InRoom(h, h.byPeer[p]);
  }

  lemma UnsubscribePeers(h: Hub, p: Peer)
    requires Indexed(h) && p in h.byPeer
    ensures PeersOk(Unsubscribe(h, p))
  {
    UnsubscribeIs(h, p);
    var m, h' := h.byPeer[p], Unsubscribe(h, p);
    forall q | q in h'.byPeer
      ensures h'.byPeer[q].peer == q && h'.byPeer[q].serial < h'.nextId && InRoom(h', h'.byPeer[q])
    {
      var n := h.byPeer[q];
      assert InRoom(h, n) && n != m;
      if n.room == m.room {
        assert n in h.objects[m.room].members - {m};
      } else {
        assert n.key != m.key;
      }
    }
  }

  lemma UnsubscribeRooms(h: Hub, p: Peer)
    requires Indexed(h) && p in h.byPeer
    ensures RoomsOk(Unsubscribe(h, p))
  {
    UnsubscribeIs(h, p);
    var m, h' := h.byPeer[p], Unsubscribe(h, p);
    forall key | key in h'.rooms
      ensures h'.rooms[key] in h'.objects && h'.objects[h'.rooms[key]].members != {} && h'.objects[h'.rooms[key]].key == key
    {
      if h.rooms[key] == m.room {
        assert h.objects[h.rooms[key]].key == key;
      }
    }
  }

  lemma UnsubscribeMembers(h: Hub, p: Peer)
    requires Indexed(h) && p in h.byPeer
    ensures MembersOk(Unsubscribe(h, p)) && LoadsOk(Unsubscribe(h, p))
  {
    UnsubscribeIs(h, p);
    var m, h' := h.byPeer[p], Unsubscribe(h, p);
    forall id, n | id in h'.objects && n in h'.objects[id].members
      ensures MemberOk(h', id, n)
    {
      assert n in h.objects[id].members && MemberOk(h, id, n);
      assert n != m && n.peer != p;
    }
    forall who | ForSubscriber(who) in h'.loading
      ensures LoadOk(h', who)
    {
      assert LoadOk(h, who);
    }
  }

  lemma UnsubscribeKeepsIndexed(h: Hub, p: Peer)
    requires Indexed(h)
    ensures Indexed(Unsubscribe(h, p)) && p !in Unsubscribe(h, p).byPeer && Unsubscribe(h, p).nextId == h.nextId
    ensures Unsubscribe(h, p).loading == h.loading && Unsubscribe(h, p).shown == h.shown
  {
    if p in h.byPeer {
      UnsubscribePeers(h, p);
      UnsubscribeRooms(h, p);
      UnsubscribeMembers(h, p);
    }
  }

  lemma JoinKeepsIndexed(h: Hub, p: Peer, key: Key, forget: bool)
    requires Indexed(h) && p !in h.byPeer
    ensures Indexed(Join(h, p, key, forget))
  {
    var (id, room) := RoomFor(h, key);
    var h', m := Join(h, p, key, forget), Membership(h.nextId, p, key, id);
    assert key in h.rooms ==> h.rooms[key] in h.objects && h.objects[id].key == key;
    JoinPeers(h, p, key, forget, id, room, m);
    JoinRooms(h, p, key, forget, id, room, m);
    JoinMembers(h, p, key, forget, id, room, m);
  }

  lemma JoinPeers(h: Hub, p: Peer, key: Key, forget: bool, id: nat, room: Room, m: Membership)
    requires Indexed(h) && p !in h.byPeer && (id, room) == RoomFor(h, key) && m == Membership(h.nextId, p, key, id)
    ensures PeersOk(Join(h, p, key, forget))
  {
  }

  lemma JoinRooms(h: Hub, p: Peer, key: Key, forget: bool, id: nat, room: Room, m: Membership)
    requires Indexed(h) && p !in h.byPeer && (id, room) == RoomFor(h, key) && m == Membership(h.nextId, p, key, id)
    ensures RoomsOk(Join(h, p, key, forget))
  {
  }

  lemma JoinMembers(h: Hub, p: Peer, key: Key, forget: bool, id: nat, room: Room, m: Membership)
    requires Indexed(h) && p !in h.byPeer && (id, room) == RoomFor(h, key) && m == Membership(h.nextId, p, key, id)
    ensures MembersOk(Join(h, p, key, forget)) && LoadsOk(Join(h, p, key, forget))
  {
    var h' := Join(h, p, key, forget);
    forall i, n | i in h'.objects && n in h'.objects[i].members
      ensures MemberOk(h', i, n)
    {
      if n != m {
        assert i in h.objects && n in h.objects[i].members;
        assert MemberOk(h, i, n);
      }
    }
    forall who | ForSubscriber(who) in h'.loading
      ensures LoadOk(h', who)
    {
      assert LoadOk(h, who);
    }
  }

  lemma EnterKeepsIndexed(h: Hub, p: Peer, key: Key, forget: bool)
    requires Indexed(h)
    ensures Indexed(Enter(h, p, key, forget)) && Enter(h, p, key, forget).loading == h.loading
  {
    UnsubscribeKeepsIndexed(h, p);
    JoinKeepsIndexed(Unsubscribe(h, p), p, key, forget);
  }

  lemma SendAllKeepsIndexed(h: Hub, id: nat, s: Signature)
    requires Indexed(h)
    ensures Indexed(SendAll(h, id, s))
  {
  }

  lemma LoadGoneKeepsIndexed(h: Hub, load: Load)
    requires Indexed(h)
    ensures Indexed(h.(loading := h.loading - {load}))
  {
  }

  /** What was shown, or is being loaded, is no matter to the indexes. */
  lemma SameIndexes(h: Hub, h': Hub)
    requires Indexed(h) && h'.objects == h.objects && h'.rooms == h.rooms && h'.byPeer == h.byPeer && h'.nextId == h.nextId
    ensures PeersOk(h') && RoomsOk(h') && MembersOk(h')
  {
  }

  lemma CheckIsNoMatter(h: Hub, h': Hub)
    requires h' == h.(checking := h'.checking)
    ensures Indexed(h) ==> Indexed(h')
    ensures Coherent(h) ==> Coherent(h')
  {
    if Indexed(h) {
      SameIndexes(h, h');
      forall who | ForSubscriber(who) in h'.loading
        ensures LoadOk(h', who)
      {
        assert LoadOk(h, who);
      }
    }
    if Coherent(h) {
      forall p | p in h'.byPeer
        ensures Shown(h', h'.byPeer[p])
      {
        assert Shown(h, h.byPeer[p]);
      }
    }
  }

  lemma StepKeepsIndexed(h: Hub, step: Step)
    requires Indexed(h) && Enabled(h, step)
    ensures Indexed(Apply(h, step))
  {
    match step
    case Subscribes(p, key) => SubscribeKeepsIndexed(h, p, key);
    case SubscribeLoads(who, s) => ArrivedKeepsIndexed(h, who, s);
    case SubscribeFails(who) =>
      LoadGoneKeepsIndexed(h, ForSubscriber(who));
      UnsubscribeKeepsIndexed(h.(loading := h.loading - {ForSubscriber(who)}), who.peer);
    case Leaves(p) => UnsubscribeKeepsIndexed(h, p);
    case CheckAsks => CheckIsNoMatter(h, CheckAsked(h));
    case Moves(m, key) =>
      EnterKeepsIndexed(h, m.peer, key, true);
      CheckIsNoMatter(Enter(h, m.peer, key, true), Move(h, m, key));
    case Evicts(m) =>
      UnsubscribeKeepsIndexed(h, m.peer);
      CheckIsNoMatter(Unsubscribe(h, m.peer), Evict(h, m));
    case RefreshAsks(key) =>
      var h' := h.(loading := h.loading + {ForRoom(h.rooms[key])});
      SameIndexes(h, h');
      forall who | ForSubscriber(who) in h'.loading
        ensures LoadOk(h', who)
      {
        assert LoadOk(h, who);
      }
    case RefreshEnds(id, found) =>
      LoadGoneKeepsIndexed(h, ForRoom(id));
      if found.Some? {
        SendAllKeepsIndexed(h.(loading := h.loading - {ForRoom(id)}), id, found.value);
      }
  }

  lemma SubscribeKeepsIndexed(h: Hub, p: Peer, key: Key)
    requires Indexed(h)
    ensures Indexed(Subscribe(h, p, key))
  {
    EnterKeepsIndexed(h, p, key, false);
    var e, h' := Enter(h, p, key, false), Subscribe(h, p, key);
    SameIndexes(e, h');
    forall who | ForSubscriber(who) in h'.loading
      ensures LoadOk(h', who)
    {
      if ForSubscriber(who) in e.loading {
        assert LoadOk(e, who);
      } else {
        assert InRoom(e, e.byPeer[p]) && MemberOk(e, who.room, who);
      }
    }
  }

  lemma ArrivedKeepsIndexed(h: Hub, who: Membership, s: Signature)
    requires Indexed(h)
    ensures Indexed(Arrived(h, who, s))
  {
    var done := h.(loading := h.loading - {ForSubscriber(who)});
    LoadGoneKeepsIndexed(h, ForSubscriber(who));
    SendAllKeepsIndexed(done, who.room, s);
    var told := done.(shown := h.shown[who.peer := Frame(who.key, s)]);
    SameIndexes(done, told);
    forall w | ForSubscriber(w) in told.loading
      ensures LoadOk(told, w)
    {
      assert LoadOk(done, w);
    }
  }

  // ---- what members have been shown ----

  lemma UnsubscribeKeepsCoherent(h: Hub, p: Peer)
    requires Indexed(h) && forall q :: q in h.byPeer && q != p ==> Shown(h, h.byPeer[q])
    ensures Coherent(Unsubscribe(h, p))
  {
  }

  lemma JoinShows(h: Hub, p: Peer, key: Key, forget: bool)
    requires Indexed(h) && Coherent(h) && p !in h.byPeer
    ensures forall q :: q in h.byPeer ==> Shown(Join(h, p, key, forget), h.byPeer[q])
    ensures forget ==> Coherent(Join(h, p, key, forget))
  {
  }

  lemma SubscribeKeepsCoherent(h: Hub, p: Peer, key: Key)
    requires Indexed(h) && Coherent(h)
    ensures Coherent(Subscribe(h, p, key))
  {
    UnsubscribeKeepsIndexed(h, p);
    UnsubscribeKeepsCoherent(h, p);
    var out := Unsubscribe(h, p);
    JoinShows(out, p, key, false);
    var h' := Subscribe(h, p, key);
    forall q | q in h'.byPeer
      ensures Shown(h', h'.byPeer[q])
    {
      if q != p {
        assert Shown(Join(out, p, key, false), out.byPeer[q]);
      }
    }
  }

  lemma SendAllKeepsCoherent(h: Hub, id: nat, s: Signature)
    requires Indexed(h) && forall q :: q in h.byPeer && h.byPeer[q].room != id ==> Shown(h, h.byPeer[q])
    ensures Coherent(SendAll(h, id, s))
  {
  }

  /** The newcomer's load is over; whoever else waits for one still does. */
  lemma OthersStillShown(h: Hub, who: Membership, q: Peer)
    requires Coherent(h) && q in h.byPeer && h.byPeer[q] != who
    ensures Shown(h.(loading := h.loading - {ForSubscriber(who)}), h.byPeer[q])
  {
    assert Shown(h, h.byPeer[q]);
  }

  lemma ArrivedCoherentExactly(h: Hub, who: Membership, s: Signature)
    requires Indexed(h) && Coherent(h) && ForSubscriber(who) in h.loading
    ensures Coherent(Arrived(h, who, s)) <==> !StaleFrame(h, SubscribeLoads(who, s))
  {
    assert LoadOk(h, who);
    var done, h' := h.(loading := h.loading - {ForSubscriber(who)}), Arrived(h, who, s);
    LoadGoneKeepsIndexed(h, ForSubscriber(who));
    if h.objects[who.room].last == Some(s) {
      forall q | q in h'.byPeer && q != who.peer
        ensures Shown(h', h'.byPeer[q])
      {
        assert InRoom(h, h.byPeer[q]);
        assert h.byPeer[q].peer == q;
        OthersStillShown(h, who, q);
      }
      if who.peer in h.byPeer {
        var now := h.byPeer[who.peer];
        assert InRoom(h, now);
        assert Shown(h', now) <==> (now == who || !Settled(h, now, Frame(who.key, s)));
      }
    } else {
      forall q | q in h.byPeer && h.byPeer[q].room != who.room
        ensures Shown(done, done.byPeer[q])
      {
        OthersStillShown(h, who, q);
      }
      SendAllKeepsCoherent(done, who.room, s);
    }
  }

  lemma RejectedKeepsCoherent(h: Hub, who: Membership)
    requires Indexed(h) && Coherent(h)
    ensures Coherent(Rejected(h, who))
  {
  }

  lemma RefreshKeepsCoherent(h: Hub, id: nat, found: Option<Signature>)
    requires Indexed(h) && Coherent(h)
    ensures Coherent(Refreshed(h, id, found))
  {
  }

  /** From a coherent state, a step leads to a coherent state if and only if it delivers no stale frame. */
  lemma StepCoherentExactly(h: Hub, step: Step)
    requires Indexed(h) && Coherent(h) && Enabled(h, step)
    ensures Coherent(Apply(h, step)) <==> !StaleFrame(h, step)
  {
    match step
    case Subscribes(p, key) => SubscribeKeepsCoherent(h, p, key);
    case SubscribeLoads(who, s) => ArrivedCoherentExactly(h, who, s);
    case SubscribeFails(who) => RejectedKeepsCoherent(h, who);
    case Leaves(p) => UnsubscribeKeepsCoherent(h, p);
    case CheckAsks => CheckIsNoMatter(h, CheckAsked(h));
    case Moves(m, key) =>
      UnsubscribeKeepsIndexed(h, m.peer);
      UnsubscribeKeepsCoherent(h, m.peer);
      JoinShows(Unsubscribe(h, m.peer), m.peer, key, true);
      CheckIsNoMatter(Enter(h, m.peer, key, true), Move(h, m, key));
    case Evicts(m) =>
      UnsubscribeKeepsCoherent(h, m.peer);
      CheckIsNoMatter(Unsubscribe(h, m.peer), Evict(h, m));
    case RefreshAsks(key) =>
      var h' := Apply(h, step);
      forall q | q in h'.byPeer
        ensures Shown(h', h'.byPeer[q])
      {
        assert Shown(h, h.byPeer[q]);
      }
    case RefreshEnds(id, found) => RefreshKeepsCoherent(h, id, found);
  }

  // ---- whole runs ----

  ghost function Outcome(steps: seq<Step>): Hub {
    if steps == [] then NOBODY
    else
      var before, step := Outcome(steps[..|steps| - 1]), steps[|steps| - 1];
      if Enabled(before, step) then Apply(before, step) else before
  }

  /** No step of the run delivers a stale frame. */
  ghost predicate NeverStale(steps: seq<Step>) {
    steps != [] ==>
      var before, step := steps[..|steps| - 1], steps[|steps| - 1];
      NeverStale(before) && (Enabled(Outcome(before), step) ==> !StaleFrame(Outcome(before), step))
  }

  lemma {:induction false} RunKeepsIndexed(steps: seq<Step>)
    ensures Indexed(Outcome(steps))
  {
    if steps != [] {
      RunKeepsIndexed(steps[..|steps| - 1]);
      if Enabled(Outcome(steps[..|steps| - 1]), steps[|steps| - 1]) {
        StepKeepsIndexed(Outcome(steps[..|steps| - 1]), steps[|steps| - 1]);
      }
    }
  }

  lemma {:induction false} RunCoherent(steps: seq<Step>)
    requires NeverStale(steps)
    ensures Coherent(Outcome(steps))
  {
    if steps != [] {
      RunCoherent(steps[..|steps| - 1]);
      RunKeepsIndexed(steps[..|steps| - 1]);
      if Enabled(Outcome(steps[..|steps| - 1]), steps[|steps| - 1]) {
        StepCoherentExactly(Outcome(steps[..|steps| - 1]), steps[|steps| - 1]);
      }
    }
  }

  /**
   Over any interleaving without a stale frame: once no load is on its way, every member of a room was
   last shown what the room last sent, or the room has sent nothing it remembers.
   */
  lemma {:induction false} MembersSeeTheirRoom(steps: seq<Step>, p: Peer)
    requires NeverStale(steps) && Outcome(steps).loading == {} && p in Outcome(steps).byPeer
    ensures var h := Outcome(steps); var m := h.byPeer[p];
            && InRoom(h, m)
            && (h.objects[m.room].last.Some? ==> At(h.shown, p) == Some(Frame(m.key, h.objects[m.room].last.value)))
  {
    RunCoherent(steps);
    RunKeepsIndexed(steps);
    var h := Outcome(steps);
    assert Shown(h, h.byPeer[p]) && InRoom(h, h.byPeer[p]);
  }

  // ---- patient peers ----

  /** The peers whose subscription is still waiting for its snapshot. */
  ghost function Waiting(steps: seq<Step>): set<Peer> {
    if steps == [] then {}
    else
      var before, step := steps[..|steps| - 1], steps[|steps| - 1];
      if !Enabled(Outcome(before), step) then Waiting(before)
      else
        match step
        case Subscribes(p, _) => Waiting(before) + {p}
        case SubscribeLoads(who, _) => Waiting(before) - {who.peer}
        case SubscribeFails(who) => Waiting(before) - {who.peer}
        case _ => Waiting(before)
  }

  /** No peer subscribes again, or is moved, while it waits; it may leave. */
  ghost predicate Patient(steps: seq<Step>) {
    steps != [] ==>
      var before, step := steps[..|steps| - 1], steps[|steps| - 1];
      && Patient(before)
      && (step.Subscribes? ==> step.p !in Waiting(before))
      && (step.Moves? ==> step.m.peer !in Waiting(before))
  }

  /** A load on its way is of a waiting peer's only subscription, which it is still in or has left. */
  ghost predicate OwnLoads(h: Hub, waiting: set<Peer>) {
    forall who :: ForSubscriber(who) in h.loading ==> OwnLoad(h, waiting, who)
  }

  ghost predicate OwnLoad(h: Hub, waiting: set<Peer>, who: Membership) {
    && who.peer in waiting && (who.peer in h.byPeer ==> h.byPeer[who.peer] == who)
    && forall other :: ForSubscriber(other) in h.loading && other.peer == who.peer ==> other == who
  }

  lemma OwnLoadsStay(h: Hub, h': Hub, waiting: set<Peer>, p: Peer)
    requires OwnLoads(h, waiting) && h'.loading == h.loading
    requires forall q :: q in h'.byPeer && q != p ==> At(h.byPeer, q) == Some(h'.byPeer[q])
    requires p !in waiting || p !in h'.byPeer
    ensures OwnLoads(h', waiting)
  {
    forall who | ForSubscriber(who) in h'.loading
      ensures OwnLoad(h', waiting, who)
    {
      assert OwnLoad(h, waiting, who);
    }
  }

  lemma OwnLoadsGrow(h: Hub, h': Hub, waiting: set<Peer>, m: Membership)
    requires OwnLoads(h, waiting) && m.peer !in waiting && h'.loading == h.loading + {ForSubscriber(m)}
    requires h'.byPeer == h.byPeer[m.peer := m]
    ensures OwnLoads(h', waiting + {m.peer})
  {
    forall who | ForSubscriber(who) in h'.loading
      ensures OwnLoad(h', waiting + {m.peer}, who)
    {
      if who != m {
        assert OwnLoad(h, waiting, who);
      }
      forall other | ForSubscriber(other) in h'.loading && other.peer == who.peer
        ensures other == who
      {
        if other != m {
          assert OwnLoad(h, waiting, other);
        }
      }
    }
  }

  lemma OwnLoadsShrink(h: Hub, h': Hub, waiting: set<Peer>, who: Membership)
    requires OwnLoads(h, waiting) && ForSubscriber(who) in h.loading && h'.loading == h.loading - {ForSubscriber(who)}
    requires h'.byPeer == h.byPeer || h'.byPeer == h.byPeer - {who.peer}
    ensures OwnLoads(h', waiting - {who.peer})
  {
    assert OwnLoad(h, waiting, who);
    forall w | ForSubscriber(w) in h'.loading
      ensures OwnLoad(h', waiting - {who.peer}, w)
    {
      assert OwnLoad(h, waiting, w);
    }
  }

  lemma RefreshIsNoLoad(h: Hub, h': Hub, waiting: set<Peer>)
    requires OwnLoads(h, waiting) && h'.byPeer == h.byPeer
    requires forall who :: ForSubscriber(who) in h'.loading ==> ForSubscriber(who) in h.loading
    ensures OwnLoads(h', waiting)
  {
    forall who | ForSubscriber(who) in h'.loading
      ensures OwnLoad(h', waiting, who)
    {
      assert OwnLoad(h, waiting, who);
    }
  }

  lemma PatientStep(h: Hub, step: Step, waiting: set<Peer>)
    requires OwnLoads(h, waiting) && Enabled(h, step)
    requires (step.Subscribes? ==> step.p !in waiting) && (step.Moves? ==> step.m.peer !in waiting)
    ensures !StaleFrame(h, step)
    ensures OwnLoads(Apply(h, step),
                     match step
                     case Subscribes(p, _) => waiting + {p}
                     case SubscribeLoads(who, _) => waiting - {who.peer}
                     case SubscribeFails(who) => waiting - {who.peer}
                     case _ => waiting)
  {
    var h' := Apply(h, step);
    match step
    case Subscribes(p, key) =>
      var out := Unsubscribe(h, p);
      OwnLoadsStay(h, out, waiting, p);
      OwnLoadsGrow(out, h', waiting, h'.byPeer[p]);
    case SubscribeLoads(who, s) =>
      assert OwnLoad(h, waiting, who);
      OwnLoadsShrink(h, h', waiting, who);
    case SubscribeFails(who) => OwnLoadsShrink(h, h', waiting, who);
    case Leaves(p) => OwnLoadsStay(h, h', waiting, p);
    case CheckAsks => RefreshIsNoLoad(h, h', waiting);
    case Moves(m, key) => OwnLoadsStay(h, h', waiting, m.peer);
    case Evicts(m) => OwnLoadsStay(h, h', waiting, m.peer);
    case RefreshAsks(key) => RefreshIsNoLoad(h, h', waiting);
    case RefreshEnds(id, found) => RefreshIsNoLoad(h, h', waiting);
  }

  /** With patient peers no stale frame is ever delivered. */
  lemma {:induction false} PatientIsNeverStale(steps: seq<Step>)
    requires Patient(steps)
    ensures NeverStale(steps) && OwnLoads(Outcome(steps), Waiting(steps))
  {
    if steps != [] {
      var before, step := steps[..|steps| - 1], steps[|steps| - 1];
      PatientIsNeverStale(before);
      if Enabled(Outcome(before), step) {
        PatientStep(Outcome(before), step, Waiting(before));
      }
    }
  }

  /** So every member of a room is looking at what it last sent, once no load is on its way. */
  lemma {:induction false} PatientPeersSeeTheirRoom(steps: seq<Step>, p: Peer)
    requires Patient(steps) && Outcome(steps).loading == {} && p in Outcome(steps).byPeer
    ensures var h := Outcome(steps); var m := h.byPeer[p];
            && InRoom(h, m)
            && (h.objects[m.room].last.Some? ==> At(h.shown, p) == Some(Frame(m.key, h.objects[m.room].last.value)))
  {
    PatientIsNeverStale(steps);
    MembersSeeTheirRoom(steps, p);
  }

  // ---- peers that have left ----

  /** Only a subscription of its own, or a revalidation that had noted it, brings back a peer that is gone. */
  lemma BroughtBackExactly(h: Hub, step: Step, p: Peer)
    requires Enabled(h, step) && p !in h.byPeer
    ensures p in Apply(h, step).byPeer <==> (step.Subscribes? && step.p == p) || (step.Moves? && step.m.peer == p)
  {
  }

  lemma RunThen(steps: seq<Step>, step: Step) returns (longer: seq<Step>)
    requires Enabled(Outcome(steps), step)
    ensures Outcome(longer) == Apply(Outcome(steps), step)
  {
    longer := steps + [step];
    assert longer[..|steps|] == steps;
  }

  /** `q` alone in room `a`, and shown `x`. */
  function OneWatches(q: Peer, a: Key, x: Signature): Hub {
    var m := Membership(0, q, a, 0);
    Hub(map[0 := Room(a, {m}, Some(x))], map[a := 0], map[q := m], {}, map[q := Frame(a, x)], {}, 1)
  }

  lemma OneWatchesReached(q: Peer, a: Key, x: Signature) returns (steps: seq<Step>)
    ensures Outcome(steps) == OneWatches(q, a, x)
  {
    var m := Membership(0, q, a, 0);
    steps := RunThen([], Subscribes(q, a));
    var h := Outcome(steps);
    var nobody: set<Membership> := {};
    assert nobody + {m} == {m};
    assert h.objects == map[0 := Room(a, {m}, None)] && h.rooms == map[a := 0] && h.byPeer == map[q := m];
    assert h.loading == {ForSubscriber(m)} && h.shown == map[] && h.nextId == 1;
    steps := RunThen(steps, SubscribeLoads(m, x));
    var h' := Outcome(steps);
    assert h'.loading == {} && Peers({m}) == {q};
    assert h'.shown == map[q := Frame(a, x)] && h'.objects == map[0 := Room(a, {m}, Some(x))];
  }

  /** Then `p` subscribes to `a`, and to `b` before the first load is back. */
  lemma BothLoadReached(p: Peer, q: Peer, a: Key, b: Key, x: Signature) returns (steps: seq<Step>)
    requires p != q && a != b
    ensures var h := Outcome(steps);
            && p in h.byPeer && h.byPeer[p] == Membership(2, p, b, 2)
            && h.loading == {ForSubscriber(Membership(1, p, a, 0)), ForSubscriber(Membership(2, p, b, 2))}
            && 0 in h.objects && h.objects[0].last == Some(x) && 2 in h.objects && h.objects[2] == Room(b, {Membership(2, p, b, 2)}, None)
  {
    var first, second, third := Membership(0, q, a, 0), Membership(1, p, a, 0), Membership(2, p, b, 2);
    steps := OneWatchesReached(q, a, x);
    steps := RunThen(steps, Subscribes(p, a));
    var h := Outcome(steps);
    assert {first} + {second} == {first, second};
    assert h.objects == map[0 := Room(a, {first, second}, Some(x))] && h.rooms == map[a := 0];
    assert h.byPeer == map[q := first, p := second] && h.loading == {ForSubscriber(second)} && h.nextId == 2;
    var out := Unsubscribe(h, p);
    assert {first, second} - {second} == {first};
    assert out.objects == map[0 := Room(a, {first}, Some(x))] && out.rooms == map[a := 0];
    steps := RunThen(steps, Subscribes(p, b));
    assert {} + {third} == {third};
  }

  /**
   A stale frame does happen: a peer subscribes to one room, then to another, and the first room's
   snapshot comes last. It is left looking at a room it is not in.
   */
  lemma StaleFrameHappens(p: Peer, q: Peer, a: Key, b: Key, x: Signature, y: Signature)
    requires p != q && a != b
    ensures exists steps :: Outcome(steps).loading == {} && !Coherent(Outcome(steps))
  {
    var second, third := Membership(1, p, a, 0), Membership(2, p, b, 2);
    var steps := BothLoadReached(p, q, a, b, x);
    steps := RunThen(steps, SubscribeLoads(third, y));
    var mid := Outcome(steps);
    assert mid.loading == {ForSubscriber(second)} && mid.objects[0].last == Some(x) && mid.objects[2].last == Some(y);
    steps := RunThen(steps, SubscribeLoads(second, x));
    var end := Outcome(steps);
    assert end.loading == {};
    assert !Shown(end, end.byPeer[p]);
  }

  /** The latter happens: the roles of a peer are asked for, it leaves, and is moved into another room after all. */
  lemma LeftPeerIsBroughtBack(p: Peer, a: Key, b: Key, x: Signature)
    requires a != b
    ensures exists steps :: steps != [] && steps[|steps| - 1] == Leaves(p) && p !in Outcome(steps).byPeer &&
                            Enabled(Outcome(steps), Moves(Membership(0, p, a, 0), b)) &&
                            p in Apply(Outcome(steps), Moves(Membership(0, p, a, 0), b)).byPeer
  {
    var m := Membership(0, p, a, 0);
    var watched := OneWatchesReached(p, a, x);
    var asked := watched + [CheckAsks];
    assert asked[..|watched|] == watched;
    assert Outcome(asked) == CheckAsked(OneWatches(p, a, x));
    assert OneWatches(p, a, x).byPeer[p] == m;
    assert m in OneWatches(p, a, x).byPeer.Values;
    var steps := asked + [Leaves(p)];
    assert steps[..|asked|] == asked;
    assert m in Outcome(steps).checking;
  }
}
