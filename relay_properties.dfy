/**
 * What the relay promises its clients, proved of the transition functions: the join
 * rules, the routing of each message kind, the route-set and leader-transfer gates, the
 * effect of a close and of a sweeper tick.
 */
module RelayProperties {
  import opened Wrappers
  import opened RelayTypes
  import opened RelayRooms
  import opened RelayTransitions
  import RelayInvariants

  /** The sender is joined to `rid`, which exists and is well formed (as the invariant keeps it). */
  ghost predicate InRoom(s: RelayState, cid: ClientId, rid: RoomId) {
    CurrentRoom(s, cid) == Some(rid) && rid in s.rooms && WellFormed(s.rooms[rid])
  }

  /**
   * What a join does to the joined room: in an existing room the table is `set` at the
   * sender (the other members keep their entries and order, a returning sender keeps its
   * place); a new room holds the sender alone.
   */
  lemma EnterRoom(s: RelayState, cid: ClientId, rid: RoomId, now: int)
    ensures var r := Enter(s, cid, rid, now);
            && rid in r.rooms
            && Lookup(r.rooms[rid].clients, cid) == Some(ClientInfo(cid, now))
            && (rid in s.rooms ==> r.rooms[rid].clients == Upsert(s.rooms[rid].clients, cid, now))
            && r.rooms[rid].leaderId ==
                 (if rid in s.rooms && s.rooms[rid].leaderId.Some? then s.rooms[rid].leaderId else Some(cid))
            && (rid !in s.rooms ==> r.rooms[rid] == Room([ClientInfo(cid, now)], Some(cid)))
  {
    if rid !in s.rooms {
      assert Ids([]) == [];
    }
  }

  /** What a join does to the rest of the registry. */
  lemma EnterElsewhere(s: RelayState, cid: ClientId, rid: RoomId, now: int)
    ensures var r := Enter(s, cid, rid, now);
            && cid in r.conns && r.conns[cid] == rid
            && (forall c :: c in s.conns && c != cid ==> c in r.conns && r.conns[c] == s.conns[c])
            && (forall x :: x in s.rooms && x != rid ==> x in r.rooms && r.rooms[x] == s.rooms[x])
  {
  }

  /**
   * A join creates the room if needed, puts the sender in it with `lastSeen = now` (the
   * other members of an existing room keep their entries and order), keeps an existing
   * leader (the sender leads a room that has none, such as a new one) and points the
   * connection at the room; other rooms are untouched.
   */
  lemma JoinState(s: RelayState, cid: ClientId, rid: RoomId, now: int)
    ensures var r := JoinRoom(s, cid, rid, now).state;
            && rid in r.rooms && cid in r.conns && r.conns[cid] == rid
            && Lookup(r.rooms[rid].clients, cid) == Some(ClientInfo(cid, now))
            && (rid in s.rooms ==> r.rooms[rid].clients == Upsert(s.rooms[rid].clients, cid, now))
            && r.rooms[rid].leaderId ==
                 (if rid in s.rooms && s.rooms[rid].leaderId.Some? then s.rooms[rid].leaderId else Some(cid))
            && (rid !in s.rooms ==> r.rooms[rid] == Room([ClientInfo(cid, now)], Some(cid)))
            && (forall x :: x in s.rooms && x != rid ==> x in r.rooms && r.rooms[x] == s.rooms[x])
  {
    assert JoinRoom(s, cid, rid, now).state == Enter(s, cid, rid, now);
    EnterRoom(s, cid, rid, now);
    EnterElsewhere(s, cid, rid, now);
  }

  /** A join answers `joined` to the sender first, then sends the presence to every member. */
  lemma JoinOutput(s: RelayState, cid: ClientId, rid: RoomId, now: int)
    ensures var r := JoinRoom(s, cid, rid, now);
            && rid in r.state.rooms && r.state.rooms[rid].leaderId.Some?
            && r.out[0] == Delivery(cid, Joined(rid, cid, r.state.rooms[rid].leaderId.value))
            && Recipients(r.out[1..]) == Ids(r.state.rooms[rid].clients)
            && (forall d :: d in r.out[1..] ==> d.message == PresenceOf(rid, r.state.rooms[rid]))
  {
    var r := JoinRoom(s, cid, rid, now);
    var room := r.state.rooms[rid];
    var ack := Delivery(cid, Joined(rid, cid, room.leaderId.value));
    var presence := ToAll(room.clients, PresenceOf(rid, room));
    assert r.out == [ack] + presence;
    assert r.out[1..] == presence;
    ToAllReachesAll(room.clients, PresenceOf(rid, room));
    assert Recipients(presence) == Ids(room.clients);
  }

  /**
   * A connection that has not joined, or whose room is gone, is ignored: any message
   * other than `join` changes nothing and is answered by nothing.
   */
  lemma NotInRoomIgnored(s: RelayState, cid: ClientId, msg: Incoming, now: int)
    requires !msg.Join?
    requires CurrentRoom(s, cid).None? || CurrentRoom(s, cid).value !in s.rooms
    ensures Handle(s, cid, msg, now) == Step(s, [])
  {
  }

  /**
   * Every recognised message other than `leader-transfer` only refreshes the sender's
   * `lastSeen`: the sender's entry gets `now`, nothing else in the state changes.
   */
  lemma MessageOnlyTouches(s: RelayState, cid: ClientId, rid: RoomId, msg: Incoming, now: int)
    requires InRoom(s, cid, rid)
    requires !msg.Join? && !msg.LeaderTransfer? && !msg.Unrecognized?
    ensures var r := Handle(s, cid, msg, now).state;
            && r == TouchIn(s, rid, cid, now)
            && r.conns == s.conns && r.order == s.order && r.rooms.Keys == s.rooms.Keys
            && (forall x :: x in s.rooms && x != rid ==> r.rooms[x] == s.rooms[x])
            && r.rooms[rid].leaderId == s.rooms[rid].leaderId
            && Ids(r.rooms[rid].clients) == Ids(s.rooms[rid].clients)
            && (cid in Ids(s.rooms[rid].clients) ==> Lookup(r.rooms[rid].clients, cid) == Some(ClientInfo(cid, now)))
  {
    RelayInvariants.RouteOnlyTouches(s, cid, rid, msg, now);
    RouteTouchKeepsIds(s, cid, rid, now);
    var cs := s.rooms[rid].clients;
    var t := Touch(cs, cid, now);
    if cid in Ids(cs) {
      var found := Lookup(t, cid).value;
      var k :| 0 <= k < |t| && t[k] == found;
      assert Ids(t)[k] == Ids(cs)[k];
    }
  }

  /** A heartbeat is answered by one `pong` carrying `now`, to the sender only. */
  lemma HeartbeatPongs(s: RelayState, cid: ClientId, rid: RoomId, x: RoomId, now: int)
    requires InRoom(s, cid, rid)
    ensures Handle(s, cid, Heartbeat(x), now).out == [Delivery(cid, Pong(rid, now))]
  {
  }

  /** A chat line goes to every member of the sender's room, the sender included, in table order. */
  lemma ChatReachesAll(s: RelayState, cid: ClientId, rid: RoomId, x: RoomId, body: string, now: int)
    requires InRoom(s, cid, rid)
    ensures var out := Handle(s, cid, Chat(x, body), now).out;
            && Recipients(out) == Ids(s.rooms[rid].clients)
            && forall d :: d in out ==> d.message == ChatOut(rid, cid, body, now)
  {
    var t := TouchIn(s, rid, cid, now);
    ToAllReachesAll(t.rooms[rid].clients, ChatOut(rid, cid, body, now));
  }

  /** A location update goes to every other member of the room, each once, never back to the sender. */
  lemma LocationReachesOthers(s: RelayState, cid: ClientId, rid: RoomId, msg: Incoming, now: int)
    requires InRoom(s, cid, rid) && msg.Location?
    ensures var out := Handle(s, cid, msg, now).out;
            && (forall d :: d in out <==>
                  && d.recipient in Ids(s.rooms[rid].clients) && d.recipient != cid
                  && d.message == LocationOut(rid, msg.riderId, cid, msg.lat, msg.lng, msg.heading, msg.speed, msg.timestamp))
            && (forall i, j :: 0 <= i < j < |out| ==> out[i].recipient != out[j].recipient)
  {
    RouteTouchKeepsIds(s, cid, rid, now);
  }

  /**
   * An offer with a non-empty target goes to that target alone, if it is a member of the
   * room; an offer without a target goes to every other member.
   */
  lemma OfferRouting(s: RelayState, cid: ClientId, rid: RoomId, x: RoomId, sdp: string, to: Option<string>, now: int)
    requires InRoom(s, cid, rid)
    ensures var out := Handle(s, cid, RtcOffer(x, sdp, to), now).out;
            && (to.Some? && to.value != "" ==>
                  && |out| <= 1
                  && (out != [] <==> to.value in Ids(s.rooms[rid].clients))
                  && forall d :: d in out ==> d == Delivery(to.value, OfferOut(rid, cid, sdp)))
            && (to.None? || to.value == "" ==>
                  forall d :: d in out <==>
                    d.recipient in Ids(s.rooms[rid].clients) && d.recipient != cid
                    && d.message == OfferOut(rid, cid, sdp))
  {
    RouteTouchKeepsIds(s, cid, rid, now);
  }

  /**
   * An answer or an ICE candidate goes only to its target: one delivery when the target
   * is a member of the sender's room, none otherwise (no target, or a stranger).
   */
  lemma AnswerAndIceDirected(s: RelayState, cid: ClientId, rid: RoomId, msg: Incoming, now: int)
    requires InRoom(s, cid, rid) && (msg.RtcAnswer? || msg.RtcIce?)
    ensures var out := Handle(s, cid, msg, now).out;
            && |out| <= 1
            && (out != [] <==> msg.to.Some? && msg.to.value in Ids(s.rooms[rid].clients))
            && forall d :: d in out ==> d.recipient == msg.to.value && d.message.from == cid
  {
    RouteTouchKeepsIds(s, cid, rid, now);
  }

  /**
   * The route-set gate: a route-set is broadcast to the whole room, sender included,
   * exactly when the sender is the room's leader; from anyone else it is dropped.
   */
  lemma RouteSetOnlyFromLeader(s: RelayState, cid: ClientId, rid: RoomId, msg: Incoming, now: int)
    requires InRoom(s, cid, rid) && msg.RouteSet?
    ensures var out := Handle(s, cid, msg, now).out;
            && (out != [] <==> s.rooms[rid].leaderId == Some(cid))
            && (out != [] ==> Recipients(out) == Ids(s.rooms[rid].clients))
            && forall d :: d in out ==> d.message == RouteSetOut(rid, msg.route, cid)
  {
    var t := TouchIn(s, rid, cid, now);
    RouteTouchKeepsIds(s, cid, rid, now);
    ToAllReachesAll(t.rooms[rid].clients, RouteSetOut(rid, msg.route, cid));
    assert |Ids(t.rooms[rid].clients)| > 0;
  }

  /**
   * The leader-transfer gate: the leader changes to `to` exactly when the sender is the
   * leader and `to` is a member of the room; then every member gets the new presence and,
   * last, the sender gets `leader-transfer`. Otherwise the leader stays and nothing is sent.
   */
  lemma LeaderTransferRule(s: RelayState, cid: ClientId, rid: RoomId, x: RoomId, to: Option<string>, now: int)
    requires InRoom(s, cid, rid)
    ensures var r := Handle(s, cid, LeaderTransfer(x, to), now);
            var ok := s.rooms[rid].leaderId == Some(cid) && to.Some? && to.value in Ids(s.rooms[rid].clients);
            && rid in r.state.rooms
            && r.state.rooms[rid].leaderId == (if ok then Some(to.value) else s.rooms[rid].leaderId)
            && (r.out != [] <==> ok)
            && (ok ==> && r.out[|r.out| - 1] == Delivery(cid, LeaderTransferOut(rid, to.value))
                       && Recipients(r.out[..|r.out| - 1]) == Ids(s.rooms[rid].clients)
                       && forall d :: d in r.out[..|r.out| - 1] ==> d.message == PresenceOf(rid, r.state.rooms[rid]))
  {
    RouteTouchKeepsIds(s, cid, rid, now);
    var r := Handle(s, cid, LeaderTransfer(x, to), now);
    var room := r.state.rooms[rid];
    var ok := s.rooms[rid].leaderId == Some(cid) && to.Some? && to.value in Ids(s.rooms[rid].clients);
    if ok {
      assert r.out[..|r.out| - 1] == ToAll(room.clients, PresenceOf(rid, room));
      ToAllReachesAll(room.clients, PresenceOf(rid, room));
    }
  }

  /** Touching the sender keeps the room's ids (the table's keys and their order). */
  lemma RouteTouchKeepsIds(s: RelayState, cid: ClientId, rid: RoomId, now: int)
    requires rid in s.rooms
    ensures var t := TouchIn(s, rid, cid, now);
            rid in t.rooms && Ids(t.rooms[rid].clients) == Ids(s.rooms[rid].clients)
            && t.rooms[rid].leaderId == s.rooms[rid].leaderId
            && (UniqueIds(s.rooms[rid].clients) ==> UniqueIds(t.rooms[rid].clients))
  {
    var cs := s.rooms[rid].clients;
    var t := Touch(cs, cid, now);
    if UniqueIds(cs) {
      forall i, j | 0 <= i < j < |t| ensures t[i].id != t[j].id {
        assert Ids(t)[i] == Ids(cs)[i] && Ids(t)[j] == Ids(cs)[j];
      }
    }
  }

  /**
   * A close takes the connection out of its room. A room left empty is deleted (and
   * leaves the registry order); otherwise a leader who stayed keeps the role, a leader who
   * left is replaced by the first remaining member, and every remaining member gets the
   * new presence.
   */
  lemma CloseEffect(s: RelayState, cid: ClientId, rid: RoomId)
    requires CurrentRoom(s, cid) == Some(rid) && rid in s.rooms && WellFormed(s.rooms[rid])
    ensures var r := Close(s, cid);
            var rest := Without(s.rooms[rid].clients, cid);
            && cid !in r.state.conns
            && (forall x :: x in s.rooms && x != rid ==> x in r.state.rooms && r.state.rooms[x] == s.rooms[x])
            && (rest == [] ==> rid !in r.state.rooms && rid !in r.state.order && r.out == [])
            && (rest != [] ==>
                  && rid in r.state.rooms && r.state.rooms[rid].clients == rest
                  && r.state.rooms[rid].leaderId ==
                       (if s.rooms[rid].leaderId == Some(cid) then Some(rest[0].id) else s.rooms[rid].leaderId)
                  && Recipients(r.out) == Ids(rest)
                  && forall d :: d in r.out ==> d.message == PresenceOf(rid, r.state.rooms[rid]))
  {
    var rest := Without(s.rooms[rid].clients, cid);
    var gone := s.(conns := s.conns - {cid});
    var left := gone.(rooms := gone.rooms[rid := gone.rooms[rid].(clients := rest)]);
    assert Close(s, cid) == Rebalance(left, rid);
    RebalanceEffect(left, rid);
    if rest != [] {
      WithoutIds(s.rooms[rid].clients, cid);
      RebalanceAfterLeave(left, rid, cid);
    }
  }

  /** `rebalance` of a non-empty room that `cid` has just left. */
  lemma RebalanceAfterLeave(s: RelayState, rid: RoomId, cid: ClientId)
    requires rid in s.rooms && s.rooms[rid].clients != [] && cid !in Ids(s.rooms[rid].clients)
    requires s.rooms[rid].leaderId.Some?
    requires s.rooms[rid].leaderId != Some(cid) ==> s.rooms[rid].leaderId.value in Ids(s.rooms[rid].clients)
    ensures var r := Rebalance(s, rid);
            var cs := s.rooms[rid].clients;
            && rid in r.state.rooms
            && r.state.rooms[rid].leaderId ==
                 (if s.rooms[rid].leaderId == Some(cid) then Some(cs[0].id) else s.rooms[rid].leaderId)
            && Recipients(r.out) == Ids(cs)
            && forall d :: d in r.out ==> d.message == PresenceOf(rid, r.state.rooms[rid])
  {
    var room := Rebalanced(s.rooms[rid]).value;
    assert Rebalance(s, rid).out == ToAll(s.rooms[rid].clients, PresenceOf(rid, room));
    ToAllReachesAll(s.rooms[rid].clients, PresenceOf(rid, room));
  }

  /** A close whose room is no longer registered only forgets the connection and sends nothing. */
  lemma CloseRoomGone(s: RelayState, cid: ClientId, rid: RoomId)
    requires CurrentRoom(s, cid) == Some(rid) && rid !in s.rooms
    ensures Close(s, cid) == Step(s.(conns := s.conns - {cid}), [])
  {
  }

  /** A close of a connection that never joined only forgets the connection. */
  lemma CloseUnjoined(s: RelayState, cid: ClientId)
    requires CurrentRoom(s, cid).None?
    ensures Close(s, cid) == Step(s.(conns := s.conns - {cid}), [])
  {
  }

  /** Every registered room has a client (part of the invariant). */
  ghost predicate NoEmptyRoom(s: RelayState) {
    forall x :: x in s.rooms ==> s.rooms[x].clients != []
  }

  /**
   * `rebalance`'s leader rule after an eviction: the room keeps a client, and a leader
   * still among the survivors keeps the role; otherwise the first survivor leads.
   */
  ghost predicate LeaderAfterEviction(before: Room, after: Room) {
    && after.clients != []
    && after.leaderId == if before.leaderId.Some? && before.leaderId.value in Ids(after.clients)
                         then before.leaderId else Some(after.clients[0].id)
  }

  /** The sweeper rebalances room `rid` and the room survives: some but not all of its clients are stale. */
  ghost predicate Reannounces(s: RelayState, rid: RoomId, now: int) {
    rid in s.rooms && 0 < |Live(s.rooms[rid].clients, now)| < |s.rooms[rid].clients|
  }

  /** The pending rooms that a sweep re-announces, in the order it visits them. */
  ghost function Reannounced(s: RelayState, pending: seq<RoomId>, now: int): (r: seq<RoomId>)
    ensures forall x :: x in r <==> x in pending && Reannounces(s, x, now)
    decreases |pending|
  {
    if pending == [] then []
    else
      assert forall x :: x in pending <==> x == pending[0] || x in pending[1..];
      (if Reannounces(s, pending[0], now) then [pending[0]] else []) + Reannounced(s, pending[1..], now)
  }

  /** The presence of every room of `rids`, as it stands in `st`, sent to all its members, room after room. */
  function Announce(st: RelayState, rids: seq<RoomId>): seq<Delivery>
    decreases |rids|
  {
    if rids == [] then [] else BroadcastPresence(st, rids[0]) + Announce(st, rids[1..])
  }

  /**
   * `Announce` reaches exactly the members of the listed rooms, each with the presence of
   * its own room.
   */
  lemma {:induction false} AnnounceReaches(st: RelayState, rids: seq<RoomId>)
    ensures forall d :: d in Announce(st, rids) <==>
              exists x :: x in rids && x in st.rooms && d.recipient in Ids(st.rooms[x].clients)
                          && d.message == PresenceOf(x, st.rooms[x])
    decreases |rids|
  {
    if rids != [] {
      AnnounceReaches(st, rids[1..]);
      PresenceReaches(st, rids[0]);
      assert forall x :: x in rids <==> x == rids[0] || x in rids[1..];
    }
  }

  /** `broadcastPresence(rid)` reaches every member of the room once, in table order, with the room's presence. */
  lemma PresenceReaches(st: RelayState, rid: RoomId)
    ensures rid in st.rooms ==> Recipients(BroadcastPresence(st, rid)) == Ids(st.rooms[rid].clients)
    ensures forall d :: d in BroadcastPresence(st, rid) <==>
              rid in st.rooms && d.recipient in Ids(st.rooms[rid].clients) && d.message == PresenceOf(rid, st.rooms[rid])
  {
    if rid in st.rooms {
      var out := BroadcastPresence(st, rid);
      ToAllReachesAll(st.rooms[rid].clients, PresenceOf(rid, st.rooms[rid]));
      forall d | d in out
        ensures d.recipient in Ids(st.rooms[rid].clients) && d.message == PresenceOf(rid, st.rooms[rid])
      {
        var i :| 0 <= i < |out| && out[i] == d;
        assert Recipients(out)[i] == d.recipient;
      }
      forall d: Delivery | d.recipient in Ids(st.rooms[rid].clients) && d.message == PresenceOf(rid, st.rooms[rid])
        ensures d in out
      {
        var i :| 0 <= i < |out| && Recipients(out)[i] == d.recipient;
        assert out[i] == d;
      }
    }
  }

  /**
   * What the sweeper does to one room: a room with no stale client is left exactly as it
   * was and nothing is sent or terminated; otherwise the stale clients are terminated, the
   * survivors stay in order under `rebalance`'s leader rule and each gets the room's new
   * presence, and a room left empty is deleted silently.
   */
  lemma SweepRoomEffect(s: RelayState, rid: RoomId, now: int)
    requires NoEmptyRoom(s)
    ensures var t := SweepRoom(s, rid, now);
            && NoEmptyRoom(t.state)
            && t.state.conns == s.conns
            && (forall x :: x != rid ==> (x in t.state.rooms <==> x in s.rooms))
            && (forall x :: x != rid && x in s.rooms ==> t.state.rooms[x] == s.rooms[x])
            && (rid !in s.rooms ==> t == Tick(s, [], []))
            && (rid in s.rooms && |Live(s.rooms[rid].clients, now)| == |s.rooms[rid].clients| ==> t == Tick(s, [], []))
            && (rid in s.rooms ==> && (rid in t.state.rooms <==> Live(s.rooms[rid].clients, now) != [])
                                   && t.closed == StaleIds(s.rooms[rid].clients, now))
            && (rid in t.state.rooms ==> t.state.rooms[rid].clients == Live(s.rooms[rid].clients, now))
            && (Reannounces(s, rid, now) ==> LeaderAfterEviction(s.rooms[rid], t.state.rooms[rid]))
            && t.out == (if Reannounces(s, rid, now) then BroadcastPresence(t.state, rid) else [])
  {
    if rid in s.rooms {
      var cs := s.rooms[rid].clients;
      if |Live(cs, now)| == |cs| {
        assert |StaleIds(cs, now)| == 0;
      } else {
        SweepShrinks(s, rid, now);
      }
    }
  }

  /**
   * The sweeper in a room that lost a client: the stale ones are terminated; a room left
   * empty is deleted and nothing is sent; otherwise the survivors stay in order, a leader
   * among them keeps the role (else the first survivor leads) and every survivor gets the
   * room's new presence, once, in table order.
   */
  lemma SweepShrinks(s: RelayState, rid: RoomId, now: int)
    requires NoEmptyRoom(s) && rid in s.rooms && |Live(s.rooms[rid].clients, now)| < |s.rooms[rid].clients|
    ensures var t := SweepRoom(s, rid, now);
            var kept := Live(s.rooms[rid].clients, now);
            && NoEmptyRoom(t.state)
            && t.state.conns == s.conns
            && (forall x :: x != rid ==> (x in t.state.rooms <==> x in s.rooms))
            && (forall x :: x != rid && x in s.rooms ==> t.state.rooms[x] == s.rooms[x])
            && (rid in t.state.rooms <==> kept != [])
            && t.closed == StaleIds(s.rooms[rid].clients, now)
            && (kept == [] ==> t.out == [])
            && (kept != [] ==>
                  && t.state.rooms[rid].clients == kept
                  && LeaderAfterEviction(s.rooms[rid], t.state.rooms[rid])
                  && t.out == BroadcastPresence(t.state, rid)
                  && Recipients(t.out) == Ids(kept)
                  && forall d :: d in t.out ==> d.message == PresenceOf(rid, t.state.rooms[rid]))
  {
    SweepShrinksRooms(s, rid, now);
    if Live(s.rooms[rid].clients, now) != [] {
      SweepShrinksSurvivors(s, rid, now);
    }
  }

  /** The registry after the sweeper evicted a client of `rid`. */
  lemma SweepShrinksRooms(s: RelayState, rid: RoomId, now: int)
    requires NoEmptyRoom(s) && rid in s.rooms && |Live(s.rooms[rid].clients, now)| < |s.rooms[rid].clients|
    ensures var t := SweepRoom(s, rid, now);
            && NoEmptyRoom(t.state)
            && t.state.conns == s.conns
            && (forall x :: x != rid ==> (x in t.state.rooms <==> x in s.rooms))
            && (forall x :: x != rid && x in s.rooms ==> t.state.rooms[x] == s.rooms[x])
            && (rid in t.state.rooms <==> Live(s.rooms[rid].clients, now) != [])
            && t.closed == StaleIds(s.rooms[rid].clients, now)
            && (Live(s.rooms[rid].clients, now) == [] ==> t.out == [])
  {
    var shrunk := Evicted(s, rid, now);
    SweepIsRebalance(s, rid, now);
    var t := SweepRoom(s, rid, now);
    RebalanceEffect(shrunk, rid);
    forall x | x in t.state.rooms ensures t.state.rooms[x].clients != [] {
      if x != rid {
        assert t.state.rooms[x] == s.rooms[x];
      }
    }
  }

  /** The survivors of room `rid` after the sweeper evicted some of its clients. */
  lemma SweepShrinksSurvivors(s: RelayState, rid: RoomId, now: int)
    requires rid in s.rooms && 0 < |Live(s.rooms[rid].clients, now)| < |s.rooms[rid].clients|
    ensures var t := SweepRoom(s, rid, now);
            var kept := Live(s.rooms[rid].clients, now);
            && rid in t.state.rooms
            && t.state.rooms[rid].clients == kept
            && LeaderAfterEviction(s.rooms[rid], t.state.rooms[rid])
            && t.out == BroadcastPresence(t.state, rid)
            && Recipients(t.out) == Ids(kept)
            && forall d :: d in t.out ==> d.message == PresenceOf(rid, t.state.rooms[rid])
  {
    var shrunk := Evicted(s, rid, now);
    SweepIsRebalance(s, rid, now);
    RebalanceSurvivors(shrunk, rid);
    RebalanceEffect(shrunk, rid);
    assert shrunk.rooms[rid].leaderId == s.rooms[rid].leaderId;
  }

  /** Room `rid` with its stale clients taken out, before `rebalance`. */
  ghost function Evicted(s: RelayState, rid: RoomId, now: int): RelayState
    requires rid in s.rooms
  {
    s.(rooms := s.rooms[rid := s.rooms[rid].(clients := Live(s.rooms[rid].clients, now))])
  }

  /** A room that lost a client is rebalanced once its stale clients are out. */
  lemma SweepIsRebalance(s: RelayState, rid: RoomId, now: int)
    requires rid in s.rooms && |Live(s.rooms[rid].clients, now)| < |s.rooms[rid].clients|
    ensures var r := Rebalance(Evicted(s, rid, now), rid);
            SweepRoom(s, rid, now) == Tick(r.state, r.out, StaleIds(s.rooms[rid].clients, now))
  {
  }

  /**
   * `rebalance` of a registered room that still has clients: the leader rule, and the
   * new presence to every client once, in table order.
   */
  lemma RebalanceSurvivors(s: RelayState, rid: RoomId)
    requires rid in s.rooms && s.rooms[rid].clients != []
    ensures var r := Rebalance(s, rid);
            && rid in r.state.rooms
            && LeaderAfterEviction(s.rooms[rid], r.state.rooms[rid])
            && r.out == BroadcastPresence(r.state, rid)
            && Recipients(r.out) == Ids(s.rooms[rid].clients)
            && forall d :: d in r.out ==> d.message == PresenceOf(rid, r.state.rooms[rid])
  {
    var room := Rebalanced(s.rooms[rid]).value;
    assert Rebalance(s, rid).out == ToAll(room.clients, PresenceOf(rid, room));
    ToAllReachesAll(room.clients, PresenceOf(rid, room));
  }

  /** `rebalance` of a registered room: what it leaves and that it sends only presence. */
  lemma RebalanceEffect(s: RelayState, rid: RoomId)
    requires rid in s.rooms
    ensures var r := Rebalance(s, rid);
            && r.state.conns == s.conns
            && (forall x :: x != rid ==> (x in r.state.rooms <==> x in s.rooms))
            && (forall x :: x != rid && x in s.rooms ==> r.state.rooms[x] == s.rooms[x])
            && (rid in r.state.rooms <==> s.rooms[rid].clients != [])
            && (rid in r.state.rooms ==> r.state.rooms[rid].clients == s.rooms[rid].clients)
            && (forall d :: d in r.out ==> d.message.Presence?)
  {
    match Rebalanced(s.rooms[rid])
    case None =>
    case Some(room) =>
      ToAllReachesAll(room.clients, PresenceOf(rid, room));
  }

  /** Pending rooms listed once; the sweeper's snapshot of the registry order is one. */
  ghost predicate Distinct(pending: seq<RoomId>) {
    forall i, j :: 0 <= i < j < |pending| ==> pending[i] != pending[j]
  }

  /** The rest of a distinct list is distinct and lacks its head. */
  lemma DistinctTail(pending: seq<RoomId>)
    requires Distinct(pending) && pending != []
    ensures Distinct(pending[1..]) && pending[0] !in pending[1..]
    ensures forall x :: x in pending <==> x == pending[0] || x in pending[1..]
  {
    var tail := pending[1..];
    forall i, j | 0 <= i < j < |tail| ensures tail[i] != tail[j] {
      assert tail[i] == pending[i + 1] && tail[j] == pending[j + 1];
    }
    forall i | 0 <= i < |tail| ensures tail[i] != pending[0] {
      assert tail[i] == pending[i + 1];
    }
  }

  /**
   * A sweep over distinct pending rooms: each pending room keeps exactly its clients that
   * are not stale, and disappears when none is left; rooms not pending are untouched;
   * the terminated connections are exactly the stale clients of the pending rooms; the
   * frames are exactly the new presence of each re-announced room, to its survivors, in
   * visiting order; no connection's room pointer changes.
   */
  lemma {:induction false} SweepRoomsEffect(s: RelayState, pending: seq<RoomId>, now: int)
    requires NoEmptyRoom(s) && Distinct(pending)
    ensures var t := SweepRooms(s, pending, now);
            && t.state.conns == s.conns
            && NoEmptyRoom(t.state)
            && (forall x :: x in t.state.rooms ==> x in s.rooms)
            && (forall x :: x in s.rooms && x !in pending ==> x in t.state.rooms && t.state.rooms[x] == s.rooms[x])
            && (forall x :: x in s.rooms && x in pending ==>
                  && (x in t.state.rooms <==> Live(s.rooms[x].clients, now) != [])
                  && (x in t.state.rooms ==> t.state.rooms[x].clients == Live(s.rooms[x].clients, now)))
            && (forall id :: id in t.closed <==>
                  exists x :: x in pending && x in s.rooms && id in StaleIds(s.rooms[x].clients, now))
            && t.out == Announce(t.state, Reannounced(s, pending, now))
    decreases |pending|
  {
    if pending != [] {
      var rid := pending[0];
      var first := SweepRoom(s, rid, now);
      SweepRoomEffect(s, rid, now);
      var tail := pending[1..];
      DistinctTail(pending);
      SweepRoomsEffect(first.state, tail, now);
      var rest := SweepRooms(first.state, tail, now);
      var t := SweepRooms(s, pending, now);
      assert t == Tick(rest.state, first.out + rest.out, first.closed + rest.closed);
      forall id | id in t.closed
        ensures exists x :: x in pending && x in s.rooms && id in StaleIds(s.rooms[x].clients, now)
      {
        if id in first.closed {
          assert rid in s.rooms && id in StaleIds(s.rooms[rid].clients, now);
        } else {
          var x :| x in tail && x in first.state.rooms && id in StaleIds(first.state.rooms[x].clients, now);
          assert x != rid && x in s.rooms;
        }
      }
      forall id | exists x :: x in pending && x in s.rooms && id in StaleIds(s.rooms[x].clients, now)
        ensures id in t.closed
      {
        var x :| x in pending && x in s.rooms && id in StaleIds(s.rooms[x].clients, now);
        if x != rid {
          assert x in tail && x in first.state.rooms;
        }
      }
      SweepRoomsFrames(s, first, rest, t, pending, now);
    }
  }

  /** The frames of a sweep: the first room's presence, then those of the rooms after it. */
  lemma SweepRoomsFrames(s: RelayState, first: Tick, rest: Tick, t: Tick, pending: seq<RoomId>, now: int)
    requires pending != [] && Distinct(pending)
    requires first.out == (if Reannounces(s, pending[0], now) then BroadcastPresence(first.state, pending[0]) else [])
    requires forall x :: x in pending[1..] ==> (x in first.state.rooms <==> x in s.rooms)
    requires forall x :: x in pending[1..] && x in s.rooms ==> first.state.rooms[x] == s.rooms[x]
    requires Reannounces(s, pending[0], now) ==> pending[0] in first.state.rooms && pending[0] in t.state.rooms
                                                 && t.state.rooms[pending[0]] == first.state.rooms[pending[0]]
    requires rest.out == Announce(rest.state, Reannounced(first.state, pending[1..], now))
    requires t == Tick(rest.state, first.out + rest.out, first.closed + rest.closed)
    ensures t.out == Announce(t.state, Reannounced(s, pending, now))
  {
    var rid := pending[0];
    var tail := pending[1..];
    ReannouncedAgree(s, first.state, tail, now);
    var later := Reannounced(s, tail, now);
    assert Reannounced(s, pending, now) == (if Reannounces(s, rid, now) then [rid] else []) + later;
    if Reannounces(s, rid, now) {
      assert BroadcastPresence(first.state, rid) == BroadcastPresence(t.state, rid);
      assert ([rid] + later)[0] == rid && ([rid] + later)[1..] == later;
      assert Announce(t.state, [rid] + later) == BroadcastPresence(t.state, rid) + Announce(t.state, later);
    } else {
      assert [] + later == later;
    }
  }

  /** Which pending rooms a sweep re-announces depends only on those rooms. */
  lemma {:induction false} ReannouncedAgree(s: RelayState, s': RelayState, pending: seq<RoomId>, now: int)
    requires forall x :: x in pending ==> (x in s.rooms <==> x in s'.rooms)
    requires forall x :: x in pending && x in s.rooms ==> s.rooms[x] == s'.rooms[x]
    ensures Reannounced(s, pending, now) == Reannounced(s', pending, now)
    decreases |pending|
  {
    if pending != [] {
      assert forall x :: x in pending[1..] ==> x in pending;
      ReannouncedAgree(s, s', pending[1..], now);
    }
  }

  /**
   * The leaders after a sweep over distinct pending rooms: a pending room with no stale
   * client is left exactly as it was; one that lost a client and survives follows
   * `rebalance`'s rule.
   */
  lemma {:induction false} SweepRoomsLeaders(s: RelayState, pending: seq<RoomId>, now: int)
    requires NoEmptyRoom(s) && Distinct(pending)
    ensures var t := SweepRooms(s, pending, now);
            && (forall x :: x in pending && x in s.rooms && |Live(s.rooms[x].clients, now)| == |s.rooms[x].clients|
                  ==> x in t.state.rooms && t.state.rooms[x] == s.rooms[x])
            && (forall x :: x in pending && Reannounces(s, x, now) ==>
                  x in t.state.rooms && LeaderAfterEviction(s.rooms[x], t.state.rooms[x]))
    decreases |pending|
  {
    if pending != [] {
      var rid := pending[0];
      var first := SweepRoom(s, rid, now);
      SweepRoomEffect(s, rid, now);
      var tail := pending[1..];
      DistinctTail(pending);
      SweepRoomsEffect(first.state, tail, now);
      SweepRoomsLeaders(first.state, tail, now);
      var t := SweepRooms(s, pending, now);
      assert t.state == SweepRooms(first.state, tail, now).state;
      forall x | x in pending && x != rid
        ensures (x in s.rooms <==> x in first.state.rooms)
                && (x in s.rooms ==> first.state.rooms[x] == s.rooms[x])
                && (Reannounces(s, x, now) <==> Reannounces(first.state, x, now))
      {
      }
    }
  }

  /**
   * One sweeper tick: every room keeps exactly its clients that are not stale and is
   * deleted when none is left; a room with no stale client is left exactly as it was; a
   * surviving room's leader is still live, else its first live client; the connections
   * terminated are exactly the stale clients; the frames are exactly the new presence of
   * every room that lost some but not all of its clients, sent to its survivors, room
   * after room in registry order.
   */
  lemma SweepEffect(s: RelayState, now: int)
    requires Inv(s)
    ensures var t := Sweep(s, now);
            && t.state.conns == s.conns
            && (forall x :: x in t.state.rooms <==> x in s.rooms && Live(s.rooms[x].clients, now) != [])
            && (forall x :: x in t.state.rooms ==> t.state.rooms[x].clients == Live(s.rooms[x].clients, now))
            && (forall x :: x in s.rooms && |Live(s.rooms[x].clients, now)| == |s.rooms[x].clients|
                  ==> t.state.rooms[x] == s.rooms[x])
            && (forall x :: x in t.state.rooms ==> LeaderAfterEviction(s.rooms[x], t.state.rooms[x]))
            && (forall id :: id in t.closed <==> exists x :: x in s.rooms && id in StaleIds(s.rooms[x].clients, now))
            && t.out == Announce(t.state, Reannounced(s, s.order, now))
  {
    SweepRoomsEffect(s, s.order, now);
    SweepRoomsLeaders(s, s.order, now);
    var t := Sweep(s, now);
    forall x | x in t.state.rooms ensures LeaderAfterEviction(s.rooms[x], t.state.rooms[x]) {
      var cs := s.rooms[x].clients;
      if |Live(cs, now)| == |cs| {
        assert WellFormed(s.rooms[x]);
      }
    }
  }

  /** A presence roster names exactly one leader, the room's. */
  lemma {:induction false} PresenceSingleLeader(room: Room)
    requires WellFormed(room)
    ensures var roster := Roster(room);
            && (exists i :: 0 <= i < |roster| && roster[i].role == Leader && Some(roster[i].clientId) == room.leaderId)
            && (forall i, j :: 0 <= i < |roster| && 0 <= j < |roster| && roster[i].role == Leader && roster[j].role == Leader ==> i == j)
  {
    var roster := Roster(room);
    var k :| 0 <= k < |room.clients| && Ids(room.clients)[k] == room.leaderId.value;
    assert roster[k].role == Leader;
  }

  /** Riders `a` and `b` are both in `ride`, in that order, and `leader` leads it. */
  ghost predicate BothRiding(s: RelayState, a: ClientId, b: ClientId, ride: RoomId, leader: ClientId) {
    && Inv(s)
    && InRoom(s, a, ride) && InRoom(s, b, ride)
    && Ids(s.rooms[ride].clients) == [a, b]
    && s.rooms[ride].leaderId == Some(leader)
  }

  /** The ride's room and the riders' pointers after the joins of a ride into a new room. */
  lemma RideEntersRoom(s: RelayState, a: ClientId, b: ClientId, ride: RoomId, now: int)
    requires a != b && ride !in s.rooms
    ensures var s1 := Enter(s, a, ride, now);
            var s2 := Enter(s1, b, ride, now);
            && ride in s1.rooms && s1.rooms[ride].leaderId == Some(a)
            && ride in s2.rooms && s2.rooms[ride] == Room([ClientInfo(a, now), ClientInfo(b, now)], Some(a))
            && a in s2.conns && s2.conns[a] == ride && b in s2.conns && s2.conns[b] == ride
  {
    var s1 := Enter(s, a, ride, now);
    EnterNewRoom(s, a, ride, now);
    EnterSecond(s1, a, b, ride, now);
    EnterElsewhere(s, a, ride, now);
    EnterElsewhere(s1, b, ride, now);
  }

  /** The first join of a room creates it with the sender alone, leading. */
  lemma EnterNewRoom(s: RelayState, a: ClientId, ride: RoomId, now: int)
    requires ride !in s.rooms
    ensures var s1 := Enter(s, a, ride, now);
            ride in s1.rooms && s1.rooms[ride] == Room([ClientInfo(a, now)], Some(a))
  {
    assert Ids([]) == [];
  }

  /** A second rider joining a room of one is added after the first, who keeps the lead. */
  lemma EnterSecond(s1: RelayState, a: ClientId, b: ClientId, ride: RoomId, now: int)
    requires a != b && ride in s1.rooms && s1.rooms[ride] == Room([ClientInfo(a, now)], Some(a))
    ensures var s2 := Enter(s1, b, ride, now);
            ride in s2.rooms && s2.rooms[ride] == Room([ClientInfo(a, now), ClientInfo(b, now)], Some(a))
  {
    var first := [ClientInfo(a, now)];
    assert Ids(first) == [a];
    assert Upsert(first, b, now) == first + [ClientInfo(b, now)];
  }

  /** The registry after the joins of a ride into a new room. */
  lemma RideEnters(s: RelayState, a: ClientId, b: ClientId, ride: RoomId, now: int)
    requires Inv(s) && a != b && ride != "" && ride !in s.rooms
    ensures var s1 := Enter(s, a, ride, now);
            var s2 := Enter(s1, b, ride, now);
            && ride in s1.rooms && s1.rooms[ride].leaderId == Some(a)
            && BothRiding(s2, a, b, ride, a)
  {
    var s1 := Enter(s, a, ride, now);
    var s2 := Enter(s1, b, ride, now);
    RideEntersRoom(s, a, b, ride, now);
    RelayInvariants.JoinKeepsInv(s, a, ride, now);
    RelayInvariants.JoinKeepsInv(s1, b, ride, now);
    PairRoom(a, b, now);
  }

  /** The room of two riders, the first leading. */
  lemma PairRoom(a: ClientId, b: ClientId, now: int)
    requires a != b
    ensures var room := Room([ClientInfo(a, now), ClientInfo(b, now)], Some(a));
            WellFormed(room) && Ids(room.clients) == [a, b]
  {
    assert Ids([ClientInfo(a, now), ClientInfo(b, now)]) == [a, b];
  }

  /** The joins of a ride: the first rider to join a new room leads it; the second does not take over. */
  lemma RideJoins(s: RelayState, a: ClientId, b: ClientId, ride: RoomId, now: int)
    requires Inv(s) && a != b && ride != "" && ride !in s.rooms
    ensures var s1 := Handle(s, a, Join(ride, None), now).state;
            var s2 := Handle(s1, b, Join(ride, None), now).state;
            && ride in s1.rooms && s1.rooms[ride].leaderId == Some(a)
            && BothRiding(s2, a, b, ride, a)
  {
    RideEnters(s, a, b, ride, now);
    var s1 := Enter(s, a, ride, now);
    assert Handle(s, a, Join(ride, None), now).state == s1;
    assert Handle(s1, b, Join(ride, None), now).state == Enter(s1, b, ride, now);
  }

  /** While both ride, the leader's route reaches the other rider and anyone else's is dropped. */
  lemma RideRouteSet(s: RelayState, a: ClientId, b: ClientId, ride: RoomId, leader: ClientId,
                     sender: ClientId, route: RouteShare.RoutePayload, now: int)
    requires BothRiding(s, a, b, ride, leader) && (sender == a || sender == b)
    ensures var r := Handle(s, sender, RouteSet(ride, route), now);
            var other := if sender == a then b else a;
            && BothRiding(r.state, a, b, ride, leader)
            && (sender == leader ==> Delivery(other, RouteSetOut(ride, route, sender)) in r.out)
            && (sender != leader ==> r.out == [])
  {
    var r := Handle(s, sender, RouteSet(ride, route), now);
    RouteSetOnlyFromLeader(s, sender, ride, RouteSet(ride, route), now);
    MessageOnlyTouches(s, sender, ride, RouteSet(ride, route), now);
    RelayInvariants.HandleKeepsInv(s, sender, RouteSet(ride, route), now);
    if sender == leader {
      var k := if sender == a then 1 else 0;
      assert Recipients(r.out)[k] == Ids(s.rooms[ride].clients)[k];
      assert r.out[k] in r.out;
    }
  }

  /** The leader `a` hands the lead to `b`; both riders get a presence naming `b`. */
  lemma RideHandover(s: RelayState, a: ClientId, b: ClientId, ride: RoomId, now: int)
    requires BothRiding(s, a, b, ride, a)
    ensures var r := Handle(s, a, LeaderTransfer(ride, Some(b)), now);
            && BothRiding(r.state, a, b, ride, b)
            && Delivery(a, PresenceOf(ride, r.state.rooms[ride])) in r.out
            && Delivery(b, PresenceOf(ride, r.state.rooms[ride])) in r.out
  {
    var r := Handle(s, a, LeaderTransfer(ride, Some(b)), now);
    LeaderTransferRule(s, a, ride, ride, Some(b), now);
    RelayInvariants.HandleKeepsInv(s, a, LeaderTransfer(ride, Some(b)), now);
    RouteTouchKeepsIds(s, a, ride, now);
    var presence := r.out[..|r.out| - 1];
    assert Recipients(presence)[0] == a && Recipients(presence)[1] == b;
    assert presence[0] in r.out && presence[1] in r.out;
  }

  /**
   * A ride end to end, from any registry in which the ride's room does not exist yet:
   * `a` joins and leads; `b` joins; `a`'s route reaches `b`; `b`'s route is dropped; `a`
   * hands the lead to `b` and both get a presence naming `b`; `b`'s route now reaches `a`.
   */
  lemma RideEndToEnd(s: RelayState, a: ClientId, b: ClientId, ride: RoomId, route: RouteShare.RoutePayload, now: int)
    requires Inv(s) && a != b && ride != "" && ride !in s.rooms
    ensures var s1 := Handle(s, a, Join(ride, None), now).state;
            var s2 := Handle(s1, b, Join(ride, None), now).state;
            var fromA := Handle(s2, a, RouteSet(ride, route), now);
            var fromB := Handle(fromA.state, b, RouteSet(ride, route), now);
            var handover := Handle(fromB.state, a, LeaderTransfer(ride, Some(b)), now);
            var again := Handle(handover.state, b, RouteSet(ride, route), now);
            && ride in s1.rooms && s1.rooms[ride].leaderId == Some(a)
            && ride in s2.rooms && s2.rooms[ride].leaderId == Some(a)
            && Delivery(b, RouteSetOut(ride, route, a)) in fromA.out
            && fromB.out == []
            && ride in handover.state.rooms && handover.state.rooms[ride].leaderId == Some(b)
            && Delivery(a, PresenceOf(ride, handover.state.rooms[ride])) in handover.out
            && Delivery(b, PresenceOf(ride, handover.state.rooms[ride])) in handover.out
            && Delivery(a, RouteSetOut(ride, route, b)) in again.out
  {
    RideJoins(s, a, b, ride, now);
    var s1 := Handle(s, a, Join(ride, None), now).state;
    var s2 := Handle(s1, b, Join(ride, None), now).state;
    RideRouteSet(s2, a, b, ride, a, a, route, now);
    var fromA := Handle(s2, a, RouteSet(ride, route), now);
    RideRouteSet(fromA.state, a, b, ride, a, b, route, now);
    var fromB := Handle(fromA.state, b, RouteSet(ride, route), now);
    RideHandover(fromB.state, a, b, ride, now);
    var handover := Handle(fromB.state, a, LeaderTransfer(ride, Some(b)), now);
    RideRouteSet(handover.state, a, b, ride, b, b, route, now);
  }
}
