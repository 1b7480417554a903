/**
 * The relay server's handlers (server.ts) as methods of one object holding the `rooms`
 * registry, its insertion order and each connection's `roomId`. Each method is proved to
 * perform exactly the transition the corresponding function of RelayTransitions gives,
 * and to keep the registry invariant.
 */
module RelayServer {
  import opened Wrappers
  import opened RelayTypes
  import opened RelayRooms
  import T = RelayTransitions
  import RelayInvariants

  class Relay {
    var rooms: map<RoomId, Room>
    var order: seq<RoomId>
    var conns: map<ClientId, RoomId>

    function State(): T.RelayState
      reads this
    {
      T.RelayState(rooms, order, conns)
    }

    ghost predicate Valid()
      reads this
    {
      T.Inv(State())
    }

    constructor ()
      ensures State() == T.Initial && Valid()
    {
      rooms := map[];
      order := [];
      conns := map[];
    }

    /** `broadcast`: a loop over the room's clients in table order. */
    method Broadcast(rid: RoomId, m: Outgoing) returns (out: seq<Delivery>)
      ensures out == T.Broadcast(State(), rid, m)
    {
      out := [];
      if rid !in rooms {
        return;
      }
      var cs := rooms[rid].clients;
      for i := 0 to |cs|
        invariant out == ToAll(cs[..i], m)
      {
        DeliveryPrefix(cs, i, "", m);
        out := out + [Delivery(cs[i].id, m)];
      }
      assert cs[..|cs|] == cs;
    }

    /** `broadcastExcept`: the same loop, skipping `except`. */
    method BroadcastExcept(rid: RoomId, except: ClientId, m: Outgoing) returns (out: seq<Delivery>)
      ensures out == T.BroadcastExcept(State(), rid, except, m)
    {
      out := [];
      if rid !in rooms {
        return;
      }
      var cs := rooms[rid].clients;
      for i := 0 to |cs|
        invariant out == ToAllExcept(cs[..i], except, m)
      {
        DeliveryPrefix(cs, i, except, m);
        if cs[i].id != except {
          out := out + [Delivery(cs[i].id, m)];
        }
      }
      assert cs[..|cs|] == cs;
    }

    /** `sendTo`: a lookup in the room's table. */
    method SendTo(rid: RoomId, to: string, m: Outgoing) returns (out: seq<Delivery>)
      ensures out == T.SendTo(State(), rid, to, m)
      ensures |out| <= 1 && forall d :: d in out ==> d.recipient == to
    {
      out := [];
      if rid !in rooms {
        return;
      }
      match Lookup(rooms[rid].clients, to) {
        case None =>
        case Some(target) => out := [Delivery(target.id, m)];
      }
    }

    /** `broadcastPresence`. */
    method BroadcastPresence(rid: RoomId) returns (out: seq<Delivery>)
      ensures out == T.BroadcastPresence(State(), rid)
    {
      out := [];
      if rid !in rooms {
        return;
      }
      var payload := PresenceOf(rid, rooms[rid]);
      out := Broadcast(rid, payload);
    }

    /** `touch`. */
    method Touch(rid: RoomId, cid: ClientId, now: int)
      modifies this
      ensures State() == T.TouchIn(old(State()), rid, cid, now)
    {
      if rid !in rooms {
        return;
      }
      var room := rooms[rid];
      rooms := rooms[rid := room.(clients := RelayRooms.Touch(room.clients, cid, now))];
    }

    /** `rebalance`. */
    method Rebalance(rid: RoomId) returns (out: seq<Delivery>)
      modifies this
      ensures T.Step(State(), out) == T.Rebalance(old(State()), rid)
    {
      out := [];
      if rid !in rooms {
        return;
      }
      var room := rooms[rid];
      if |room.clients| == 0 {
        rooms := rooms - {rid};
        order := T.Unlisted(order, rid);
        return;
      }
      if room.leaderId.None? || room.leaderId.value !in Ids(room.clients) {
        room := room.(leaderId := Some(room.clients[0].id));
      }
      rooms := rooms[rid := room];
      out := BroadcastPresence(rid);
    }

    /** The `join` branch of the `message` handler. */
    method Join(cid: ClientId, rid: RoomId, now: int) returns (out: seq<Delivery>)
      modifies this
      ensures T.Step(State(), out) == T.JoinRoom(old(State()), cid, rid, now)
    {
      ghost var before := State();
      conns := conns[cid := rid];
      var room := if rid in rooms then rooms[rid] else Room([], None);
      room := room.(clients := Upsert(room.clients, cid, now));
      if room.leaderId.None? {
        room := room.(leaderId := Some(cid));
      }
      if rid !in rooms {
        order := order + [rid];
      }
      rooms := rooms[rid := room];
      assert State() == T.Enter(before, cid, rid, now);
      out := [Delivery(cid, Joined(rid, cid, room.leaderId.value))];
      var presence := BroadcastPresence(rid);
      out := out + presence;
    }

    /** The `switch` on the message type, for a sender whose room `rid` exists. */
    method Route(cid: ClientId, rid: RoomId, msg: Incoming, now: int) returns (out: seq<Delivery>)
      requires rid in rooms
      modifies this
      ensures T.Step(State(), out) == T.Route(old(State()), cid, rid, msg, now)
    {
      out := [];
      if msg.Join? || msg.Unrecognized? {
        return;
      }
      Touch(rid, cid, now);
      match msg {
        case Heartbeat(_) =>
          out := [Delivery(cid, Pong(rid, now))];
        case Chat(_, body) =>
          out := Broadcast(rid, ChatOut(rid, cid, body, now));
        case RtcOffer(_, sdp, to) =>
          var offer := OfferOut(rid, cid, sdp);
          if to.Some? && to.value != "" {
            out := SendTo(rid, to.value, offer);
          } else {
            out := BroadcastExcept(rid, cid, offer);
          }
        case RtcAnswer(_, sdp, to) =>
          if to.Some? {
            out := SendTo(rid, to.value, AnswerOut(rid, cid, sdp, to));
          }
        case RtcIce(_, candidate, to) =>
          if to.Some? {
            out := SendTo(rid, to.value, IceOut(rid, cid, candidate, to));
          }
        case Location(_, riderId, lat, lng, heading, speed, ts) =>
          out := BroadcastExcept(rid, cid, LocationOut(rid, riderId, cid, lat, lng, heading, speed, ts));
        case RouteSet(_, route) =>
          var roomLeader := rooms[rid].leaderId;
          if roomLeader.Some? && roomLeader.value != cid {
            return;
          }
          out := Broadcast(rid, RouteSetOut(rid, route, cid));
        case LeaderTransfer(_, to) =>
          var room := rooms[rid];
          if room.leaderId != Some(cid) || to.None? || to.value !in Ids(room.clients) {
            return;
          }
          rooms := rooms[rid := room.(leaderId := Some(to.value))];
          out := BroadcastPresence(rid);
          out := out + [Delivery(cid, LeaderTransferOut(rid, to.value))];
      }
    }

    /** The `message` handler of connection `cid`, for a message that parsed. */
    method HandleMessage(cid: ClientId, msg: Incoming, now: int) returns (out: seq<Delivery>)
      requires Valid()
      modifies this
      ensures Valid()
      ensures T.Step(State(), out) == T.Handle(old(State()), cid, msg, now)
    {
      RelayInvariants.HandleKeepsInv(State(), cid, msg, now);
      out := [];
      if msg.Join? {
        out := Join(cid, msg.roomId, now);
        return;
      }
      if cid !in conns || conns[cid] == "" {
        return;
      }
      var rid := conns[cid];
      if rid !in rooms {
        return;
      }
      out := Route(cid, rid, msg, now);
    }

    /** The `close` handler of connection `cid`. */
    method Close(cid: ClientId) returns (out: seq<Delivery>)
      requires Valid()
      modifies this
      ensures Valid()
      ensures T.Step(State(), out) == T.Close(old(State()), cid)
    {
      ghost var before := State();
      RelayInvariants.CloseKeepsInv(before, cid);
      out := [];
      var roomId := if cid in conns then Some(conns[cid]) else None;
      conns := conns - {cid};
      if roomId.None? || roomId.value == "" {
        return;
      }
      var rid := roomId.value;
      if rid in rooms {
        var room := rooms[rid];
        rooms := rooms[rid := room.(clients := Without(room.clients, cid))];
      }
      out := Rebalance(rid);
    }

    /** The sweeper's body for room `rid`: evict the stale clients, then rebalance if any went. */
    method SweepRoom(rid: RoomId, now: int) returns (out: seq<Delivery>, closed: seq<ClientId>)
      modifies this
      ensures T.Tick(State(), out, closed) == T.SweepRoom(old(State()), rid, now)
    {
      out, closed := [], [];
      if rid !in rooms {
        return;
      }
      var cs := rooms[rid].clients;
      var kept;
      kept, closed := Evict(cs, now);
      var changed := |kept| < |cs|;
      if changed {
        rooms := rooms[rid := rooms[rid].(clients := kept)];
        out := Rebalance(rid);
      }
    }

    /**
     * One tick of the heartbeat sweeper: the rooms are visited in registry order; in each,
     * the clients silent for longer than the timeout are terminated (`closed`) and
     * removed, and a room that lost anyone is rebalanced.
     */
    method SweepTick(now: int) returns (out: seq<Delivery>, closed: seq<ClientId>)
      requires Valid()
      modifies this
      ensures Valid()
      ensures T.Tick(State(), out, closed) == T.Sweep(old(State()), now)
    {
      RelayInvariants.SweepKeepsInv(State(), now);
      out, closed := SweepRooms(order, now);
    }

    /** The sweeper's loop over a snapshot `pending` of the registry order. */
    method SweepRooms(pending: seq<RoomId>, now: int) returns (out: seq<Delivery>, closed: seq<ClientId>)
      modifies this
      ensures T.Tick(State(), out, closed) == T.SweepRooms(old(State()), pending, now)
    {
      out, closed := [], [];
      var i := 0;
      while i < |pending|
        invariant 0 <= i <= |pending|
        invariant T.SweepRooms(old(State()), pending, now) == Then(out, closed, T.SweepRooms(State(), pending[i..], now))
      {
        ghost var at := State();
        SweepRoomsFirst(at, pending[i..], now);
        assert pending[i..][0] == pending[i] && pending[i..][1..] == pending[i + 1..];
        var o, c := SweepRoom(pending[i], now);
        ThenThen(out, closed, o, c, T.SweepRooms(State(), pending[i + 1..], now));
        out, closed := out + o, closed + c;
        i := i + 1;
      }
      assert pending[i..] == [];
      assert out + [] == out && closed + [] == closed;
    }
  }

  /**
   * The sweeper's pass over one room's clients: `kept` are the clients heard from within
   * the timeout, in their order, and `closed` the ids of the others, in their order.
   */
  method Evict(cs: seq<ClientInfo>, now: int) returns (kept: seq<ClientInfo>, closed: seq<ClientId>)
    ensures kept == Live(cs, now) && closed == StaleIds(cs, now)
  {
    kept, closed := [], [];
    for j := 0 to |cs|
      invariant kept == Live(cs[..j], now) && closed == StaleIds(cs[..j], now)
    {
      SweepPrefix(cs, j, now);
      if now - cs[j].lastSeen > HeartbeatTimeoutMs {
        closed := closed + [cs[j].id];
      } else {
        kept := kept + [cs[j]];
      }
    }
    assert cs[..|cs|] == cs;
  }

  /** The output of a tick that first wrote `out` and terminated `closed`, then did `rest`. */
  function Then(out: seq<Delivery>, closed: seq<ClientId>, rest: T.Tick): T.Tick {
    T.Tick(rest.state, out + rest.out, closed + rest.closed)
  }

  /** The sweep of a non-empty list of rooms is its first room's sweep followed by the rest. */
  lemma SweepRoomsFirst(s: T.RelayState, pending: seq<RoomId>, now: int)
    requires pending != []
    ensures var first := T.SweepRoom(s, pending[0], now);
            T.SweepRooms(s, pending, now) == Then(first.out, first.closed, T.SweepRooms(first.state, pending[1..], now))
  {
  }

  /** Output written in two stretches is their concatenation. */
  lemma ThenThen(out: seq<Delivery>, closed: seq<ClientId>, o: seq<Delivery>, c: seq<ClientId>, rest: T.Tick)
    ensures Then(out, closed, Then(o, c, rest)) == Then(out + o, closed + c, rest)
  {
    assert (out + o) + rest.out == out + (o + rest.out);
    assert (closed + c) + rest.closed == closed + (c + rest.closed);
  }
}
