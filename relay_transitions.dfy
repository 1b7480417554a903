/**
 * The room relay (server.ts) as a state machine. Its state is the `rooms` registry, the
 * registry's insertion order (a JavaScript Map iterates in that order, which fixes the
 * order of the sweeper's output) and, for every open connection, the `roomId` its last
 * `join` named. Each event (a message, a close, a sweeper tick) yields the next state and
 * the frames written, in order. `Date.now()` is the parameter `now`.
 */
module RelayTransitions {
  import opened Wrappers
  import opened RelayTypes
  import opened RelayRooms

  datatype RelayState = RelayState(
    rooms: map<RoomId, Room>,
    order: seq<RoomId>,
    conns: map<ClientId, RoomId>)   // a connection without an entry has `roomId === null`

  /** What a message or a close does: the next state and the frames written. */
  datatype Step = Step(state: RelayState, out: seq<Delivery>)

  /** What a sweeper tick does: also the connections it terminates. */
  datatype Tick = Tick(state: RelayState, out: seq<Delivery>, closed: seq<ClientId>)

  /** The relay at start-up: no rooms, no joined connections. */
  const Initial: RelayState := RelayState(map[], [], map[])

  /**
   * The registry's invariant: the order lists each registered room once, and every
   * registered room is well formed (non-empty, its leader a member).
   */
  ghost predicate Inv(s: RelayState) {
    && (forall r :: r in s.order <==> r in s.rooms)
    && (forall i, j :: 0 <= i < j < |s.order| ==> s.order[i] != s.order[j])
    && (forall r :: r in s.rooms ==> WellFormed(s.rooms[r]))
  }

  /** The registry order after `rooms.delete(rid)`. */
  function Unlisted(order: seq<RoomId>, rid: RoomId): (r: seq<RoomId>)
    ensures forall x :: x in r <==> x in order && x != rid
    ensures (forall i, j :: 0 <= i < j < |order| ==> order[i] != order[j])
            ==> (forall i, j :: 0 <= i < j < |r| ==> r[i] != r[j])
    decreases |order|
  {
    if order == [] then []
    else
      var init := order[..|order| - 1];
      var last := order[|order| - 1];
      var rest := Unlisted(init, rid);
      assert forall x :: x in order <==> x in init || x == last;
      var r := if last == rid then rest else rest + [last];
      assert (forall i, j :: 0 <= i < j < |order| ==> order[i] != order[j])
             ==> (forall i, j :: 0 <= i < j < |r| ==> r[i] != r[j]) by {
        if (forall i, j :: 0 <= i < j < |order| ==> order[i] != order[j]) && last != rid {
          assert forall i, j :: 0 <= i < j < |init| ==> init[i] != init[j];
          forall i | 0 <= i < |rest| ensures rest[i] != last {
            assert rest[i] in init;
          }
        }
      }
      r
  }

  /** The connection's `roomId` when it is set and truthy (the empty string is falsy). */
  function CurrentRoom(s: RelayState, cid: ClientId): (r: Option<RoomId>)
    ensures r.Some? <==> cid in s.conns && s.conns[cid] != ""
    ensures r.Some? ==> r.value == s.conns[cid]
  {
    if cid in s.conns && s.conns[cid] != "" then Some(s.conns[cid]) else None
  }

  /** `touch(rid, cid)`. */
  function TouchIn(s: RelayState, rid: RoomId, cid: ClientId, now: int): (r: RelayState)
    ensures r.order == s.order && r.conns == s.conns && r.rooms.Keys == s.rooms.Keys
    ensures forall x :: x in s.rooms && x != rid ==> r.rooms[x] == s.rooms[x]
  {
    if rid in s.rooms then
      s.(rooms := s.rooms[rid := s.rooms[rid].(clients := Touch(s.rooms[rid].clients, cid, now))])
    else s
  }

  /** `broadcast(rid, m)`. */
  function Broadcast(s: RelayState, rid: RoomId, m: Outgoing): seq<Delivery> {
    if rid in s.rooms then ToAll(s.rooms[rid].clients, m) else []
  }

  /** `broadcastExcept(rid, except, m)`. */
  function BroadcastExcept(s: RelayState, rid: RoomId, except: ClientId, m: Outgoing): seq<Delivery> {
    if rid in s.rooms then ToAllExcept(s.rooms[rid].clients, except, m) else []
  }

  /** `sendTo(rid, to, m)`. */
  function SendTo(s: RelayState, rid: RoomId, to: string, m: Outgoing): seq<Delivery> {
    if rid in s.rooms then ToOne(s.rooms[rid].clients, to, m) else []
  }

  /** `broadcastPresence(rid)`. */
  function BroadcastPresence(s: RelayState, rid: RoomId): seq<Delivery> {
    if rid in s.rooms then ToAll(s.rooms[rid].clients, PresenceOf(rid, s.rooms[rid])) else []
  }

  /** `rebalance(rid)`: deletes an empty room; otherwise fixes the leader and broadcasts presence. */
  function Rebalance(s: RelayState, rid: RoomId): Step {
    if rid !in s.rooms then Step(s, [])
    else
      match Rebalanced(s.rooms[rid])
      case None => Step(s.(rooms := s.rooms - {rid}, order := Unlisted(s.order, rid)), [])
      case Some(room) =>
        var next := s.(rooms := s.rooms[rid := room]);
        Step(next, BroadcastPresence(next, rid))
  }

  /**
   * A `join` of room `rid`: the room is created if absent, the sender is set in its table
   * with `lastSeen = now`, the sender becomes leader only of a room without one, the
   * connection's `roomId` becomes `rid`, and the sender gets `joined` before the presence
   * broadcast. A second join on one connection does not leave the earlier room.
   */
  function JoinRoom(s: RelayState, cid: ClientId, rid: RoomId, now: int): Step {
    var next := Enter(s, cid, rid, now);
    Step(next, [Delivery(cid, Joined(rid, cid, LeaderAfterJoin(s, cid, rid)))] + BroadcastPresence(next, rid))
  }

  /** The leader of `rid` once `cid` has joined: the existing one, else the sender. */
  function LeaderAfterJoin(s: RelayState, cid: ClientId, rid: RoomId): ClientId {
    if rid in s.rooms && s.rooms[rid].leaderId.Some? then s.rooms[rid].leaderId.value else cid
  }

  /** The registry after a join, before anything is sent. */
  function Enter(s: RelayState, cid: ClientId, rid: RoomId, now: int): RelayState {
    var clients := if rid in s.rooms then s.rooms[rid].clients else [];
    var joined := Room(Upsert(clients, cid, now), Some(LeaderAfterJoin(s, cid, rid)));
    RelayState(
      s.rooms[rid := joined],
      if rid in s.rooms then s.order else s.order + [rid],
      s.conns[cid := rid])
  }

  /**
   * A message other than `join` from a connection whose room `rid` exists: every
   * recognised kind first touches the sender, then routes. The room id inside the
   * envelope is not consulted.
   */
  function Route(s: RelayState, cid: ClientId, rid: RoomId, msg: Incoming, now: int): Step
    requires rid in s.rooms
  {
    var t := TouchIn(s, rid, cid, now);
    match msg
    case Heartbeat(_) => Step(t, [Delivery(cid, Pong(rid, now))])
    case Chat(_, body) => Step(t, Broadcast(t, rid, ChatOut(rid, cid, body, now)))
    case RtcOffer(_, sdp, to) =>
      var m := OfferOut(rid, cid, sdp);
      if to.Some? && to.value != "" then Step(t, SendTo(t, rid, to.value, m))
      else Step(t, BroadcastExcept(t, rid, cid, m))
    case RtcAnswer(_, sdp, to) =>
      Step(t, if to.Some? then SendTo(t, rid, to.value, AnswerOut(rid, cid, sdp, to)) else [])
    case RtcIce(_, candidate, to) =>
      Step(t, if to.Some? then SendTo(t, rid, to.value, IceOut(rid, cid, candidate, to)) else [])
    case Location(_, riderId, lat, lng, heading, speed, ts) =>
      Step(t, BroadcastExcept(t, rid, cid, LocationOut(rid, riderId, cid, lat, lng, heading, speed, ts)))
    case RouteSet(_, route) =>
      var leader := t.rooms[rid].leaderId;
      if leader.Some? && leader.value != cid then Step(t, [])
      else Step(t, Broadcast(t, rid, RouteSetOut(rid, route, cid)))
    case LeaderTransfer(_, to) =>
      var room := t.rooms[rid];
      if room.leaderId != Some(cid) || to.None? || to.value !in Ids(room.clients) then Step(t, [])
      else
        var next := t.(rooms := t.rooms[rid := room.(leaderId := Some(to.value))]);
        Step(next, BroadcastPresence(next, rid) + [Delivery(cid, LeaderTransferOut(rid, to.value))])
    case Join(_, _) => Step(s, [])
    case Unrecognized => Step(s, [])
  }

  /**
   * The `message` handler of connection `cid`. A message that fails to parse never gets
   * here and has no effect.
   */
  function Handle(s: RelayState, cid: ClientId, msg: Incoming, now: int): Step {
    if msg.Join? then JoinRoom(s, cid, msg.roomId, now)
    else
      match CurrentRoom(s, cid)
      case None => Step(s, [])
      case Some(rid) => if rid in s.rooms then Route(s, cid, rid, msg, now) else Step(s, [])
  }

  /**
   * The `close` handler of connection `cid`: the connection leaves the room its `roomId`
   * names (if truthy) and that room is rebalanced. The connection itself is gone.
   */
  function Close(s: RelayState, cid: ClientId): Step {
    var gone := s.(conns := s.conns - {cid});
    match CurrentRoom(s, cid)
    case None => Step(gone, [])
    case Some(rid) =>
      var left :=
        if rid in gone.rooms
        then gone.(rooms := gone.rooms[rid := gone.rooms[rid].(clients := Without(gone.rooms[rid].clients, cid))])
        else gone;
      Rebalance(left, rid)
  }

  /** The sweeper's body for one room: evict the stale clients and, if any went, rebalance. */
  function SweepRoom(s: RelayState, rid: RoomId, now: int): Tick {
    if rid !in s.rooms then Tick(s, [], [])
    else
      var room := s.rooms[rid];
      var kept := Live(room.clients, now);
      if |kept| == |room.clients| then Tick(s, [], [])
      else
        var r := Rebalance(s.(rooms := s.rooms[rid := room.(clients := kept)]), rid);
        Tick(r.state, r.out, StaleIds(room.clients, now))
  }

  /** The sweeper's outer loop over the rooms still to visit. */
  function SweepRooms(s: RelayState, pending: seq<RoomId>, now: int): Tick
    decreases |pending|
  {
    if pending == [] then Tick(s, [], [])
    else
      var first := SweepRoom(s, pending[0], now);
      var rest := SweepRooms(first.state, pending[1..], now);
      Tick(rest.state, first.out + rest.out, first.closed + rest.closed)
  }

  /** One tick of the heartbeat sweeper, visiting the rooms in registry order. */
  function Sweep(s: RelayState, now: int): Tick {
    SweepRooms(s, s.order, now)
  }
}
