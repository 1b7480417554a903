/**
 * Every event of the relay keeps the registry invariant: each registered room has at
 * least one client, lists each client once, and its leader is one of its clients.
 */
module RelayInvariants {
  import opened Wrappers
  import opened RelayTypes
  import opened RelayRooms
  import opened RelayTransitions

  /** The invariant with room `rid` exempt, as long as its client ids are distinct. */
  ghost predicate InvBut(s: RelayState, rid: RoomId) {
    && (forall r :: r in s.order <==> r in s.rooms)
    && (forall i, j :: 0 <= i < j < |s.order| ==> s.order[i] != s.order[j])
    && (forall r :: r in s.rooms && r != rid ==> WellFormed(s.rooms[r]))
    && (rid in s.rooms ==> UniqueIds(s.rooms[rid].clients))
  }

  /** `rebalance` repairs the one room it is called for. */
  lemma RebalanceRestoresInv(s: RelayState, rid: RoomId)
    requires InvBut(s, rid)
    ensures Inv(Rebalance(s, rid).state)
  {
    if rid in s.rooms {
      match Rebalanced(s.rooms[rid])
      case None =>
        var next := Rebalance(s, rid).state;
        assert next.rooms == s.rooms - {rid} && next.order == Unlisted(s.order, rid);
      case Some(room) =>
    }
  }

  /** Replacing a registered room by a well-formed one keeps the invariant. */
  lemma ReplaceRoomKeepsInv(s: RelayState, rid: RoomId, room: Room)
    requires Inv(s) && rid in s.rooms && WellFormed(room)
    ensures Inv(s.(rooms := s.rooms[rid := room]))
  {
  }

  /** Registering a new well-formed room at the end of the order keeps the invariant. */
  lemma AddRoomKeepsInv(s: RelayState, rid: RoomId, room: Room)
    requires Inv(s) && rid !in s.rooms && WellFormed(room)
    ensures Inv(s.(rooms := s.rooms[rid := room], order := s.order + [rid]))
  {
    var order := s.order + [rid];
    forall i, j | 0 <= i < j < |order| ensures order[i] != order[j] {
      if j == |s.order| {
        assert order[i] in s.order;
      }
    }
  }

  /** The room a join leaves behind is well formed. */
  lemma JoinedRoomWellFormed(room: Room, cid: ClientId, now: int)
    requires UniqueIds(room.clients)
    requires room.leaderId.Some? ==> room.leaderId.value in Ids(room.clients)
    ensures var leader := if room.leaderId.Some? then room.leaderId.value else cid;
            WellFormed(Room(Upsert(room.clients, cid, now), Some(leader)))
  {
    var cs := Upsert(room.clients, cid, now);
    assert cs != [] by {
      assert |Ids(cs)| == |cs|;
    }
  }

  lemma JoinKeepsInv(s: RelayState, cid: ClientId, rid: RoomId, now: int)
    requires Inv(s)
    ensures Inv(Enter(s, cid, rid, now))
  {
    var room := if rid in s.rooms then s.rooms[rid] else Room([], None);
    var joined := Room(Upsert(room.clients, cid, now), Some(LeaderAfterJoin(s, cid, rid)));
    JoinedRoomWellFormed(room, cid, now);
    var placed := if rid in s.rooms then s.(rooms := s.rooms[rid := joined])
                  else s.(rooms := s.rooms[rid := joined], order := s.order + [rid]);
    if rid in s.rooms {
      ReplaceRoomKeepsInv(s, rid, joined);
    } else {
      AddRoomKeepsInv(s, rid, joined);
    }
    assert Enter(s, cid, rid, now) == placed.(conns := s.conns[cid := rid]);
  }

  /** Touching keeps a room well formed. */
  lemma TouchedRoomWellFormed(room: Room, cid: ClientId, now: int)
    requires WellFormed(room)
    ensures WellFormed(room.(clients := Touch(room.clients, cid, now)))
  {
    var cs := Touch(room.clients, cid, now);
    forall i, j | 0 <= i < j < |cs| ensures cs[i].id != cs[j].id {
      assert Ids(cs)[i] == Ids(room.clients)[i];
      assert Ids(cs)[j] == Ids(room.clients)[j];
    }
  }

  lemma RouteKeepsInv(s: RelayState, cid: ClientId, rid: RoomId, msg: Incoming, now: int)
    requires Inv(s) && rid in s.rooms
    ensures Inv(Route(s, cid, rid, msg, now).state)
  {
    TouchKeepsInv(s, rid, cid, now);
    if !msg.LeaderTransfer? {
      RouteOnlyTouches(s, cid, rid, msg, now);
    } else {
      TransferKeepsInv(s, cid, rid, msg, now);
    }
  }

  /** Touching the sender keeps the invariant. */
  lemma TouchKeepsInv(s: RelayState, rid: RoomId, cid: ClientId, now: int)
    requires Inv(s) && rid in s.rooms
    ensures Inv(TouchIn(s, rid, cid, now))
  {
    var touched := s.rooms[rid].(clients := Touch(s.rooms[rid].clients, cid, now));
    TouchedRoomWellFormed(s.rooms[rid], cid, now);
    ReplaceRoomKeepsInv(s, rid, touched);
    assert TouchIn(s, rid, cid, now) == s.(rooms := s.rooms[rid := touched]);
  }

  /** A `leader-transfer` keeps the invariant: the sender is touched, and the new leader is a member. */
  lemma TransferKeepsInv(s: RelayState, cid: ClientId, rid: RoomId, msg: Incoming, now: int)
    requires Inv(s) && rid in s.rooms && msg.LeaderTransfer?
    ensures Inv(Route(s, cid, rid, msg, now).state)
  {
    var t := TouchIn(s, rid, cid, now);
    TouchKeepsInv(s, rid, cid, now);
    var room := t.rooms[rid];
    var to := msg.to;
    if room.leaderId == Some(cid) && to.Some? && to.value in Ids(room.clients) {
      ReplaceRoomKeepsInv(t, rid, room.(leaderId := Some(to.value)));
    }
  }

  /** Every kind but `leader-transfer` leaves the registry touched, or as it was. */
  lemma RouteOnlyTouches(s: RelayState, cid: ClientId, rid: RoomId, msg: Incoming, now: int)
    requires rid in s.rooms && !msg.LeaderTransfer?
    ensures var r := Route(s, cid, rid, msg, now).state;
            r == (if msg.Join? || msg.Unrecognized? then s else TouchIn(s, rid, cid, now))
  {
    match msg
    case Heartbeat(_) =>
    case Chat(_, _) =>
    case RtcOffer(_, _, _) =>
    case RtcAnswer(_, _, _) =>
    case RtcIce(_, _, _) =>
    case Location(_, _, _, _, _, _, _) =>
    case RouteSet(_, _) =>
    case Join(_, _) =>
    case Unrecognized =>
  }

  /** Every message keeps the invariant. */
  lemma HandleKeepsInv(s: RelayState, cid: ClientId, msg: Incoming, now: int)
    requires Inv(s)
    ensures Inv(Handle(s, cid, msg, now).state)
  {
    if msg.Join? {
      JoinKeepsInv(s, cid, msg.roomId, now);
      assert Handle(s, cid, msg, now).state == Enter(s, cid, msg.roomId, now);
    } else if CurrentRoom(s, cid).Some? && CurrentRoom(s, cid).value in s.rooms {
      RouteKeepsInv(s, cid, CurrentRoom(s, cid).value, msg, now);
    }
  }

  /** Every close keeps the invariant. */
  lemma CloseKeepsInv(s: RelayState, cid: ClientId)
    requires Inv(s)
    ensures Inv(Close(s, cid).state)
  {
    var gone := s.(conns := s.conns - {cid});
    if CurrentRoom(s, cid).Some? {
      var rid := CurrentRoom(s, cid).value;
      var left :=
        if rid in gone.rooms
        then gone.(rooms := gone.rooms[rid := gone.rooms[rid].(clients := Without(gone.rooms[rid].clients, cid))])
        else gone;
      assert InvBut(left, rid);
      RebalanceRestoresInv(left, rid);
    }
  }

  lemma SweepRoomKeepsInv(s: RelayState, rid: RoomId, now: int)
    requires Inv(s)
    ensures Inv(SweepRoom(s, rid, now).state)
  {
    if rid in s.rooms {
      var room := s.rooms[rid];
      var kept := Live(room.clients, now);
      if |kept| != |room.clients| {
        var evicted := s.(rooms := s.rooms[rid := room.(clients := kept)]);
        assert InvBut(evicted, rid);
        RebalanceRestoresInv(evicted, rid);
      }
    }
  }

  lemma {:induction false} SweepRoomsKeepsInv(s: RelayState, pending: seq<RoomId>, now: int)
    requires Inv(s)
    ensures Inv(SweepRooms(s, pending, now).state)
    decreases |pending|
  {
    if pending != [] {
      SweepRoomKeepsInv(s, pending[0], now);
      SweepRoomsKeepsInv(SweepRoom(s, pending[0], now).state, pending[1..], now);
    }
  }

  /** Every sweeper tick keeps the invariant. */
  lemma SweepKeepsInv(s: RelayState, now: int)
    requires Inv(s)
    ensures Inv(Sweep(s, now).state)
  {
    SweepRoomsKeepsInv(s, s.order, now);
  }

  /** The relay starts out satisfying the invariant. */
  lemma InitialInv()
    ensures Inv(Initial)
  {
  }
}
