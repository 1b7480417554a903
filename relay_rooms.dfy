/**
 * Operations on one room of the relay (server.ts): the client-table updates (`set`,
 * `delete`, the sweeper's filter), `touch`, `rebalance`, the presence roster and the three
 * delivery primitives, each as a function of the room.
 */
module RelayRooms {
  import opened Wrappers
  import opened RelayTypes

  /** `HEARTBEAT_TIMEOUT_MS`. */
  const HeartbeatTimeoutMs: int := 30000

  /** `TICK_MS`: the sweeper's period; each tick is one call of the sweep. */
  const TickMs: int := 5000

  /** The keys of a client table, in iteration order. */
  function Ids(cs: seq<ClientInfo>): (r: seq<ClientId>)
    ensures |r| == |cs|
    ensures forall i :: 0 <= i < |cs| ==> r[i] == cs[i].id
  {
    seq(|cs|, i requires 0 <= i < |cs| => cs[i].id)
  }

  /** A Map holds each key once. */
  predicate UniqueIds(cs: seq<ClientInfo>) {
    forall i, j :: 0 <= i < j < |cs| ==> cs[i].id != cs[j].id
  }

  /** The shape of every room the registry holds: clients listed once, at least one, and the leader among them. */
  predicate WellFormed(room: Room) {
    && UniqueIds(room.clients)
    && room.clients != []
    && room.leaderId.Some?
    && room.leaderId.value in Ids(room.clients)
  }

  /** The entry of client `id`, if present. */
  function Lookup(cs: seq<ClientInfo>, id: string): (r: Option<ClientInfo>)
    ensures r.None? <==> id !in Ids(cs)
    ensures r.Some? ==> r.value in cs && r.value.id == id
  {
    if cs == [] then None
    else if cs[|cs| - 1].id == id then Some(cs[|cs| - 1])
    else
      assert Ids(cs) == Ids(cs[..|cs| - 1]) + [cs[|cs| - 1].id];
      Lookup(cs[..|cs| - 1], id)
  }

  /**
   * `touch`: the entry of `id` gets `lastSeen = now`; every other entry, the keys and
   * their order stay as they are. An absent id changes nothing.
   */
  function Touch(cs: seq<ClientInfo>, id: string, now: int): (r: seq<ClientInfo>)
    ensures Ids(r) == Ids(cs)
    ensures forall i :: 0 <= i < |cs| && cs[i].id != id ==> r[i] == cs[i]
    ensures forall i :: 0 <= i < |cs| && cs[i].id == id ==> r[i].lastSeen == now
    ensures id !in Ids(cs) ==> r == cs
  {
    seq(|cs|, i requires 0 <= i < |cs| => if cs[i].id == id then ClientInfo(cs[i].id, now) else cs[i])
  }

  /**
   * `clients.set(id, { lastSeen: now })`: an existing key keeps its place and gets the new
   * time, every other entry staying as it was; a new key goes last.
   */
  function Upsert(cs: seq<ClientInfo>, id: ClientId, now: int): (r: seq<ClientInfo>)
    ensures id in Ids(r) && Lookup(r, id) == Some(ClientInfo(id, now))
    ensures forall x :: x in Ids(r) <==> x in Ids(cs) || x == id
    ensures UniqueIds(cs) ==> UniqueIds(r)
    ensures id in Ids(cs) ==> r == Touch(cs, id, now)
    ensures id !in Ids(cs) ==> r == cs + [ClientInfo(id, now)]
  {
    if id in Ids(cs) then
      var r := Touch(cs, id, now);
      assert UniqueIds(cs) ==> UniqueIds(r) by {
        if UniqueIds(cs) {
          forall i, j | 0 <= i < j < |r| ensures r[i].id != r[j].id {
            assert Ids(r)[i] == Ids(cs)[i] && Ids(r)[j] == Ids(cs)[j];
          }
        }
      }
      var found := Lookup(r, id).value;
      assert found == ClientInfo(id, now) by {
        var k :| 0 <= k < |r| && r[k] == found;
        assert Ids(r)[k] == Ids(cs)[k];
      }
      r
    else
      var r := cs + [ClientInfo(id, now)];
      assert Ids(r) == Ids(cs) + [id];
      assert r[..|r| - 1] == cs;
      r
  }

  /** `clients.delete(id)`: the entry of `id` goes, the others keep their order. */
  function Without(cs: seq<ClientInfo>, id: string): (r: seq<ClientInfo>)
    ensures forall c :: c in r <==> c in cs && c.id != id
    ensures |r| <= |cs|
    ensures UniqueIds(cs) ==> UniqueIds(r)
    decreases |cs|
  {
    if cs == [] then []
    else
      var init := cs[..|cs| - 1];
      var last := cs[|cs| - 1];
      var rest := Without(init, id);
      assert cs == init + [last];
      assert Ids(cs) == Ids(init) + [last.id];
      if last.id == id then rest
      else
        var r := rest + [last];
        assert UniqueIds(cs) ==> UniqueIds(r) by {
          if UniqueIds(cs) {
            UniqueSnoc(init, rest, last);
          }
        }
        r
  }

  /**
   * Appending the last client of `init + [c]` to a selection `rest` of `init` keeps the
   * ids distinct.
   */
  lemma UniqueSnoc(init: seq<ClientInfo>, rest: seq<ClientInfo>, c: ClientInfo)
    requires UniqueIds(init + [c]) && UniqueIds(rest)
    requires forall i :: 0 <= i < |rest| ==> rest[i] in init
    ensures UniqueIds(rest + [c])
  {
    var cs := init + [c];
    var r := rest + [c];
    forall i, j | 0 <= i < j < |r| ensures r[i].id != r[j].id {
      if j == |rest| {
        var k :| 0 <= k < |init| && init[k] == rest[i];
        assert cs[k] == rest[i] && cs[|init|] == c;
      } else {
        assert r[i] == rest[i] && r[j] == rest[j];
      }
    }
  }

  /** After `clients.delete(id)` the table's ids are the old ones but `id`. */
  lemma WithoutIds(cs: seq<ClientInfo>, id: string)
    ensures forall x :: x in Ids(Without(cs, id)) <==> x in Ids(cs) && x != id
  {
    var r := Without(cs, id);
    forall x | x in Ids(r) ensures x in Ids(cs) && x != id {
      var i :| 0 <= i < |r| && Ids(r)[i] == x;
      var k :| 0 <= k < |cs| && cs[k] == r[i];
      assert Ids(cs)[k] == x;
    }
    forall x | x in Ids(cs) && x != id ensures x in Ids(r) {
      var k :| 0 <= k < |cs| && Ids(cs)[k] == x;
      var i :| 0 <= i < |r| && r[i] == cs[k];
      assert Ids(r)[i] == x;
    }
  }

  /** The sweeper's test: silent for longer than the heartbeat timeout. */
  predicate Stale(c: ClientInfo, now: int) {
    now - c.lastSeen > HeartbeatTimeoutMs
  }

  /**
   * What the sweeper keeps of a client table: the entries that are not stale, unchanged
   * and in their order. The table is unchanged exactly when nobody is stale.
   */
  function Live(cs: seq<ClientInfo>, now: int): (r: seq<ClientInfo>)
    ensures forall c :: c in r <==> c in cs && !Stale(c, now)
    ensures |r| <= |cs|
    ensures |r| == |cs| ==> r == cs
    ensures UniqueIds(cs) ==> UniqueIds(r)
    decreases |cs|
  {
    if cs == [] then []
    else
      var init := cs[..|cs| - 1];
      var last := cs[|cs| - 1];
      var rest := Live(init, now);
      var r := if Stale(last, now) then rest else rest + [last];
      assert cs == init + [last];
      assert forall i :: 0 <= i < |init| ==> cs[i] == init[i];
      assert |r| == |cs| ==> r == cs by {
        if |r| == |cs| {
          assert !Stale(last, now) && |rest| == |init|;
        }
      }
      assert UniqueIds(cs) ==> UniqueIds(r) by {
        if UniqueIds(cs) && !Stale(last, now) {
          UniqueSnoc(init, rest, last);
        }
      }
      r
  }

  /** The sweeper leaves a table as it was exactly when none of its clients is stale. */
  lemma {:induction false} LiveUnchanged(cs: seq<ClientInfo>, now: int)
    ensures |Live(cs, now)| == |cs| <==> forall i :: 0 <= i < |cs| ==> !Stale(cs[i], now)
    decreases |cs|
  {
    if cs != [] {
      var init := cs[..|cs| - 1];
      LiveUnchanged(init, now);
      assert forall i :: 0 <= i < |init| ==> cs[i] == init[i];
    }
  }

  /** The ids the sweeper terminates: those of the stale entries, in table order. */
  function StaleIds(cs: seq<ClientInfo>, now: int): (r: seq<ClientId>)
    ensures forall x :: x in r <==> exists c :: c in cs && Stale(c, now) && c.id == x
    ensures |r| + |Live(cs, now)| == |cs|
    decreases |cs|
  {
    if cs == [] then []
    else
      var init := cs[..|cs| - 1];
      var last := cs[|cs| - 1];
      var rest := StaleIds(init, now);
      assert forall c :: c in cs <==> c in init || c == last;
      if Stale(last, now) then rest + [last.id] else rest
  }

  /** The sweep of a room's first `j + 1` clients extends that of its first `j` by at most one entry. */
  lemma SweepPrefix(cs: seq<ClientInfo>, j: int, now: int)
    requires 0 <= j < |cs|
    ensures Live(cs[..j + 1], now) == if Stale(cs[j], now) then Live(cs[..j], now) else Live(cs[..j], now) + [cs[j]]
    ensures StaleIds(cs[..j + 1], now) == if Stale(cs[j], now) then StaleIds(cs[..j], now) + [cs[j].id] else StaleIds(cs[..j], now)
  {
    assert cs[..j + 1][..j] == cs[..j];
  }

  /**
   * `rebalance` on a room still in the registry: an empty room is deleted (None);
   * otherwise a missing or departed leader is replaced by the first remaining client and
   * a leader who is still a member keeps the role.
   */
  function Rebalanced(room: Room): (r: Option<Room>)
    ensures r.None? <==> room.clients == []
    ensures r.Some? ==> r.value.clients == room.clients
    ensures r.Some? ==> r.value.leaderId.Some? && r.value.leaderId.value in Ids(room.clients)
    ensures r.Some? && room.leaderId.Some? && room.leaderId.value in Ids(room.clients) ==> r.value == room
    ensures r.Some? && !(room.leaderId.Some? && room.leaderId.value in Ids(room.clients))
            ==> r.value.leaderId == Some(room.clients[0].id)
    ensures r.Some? && UniqueIds(room.clients) ==> WellFormed(r.value)
  {
    if room.clients == [] then None
    else if room.leaderId.None? || room.leaderId.value !in Ids(room.clients) then
      assert Ids(room.clients)[0] == room.clients[0].id;
      Some(room.(leaderId := Some(room.clients[0].id)))
    else Some(room)
  }

  function RoleOf(room: Room, id: ClientId): Role {
    if room.leaderId == Some(id) then Leader else Member
  }

  /**
   * The roster of a presence envelope: one entry per client, in table order, with its
   * last-seen time and the role `leader` exactly for the leader's id.
   */
  function Roster(room: Room): (r: seq<PresenceEntry>)
    ensures |r| == |room.clients|
    ensures forall i :: 0 <= i < |r| ==> r[i].clientId == room.clients[i].id && r[i].lastSeen == room.clients[i].lastSeen
    ensures forall i :: 0 <= i < |r| ==> (r[i].role == Leader <==> room.leaderId == Some(room.clients[i].id))
    ensures UniqueIds(room.clients) ==> forall i, j :: 0 <= i < j < |r| ==> r[i].clientId != r[j].clientId
  {
    seq(|room.clients|, i requires 0 <= i < |room.clients| =>
      PresenceEntry(room.clients[i].id, RoleOf(room, room.clients[i].id), room.clients[i].lastSeen))
  }

  /** The `presence` envelope `broadcastPresence` builds for room `rid`. */
  function PresenceOf(rid: RoomId, room: Room): (m: Outgoing)
    ensures m.Presence? && m.roomId == rid && m.leader == room.leaderId && m.clients == Roster(room)
  {
    Presence(rid, Roster(room), room.leaderId)
  }

  /** `broadcast`: one delivery to every client of the table, the sender included, in table order. */
  function ToAll(cs: seq<ClientInfo>, m: Outgoing): (r: seq<Delivery>)
    ensures |r| == |cs|
    ensures forall i :: 0 <= i < |cs| ==> r[i] == Delivery(cs[i].id, m)
    decreases |cs|
  {
    if cs == [] then [] else ToAll(cs[..|cs| - 1], m) + [Delivery(cs[|cs| - 1].id, m)]
  }

  /** `broadcastExcept`: one delivery to every client of the table but `except`, in table order. */
  function ToAllExcept(cs: seq<ClientInfo>, except: string, m: Outgoing): (r: seq<Delivery>)
    ensures forall d :: d in r <==> d.message == m && d.recipient in Ids(cs) && d.recipient != except
    ensures |r| <= |cs|
    ensures UniqueIds(cs) ==> forall i, j :: 0 <= i < j < |r| ==> r[i].recipient != r[j].recipient
    decreases |cs|
  {
    if cs == [] then []
    else
      var init := cs[..|cs| - 1];
      var last := cs[|cs| - 1];
      var rest := ToAllExcept(init, except, m);
      assert Ids(cs) == Ids(init) + [last.id];
      var r := if last.id == except then rest else rest + [Delivery(last.id, m)];
      assert UniqueIds(cs) ==> forall i, j :: 0 <= i < j < |r| ==> r[i].recipient != r[j].recipient by {
        if UniqueIds(cs) && last.id != except {
          forall i | 0 <= i < |rest| ensures rest[i].recipient != last.id {
            assert rest[i] in rest;
            var k :| 0 <= k < |init| && Ids(init)[k] == rest[i].recipient;
          }
        }
      }
      r
  }

  /** The deliveries to a table's first `i + 1` clients extend those to its first `i` by at most one. */
  lemma DeliveryPrefix(cs: seq<ClientInfo>, i: int, except: string, m: Outgoing)
    requires 0 <= i < |cs|
    ensures ToAll(cs[..i + 1], m) == ToAll(cs[..i], m) + [Delivery(cs[i].id, m)]
    ensures ToAllExcept(cs[..i + 1], except, m) ==
              if cs[i].id == except then ToAllExcept(cs[..i], except, m)
              else ToAllExcept(cs[..i], except, m) + [Delivery(cs[i].id, m)]
  {
    assert cs[..i + 1][..i] == cs[..i];
  }

  /** `sendTo`: one delivery to `to` if it is in the table, none otherwise. */
  function ToOne(cs: seq<ClientInfo>, to: string, m: Outgoing): (r: seq<Delivery>)
    ensures |r| <= 1
    ensures r != [] <==> to in Ids(cs)
    ensures forall d :: d in r ==> d.recipient == to && d.message == m
  {
    match Lookup(cs, to)
    case None => []
    case Some(c) => [Delivery(c.id, m)]
  }

  /** The ids a list of deliveries reaches, in order. */
  function Recipients(ds: seq<Delivery>): (r: seq<ClientId>)
    ensures |r| == |ds|
    ensures forall i :: 0 <= i < |ds| ==> r[i] == ds[i].recipient
  {
    seq(|ds|, i requires 0 <= i < |ds| => ds[i].recipient)
  }

  /** A broadcast reaches exactly the room's clients, in table order. */
  lemma {:induction false} ToAllReachesAll(cs: seq<ClientInfo>, m: Outgoing)
    ensures Recipients(ToAll(cs, m)) == Ids(cs)
    ensures forall d :: d in ToAll(cs, m) ==> d.message == m
  {
  }
}
