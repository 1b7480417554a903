# RidePulse relay and client core, in Dafny

RidePulse is a group-ride app. Riders in one ride share a *room* on a WebSocket relay
(`RidePulseAPI/src/server.ts`). The relay does the following:

- it keeps each room's client table and its leader;
- it routes chat, WebRTC signalling, live locations and route updates between members;
- it lets only the leader publish a route or hand the lead on;
- it evicts members whose heartbeat has gone silent.

The iOS client adds several pieces, all modelled here:

- a self-reconnecting socket (`WebSocketClient.swift`);
- a route editor (`RoutePlannerViewModel.swift`);
- a table of other riders' last positions (`LiveLocationViewModel.swift`);
- the field-wise mappings between its route and location values and their wire structs
  (`RouteShareProtocol.swift`, `RoutePlan.swift`, `LiveLocationProtocol.swift`).

## The relay

The relay's state is a `RelayState` value, defined in `relay_transitions.dfy`. It holds:

- the `rooms` registry;
- the registry's insertion order, because a JavaScript `Map` iterates in insertion order and
  that fixes the order of the sweeper's work;
- for every connection, the `roomId` its last `join` named.

A room's client table is a sequence of entries with distinct ids. Keeping it a sequence
preserves the Map's insertion order, so "the first remaining client becomes leader" is
deterministic.

Three events change the state: a parsed message (`Handle`), a connection closing (`Close`)
and a sweeper tick (`Sweep`). Each is a function that returns:

- the next state;
- the frames written, as `Delivery(recipient, message)` values in the order they are written;
- for a sweeper tick, also the connections it terminates.

`Date.now()` is the parameter `now`.

The class `RelayServer.Relay` in `relay_server.dfy` is the imperative handler:

- its fields are the registry, the order and the connection table;
- the delivery primitives are loops over a room's clients;
- the sweeper is a loop over a snapshot of the registry order; for each room, the method
  `Evict` loops over its clients and splits them into survivors and terminated ids, and the
  room is rebalanced only if a client went;
- every method ensures it performs exactly the transition the matching function gives;
- the constructor and the three event handlers (`HandleMessage`, `Close`, `SweepTick`) also
  ensure that the registry invariant `Inv` holds.

`Inv` says:

- every registered room has at least one client;
- it lists each client once;
- its leader is one of its clients;
- the order lists each registered room exactly once.

`relay_invariants.dfy` proves that every event keeps `Inv`. `relay_properties.dfy` proves
what the relay promises its clients:

- the join rules;
- each message kind's routing;
- the route-set and leader-transfer gates;
- the effect of a close and of a sweep;
- a two-rider ride end to end.

The model follows the code in `server.ts`, including these behaviours a reader may not
expect:

- A message's own `roomId` is never read after `join`; the relay routes by the room the
  connection last joined.
- Every recognised message refreshes the sender's `lastSeen` before its gate is checked, so
  a dropped `route-set` or `leader-transfer` still counts as a heartbeat.
- A `join` of a second room does not remove the client from the first. The old entry stays
  until the sweeper evicts it, and a later close only leaves the newer room.
- `rtc-offer` falls back to "everyone but the sender" when `to` is absent or the empty
  string, because `if (msg.to)` treats the empty string as false.
- A connection whose `roomId` is the empty string counts as not joined, both for messages
  and on close, for the same reason.
- A terminated connection's later `close` event is a separate `Close` step on its id. For a
  client the sweeper already removed, that step rebalances the room again, which only sends
  another presence.

## The client socket

`websocket_client.dfy` models the actor as a class:

- its fields are `state`, `retryAttempts`, `shouldReconnect`, whether a task and each loop
  exist, whether a callback is installed, and the `start()` calls scheduled but not yet run;
- it also records the calls suspended on the transport: the sends awaiting `task.send`, the
  current keepalive loop's ping awaiting its continuation, and the receives and pings left
  pending by loops that were cancelled (cancelling a loop does not cancel what it awaits);
- the events handed to the callback are logged in `events`, and the frames written in `sent`;
- each stretch of an actor method between two suspension points is one atomic method:
  `scheduleReconnect` up to its sleep and the `start()` after it, `send` up to `task.send`
  (`Send`) and its resumption (`SendDone`), a keepalive turn up to `sendPing` (`PingTick`) and
  its resumption (`PingDone`, or `StalePingDone` in a cancelled loop), and the completion of a
  receive.

Other steps, `disconnect()` among them, can run while a call is suspended. The transport's
outcomes are parameters: whether a send or ping succeeded, a received frame, an error.

The model follows the code, including these behaviours a reader may not expect:

- `connected` is emitted when `start()` opens the socket, not when the socket is accepted.
- `disconnect()` emits `disconnected` every time it is called.
- The `failed` state exists but is never entered.
- `start()` cancels the old loops but not the old socket task.
- A send or ping still pending when `disconnect()` runs can fail afterwards, and then goes
  through `handleFailure`, so `error` is emitted after `disconnected`. Neither the send path
  nor the ping loop checks for cancellation there.
- A frame that arrives on a receive left pending by a cancelled loop is still emitted, and
  `resetBackoff()` sets the state to `connected` even after `disconnect()`.

## Model

| member | source | states |
|---|---|---|
| RelayRooms.Lookup | RidePulseAPI/src/server.ts:268-274 | the entry for an id is found exactly when the id is a key of the table, and it is that key's entry |
| RelayRooms.Touch | RidePulseAPI/src/server.ts:217-222 | only the sender's entry changes, to `lastSeen = now`; keys, their order and every other entry stay; an absent sender changes nothing |
| RelayRooms.Upsert | RidePulseAPI/src/server.ts:104 | after `set`, the sender's entry is `{lastSeen: now}` and the key set gains exactly the sender; an existing key keeps its place and every other entry stays as it was (the `touch` of that key); a new key goes last; ids stay distinct |
| RelayRooms.Without | RidePulseAPI/src/server.ts:197 | `delete` removes exactly the entries of that id, keeps the others, and keeps ids distinct |
| RelayRooms.WithoutIds | RidePulseAPI/src/server.ts:197 | after `delete` the table's ids are the old ones except the deleted id |
| RelayRooms.Live | RidePulseAPI/src/server.ts:206-212 | the sweeper keeps exactly the entries with `now - lastSeen <= 30000`, in order, with their ids still distinct; a table of the same length is the same table |
| RelayRooms.LiveUnchanged | RidePulseAPI/src/server.ts:206-212 | the sweeper leaves a table as it was exactly when none of its clients is stale |
| RelayRooms.StaleIds | RidePulseAPI/src/server.ts:206-211 | the terminated ids are exactly those of the stale entries; stale and kept together account for the whole table |
| RelayRooms.Rebalanced | RidePulseAPI/src/server.ts:224-237 | an empty room is deleted; a leader still present keeps the role; otherwise the first remaining client leads; the result is well formed |
| RelayRooms.Roster | RidePulseAPI/src/server.ts:246-250 | one presence entry per client in table order, with its lastSeen, role `leader` exactly for `leaderId`, ids distinct |
| RelayRooms.PresenceOf | RidePulseAPI/src/server.ts:239-253 | the presence envelope carries the room, its leader and its full roster |
| RelayRooms.ToAll | RidePulseAPI/src/server.ts:255-262 | `broadcast` writes one frame to each client in table order, the sender included |
| RelayRooms.ToAllExcept | RidePulseAPI/src/server.ts:276-284 | `broadcastExcept` reaches exactly the members other than `except`, each once |
| RelayRooms.ToOne | RidePulseAPI/src/server.ts:268-274 | `sendTo` writes one frame exactly when the target is a member, and only to the target |
| RelayRooms.ToAllReachesAll | RidePulseAPI/src/server.ts:259-261 | a broadcast's recipients are exactly the table's ids, in order, all with the same message |
| RelayTransitions.Unlisted | RidePulseAPI/src/server.ts:228 | deleting a room removes it from the registry order and keeps the rest without duplicates |
| RelayTransitions.CurrentRoom | RidePulseAPI/src/server.ts:112 | a connection is in a room exactly when its `roomId` is set and non-empty |
| RelayTransitions.TouchIn | RidePulseAPI/src/server.ts:217-222 | `touch` changes no room but the sender's, no key and no connection |
| RelayInvariants.InitialInv | RidePulseAPI/src/server.ts:81 | the empty registry satisfies the invariant |
| RelayInvariants.RebalanceRestoresInv | RidePulseAPI/src/server.ts:224-237 | `rebalance` re-establishes the invariant for the room it is called on |
| RelayInvariants.JoinKeepsInv | RidePulseAPI/src/server.ts:101-109 | a join keeps every room non-empty, led by a member, with distinct ids |
| RelayInvariants.TouchKeepsInv | RidePulseAPI/src/server.ts:217-222 | refreshing the sender's `lastSeen` keeps the invariant |
| RelayInvariants.RouteOnlyTouches | RidePulseAPI/src/server.ts:116-178 | routing any kind but `leader-transfer` changes the registry only by touching the sender (a `join` or unknown kind leaves it as it was) |
| RelayInvariants.TransferKeepsInv | RidePulseAPI/src/server.ts:179-190 | routing a `leader-transfer` keeps the invariant, because the sender is only touched and the new leader must be a member |
| RelayInvariants.RouteKeepsInv | RidePulseAPI/src/server.ts:116-191 | routing any message keeps the invariant, including a leader transfer |
| RelayInvariants.HandleKeepsInv | RidePulseAPI/src/server.ts:93-191 | the whole message handler keeps the invariant |
| RelayInvariants.CloseKeepsInv | RidePulseAPI/src/server.ts:194-199 | a close keeps the invariant: no empty room lingers and no leader is a departed member |
| RelayInvariants.SweepRoomKeepsInv | RidePulseAPI/src/server.ts:205-213 | sweeping one room keeps the invariant |
| RelayInvariants.SweepRoomsKeepsInv | RidePulseAPI/src/server.ts:204-214 | sweeping any list of rooms keeps the invariant (by induction on the list) |
| RelayInvariants.SweepKeepsInv | RidePulseAPI/src/server.ts:202-215 | a sweeper tick keeps the invariant |
| RelayServer.Relay.constructor | RidePulseAPI/src/server.ts:81 | the relay starts with no rooms and no joined connections |
| RelayServer.Relay.Broadcast | RidePulseAPI/src/server.ts:255-262 | the loop over the room's clients writes exactly the broadcast's frames |
| RelayServer.Relay.BroadcastExcept | RidePulseAPI/src/server.ts:276-284 | the loop that skips `except` writes exactly the frames of `broadcastExcept` |
| RelayServer.Relay.SendTo | RidePulseAPI/src/server.ts:268-274 | at most one frame, to the target, when the target is in the room |
| RelayServer.Relay.BroadcastPresence | RidePulseAPI/src/server.ts:239-253 | the room's presence goes to every member |
| RelayServer.Relay.Touch | RidePulseAPI/src/server.ts:217-222 | the in-place `lastSeen` update is the `touch` transition |
| RelayServer.Relay.Rebalance | RidePulseAPI/src/server.ts:224-237 | deleting an empty room or fixing its leader and broadcasting presence is the `rebalance` transition |
| RelayServer.Relay.Join | RidePulseAPI/src/server.ts:101-109 | the join branch is the join transition, ack first and presence after |
| RelayServer.Relay.Route | RidePulseAPI/src/server.ts:116-191 | the `switch` on the message type is the routing transition for every kind |
| RelayServer.Relay.HandleMessage | RidePulseAPI/src/server.ts:93-191 | the message handler performs `Handle` and keeps the invariant |
| RelayServer.Relay.Close | RidePulseAPI/src/server.ts:194-199 | the close handler performs `Close` and keeps the invariant |
| RelayServer.Evict | RidePulseAPI/src/server.ts:206-211 | the loop over a room's clients keeps exactly the live ones, in order, and terminates exactly the stale ones, in order |
| RelayServer.Relay.SweepRoom | RidePulseAPI/src/server.ts:205-213 | one room's sweep removes exactly the stale clients, terminates them, and rebalances only if one went |
| RelayServer.Relay.SweepRooms | RidePulseAPI/src/server.ts:204-214 | the outer loop over the registry order composes the per-room sweeps in order |
| RelayServer.Relay.SweepTick | RidePulseAPI/src/server.ts:202-215 | one tick performs `Sweep` and keeps the invariant |
| RelayProperties.EnterRoom | RidePulseAPI/src/server.ts:101-105 | after a join the room exists and holds the sender with `lastSeen = now`; in an existing room the table is `set` at the sender, so the other members keep their entries and order and a returning sender its place; an existing leader stays; a new room holds only the sender, who leads |
| RelayProperties.EnterElsewhere | RidePulseAPI/src/server.ts:101-106 | a join points only the sender's connection at the room and leaves every other room and connection alone |
| RelayProperties.JoinState | RidePulseAPI/src/server.ts:101-106 | a join creates the room if absent and sets the sender to `lastSeen = now`, leaving the other members' entries and order as they were; it keeps an existing leader (the joiner leads a new room), points the connection at the room and leaves other rooms alone |
| RelayProperties.JoinOutput | RidePulseAPI/src/server.ts:107-108 | the sender gets `joined` with the leader first, then every member gets the presence |
| RelayProperties.NotInRoomIgnored | RidePulseAPI/src/server.ts:112-114 | any message but `join` from a connection that is not in a room, or whose room is gone, changes nothing and sends nothing |
| RelayProperties.MessageOnlyTouches | RidePulseAPI/src/server.ts:117-178 | every recognised kind other than `leader-transfer` changes the state exactly by the `touch` of the sender: the sender's `lastSeen` becomes `now`; every other member's entry, the leader, the keys and the other rooms stay |
| RelayProperties.RouteTouchKeepsIds | RidePulseAPI/src/server.ts:217-222 | touching keeps the room's ids, their order, distinctness and the leader |
| RelayProperties.HeartbeatPongs | RidePulseAPI/src/server.ts:117-120 | a heartbeat is answered by exactly one `pong` carrying `now`, to the sender only |
| RelayProperties.ChatReachesAll | RidePulseAPI/src/server.ts:121-130 | a chat line reaches every member, the sender included, in table order |
| RelayProperties.OfferRouting | RidePulseAPI/src/server.ts:131-140 | an offer with a target reaches at most that target, and does so exactly when it is a member; without one it reaches every member but the sender |
| RelayProperties.AnswerAndIceDirected | RidePulseAPI/src/server.ts:141-152 | an answer or ICE candidate reaches only its target, exactly when the target is given and a member |
| RelayProperties.LocationReachesOthers | RidePulseAPI/src/server.ts:153-167 | a location reaches exactly the other members, each once, never the sender |
| RelayProperties.RouteSetOnlyFromLeader | RidePulseAPI/src/server.ts:169-178 | a route-set is delivered if and only if the sender leads the room, and then to every member including the sender |
| RelayProperties.LeaderTransferRule | RidePulseAPI/src/server.ts:179-190 | the leader becomes `to` if and only if the sender leads and `to` is a member; then presence to all and, last, the ack to the sender; otherwise nothing is sent |
| RelayProperties.CloseEffect | RidePulseAPI/src/server.ts:194-199 | a close removes the client; an emptied room is deleted and unlisted; otherwise a departing leader is replaced by the first remaining member and the remaining members get the presence |
| RelayProperties.RebalanceAfterLeave | RidePulseAPI/src/server.ts:224-237 | after a member leaves a room that still has clients, a departed leader is replaced by the first client, a remaining leader stays, and every client gets the presence |
| RelayProperties.CloseUnjoined | RidePulseAPI/src/server.ts:194-195 | closing a connection that is not in a room only forgets the connection |
| RelayProperties.CloseRoomGone | RidePulseAPI/src/server.ts:194-199 | closing a connection whose room is no longer registered only forgets the connection and sends nothing |
| RelayProperties.RebalanceEffect | RidePulseAPI/src/server.ts:224-237 | `rebalance` keeps other rooms and the members, deletes the room only when it is empty, and sends only presence |
| RelayProperties.SweepRoomEffect | RidePulseAPI/src/server.ts:205-213 | a room with no stale client is left exactly as it was, and nothing is sent or terminated; otherwise it keeps exactly its live clients, its stale clients are terminated, a surviving room follows the leader rule and is announced by `broadcastPresence`, and an emptied room is deleted without a frame |
| RelayProperties.SweepShrinks | RidePulseAPI/src/server.ts:205-213 | a room that lost a client: the stale ones are terminated; if none is left the room is deleted and nothing is sent; otherwise the survivors stay in order, a leader among them keeps the role (else the first survivor leads), and each survivor gets the room's new presence once, in table order |
| RelayProperties.SweepRoomsEffect | RidePulseAPI/src/server.ts:204-214 | over distinct pending rooms: each keeps exactly its live clients; rooms not pending are untouched; the terminated ids are exactly the stale clients; the frames are exactly the new presence of each room that lost some but not all clients, to its members, in visiting order |
| RelayProperties.SweepEffect | RidePulseAPI/src/server.ts:202-215 | a tick evicts exactly the clients silent for more than 30000 ms and deletes rooms left empty; a room with no stale client is left exactly as it was; every surviving leader is still live, else the first live client leads; the frames are exactly the new presence of each room that lost some but not all clients, sent to its survivors, room by room in registry order |
| RelayProperties.Reannounced | RidePulseAPI/src/server.ts:213 | the rooms a tick announces are exactly the pending rooms that lost some but not all of their clients |
| RelayProperties.AnnounceReaches | RidePulseAPI/src/server.ts:239-253 | the announcements reach exactly the members of the listed rooms, each with its own room's presence |
| RelayProperties.PresenceReaches | RidePulseAPI/src/server.ts:239-253 | `broadcastPresence` reaches each member of the room once, in table order, with the room's presence, and nobody when the room is gone |
| RelayProperties.RebalanceSurvivors | RidePulseAPI/src/server.ts:224-237 | `rebalance` of a room with clients: a leader among them stays, else the first client leads, and each client gets the new presence once |
| RelayProperties.SweepIsRebalance | RidePulseAPI/src/server.ts:205-213 | a room that lost a client is `rebalance`d with its stale clients taken out, and those are the ones terminated |
| RelayProperties.SweepShrinksRooms | RidePulseAPI/src/server.ts:205-213 | after an eviction the other rooms and connections stay, the room is deleted exactly when emptied, and an emptied room sends nothing |
| RelayProperties.SweepShrinksSurvivors | RidePulseAPI/src/server.ts:205-213 | a room that keeps some clients after an eviction follows the leader rule, and each survivor gets its presence |
| RelayProperties.SweepRoomsFrames | RidePulseAPI/src/server.ts:204-214 | a sweep's frames are the first room's announcement followed by those of the later rooms |
| RelayProperties.SweepRoomsLeaders | RidePulseAPI/src/server.ts:204-214 | over distinct pending rooms, a room with no stale client is left as it was and a room that lost some follows the leader rule |
| RelayProperties.PresenceSingleLeader | RidePulseAPI/src/server.ts:242-250 | a roster of a well-formed room names exactly one leader, the room's |
| RelayProperties.EnterNewRoom | RidePulseAPI/src/server.ts:101-105 | the first join of a room creates it with the sender alone, as leader |
| RelayProperties.EnterSecond | RidePulseAPI/src/server.ts:101-105 | a second rider joining a room of one goes after the first, who keeps the lead |
| RelayProperties.RideEnters | RidePulseAPI/src/server.ts:101-106 | from any registry that keeps the invariant and lacks the ride's room, two joins leave both riders in it, in join order, the first leading |
| RelayProperties.RideJoins | RidePulseAPI/src/server.ts:93-109 | the same through the message handler: after both joins both riders are in the room, in join order, and the first leads |
| RelayProperties.RideRouteSet | RidePulseAPI/src/server.ts:169-178 | while both ride, the leader's route reaches the other rider and the other rider's route is dropped |
| RelayProperties.RideHandover | RidePulseAPI/src/server.ts:179-190 | the leader hands the lead to the other rider, and both get a presence naming the new leader |
| RelayProperties.RideEndToEnd | RidePulseAPI/src/server.ts:101-190 | from any registry without the ride's room, for two distinct riders a and b: a joins and leads, b joins, a's route reaches b, b's is dropped, a hands over to b, and then b's route reaches a |
| Connection.BackoffBase | RidePulse/Core/Networking/WebSocketClient.swift:144 | the base delay is `2^attempts` while that is below 30 seconds, and 30 seconds otherwise; never below 1 |
| Connection.Pow2Monotone | RidePulse/Core/Networking/WebSocketClient.swift:144 | `2^n` grows with `n` |
| Connection.BackoffBounds | RidePulse/Core/Networking/WebSocketClient.swift:143-144 | from the first retry on, the base lies between 2 and 30 seconds |
| Connection.BackoffMonotone | RidePulse/Core/Networking/WebSocketClient.swift:143-144 | the base never shrinks as the attempts grow |
| Connection.BackoffCapped | RidePulse/Core/Networking/WebSocketClient.swift:144 | from the fifth retry on, the base is exactly 30 seconds |
| Connection.BackoffSchedule | RidePulse/Core/Networking/WebSocketClient.swift:143-144 | retries 1 to 6 wait 2, 4, 8, 16, 30 and 30 seconds before jitter |
| Connection.WebSocketClient.IsConnected | RidePulse/Core/Networking/WebSocketClient.swift:156-161 | true exactly in the `connected` state |
| Connection.WebSocketClient.constructor | RidePulse/Core/Networking/WebSocketClient.swift:22-35 | a new client is disconnected, with no retries, reconnecting allowed, no task and no callback |
| Connection.WebSocketClient.Emit | RidePulse/Core/Networking/WebSocketClient.swift:168-171 | an event reaches the log only once a callback is installed |
| Connection.WebSocketClient.Connect | RidePulse/Core/Networking/WebSocketClient.swift:37-41 | installs the callback, turns reconnecting on and schedules one `start()` |
| Connection.WebSocketClient.Start | RidePulse/Core/Networking/WebSocketClient.swift:73-84 | a no-op when reconnecting is off or already connecting; otherwise the old loops are cancelled (what they await stays pending), then `connecting`, a new task and both loops, and `connected` emitted; a stopped client stays stopped and silent |
| Connection.WebSocketClient.CancelLoops | RidePulse/Core/Networking/WebSocketClient.swift:75-76 | both loops of the current task stop; a receive or ping they await stays pending as a stale call |
| Connection.WebSocketClient.Disconnect | RidePulse/Core/Networking/WebSocketClient.swift:61-69 | reconnecting off, loops cancelled, no task, `disconnected` state, `disconnected` emitted; afterwards the client is stopped, and quiet exactly when no send, receive or ping is still pending |
| Connection.WebSocketClient.ResetBackoff | RidePulse/Core/Networking/WebSocketClient.swift:151-154 | attempts back to 0 and the state `connected` |
| Connection.WebSocketClient.ScheduleReconnect | RidePulse/Core/Networking/WebSocketClient.swift:140-149 | a no-op when reconnecting is off or already disconnected; otherwise `disconnected`, attempts exactly one more, and a `start()` scheduled after the new base delay |
| Connection.WebSocketClient.HandleFailure | RidePulse/Core/Networking/WebSocketClient.swift:163-166 | the error is emitted before the reconnect is scheduled |
| Connection.WebSocketClient.Send | RidePulse/Core/Networking/WebSocketClient.swift:43-55 | nothing unless `connected` with a task; otherwise the payload is handed to the transport and the call stays suspended; nothing is emitted or written yet |
| Connection.WebSocketClient.SendDone | RidePulse/Core/Networking/WebSocketClient.swift:45-58 | a suspended send resumes: an accepted payload is written; a refusal goes through the failure path whatever happened meanwhile, so it emits `error` even after `disconnect()`; a stopped client stays stopped |
| Connection.WebSocketClient.ReceiveFrame | RidePulse/Core/Networking/WebSocketClient.swift:92-104 | a frame received by the running loop, or by a receive a cancelled loop left pending, resets the attempts to 0, sets `connected` and is emitted as text or data; a quiet client stays quiet |
| Connection.WebSocketClient.ReceiveFailure | RidePulse/Core/Networking/WebSocketClient.swift:105-109 | a receive error in the running loop goes through the failure path and ends the loop; in a cancelled loop it ends that loop quietly |
| Connection.WebSocketClient.PingTick | RidePulse/Core/Networking/WebSocketClient.swift:120-125 | after its sleep the keepalive loop pings only while `connected`, and then awaits the answer; nothing is emitted |
| Connection.WebSocketClient.PingDone | RidePulse/Core/Networking/WebSocketClient.swift:123-136 | the running loop's ping resumes: an answered ping is written and the loop goes on; a failed one goes through the failure path and ends the loop |
| Connection.WebSocketClient.StalePingDone | RidePulse/Core/Networking/WebSocketClient.swift:123-136 | a ping a cancelled loop left pending resumes: a failure still goes through the failure path, so `error` can follow `disconnect()`; a stopped client stays stopped |
| RouteModel.SameStop | RidePulse/Core/Models/RoutePlan.swift:36-41 | two stops are equal exactly when id, name, latitude and longitude are |
| RouteModel.NewPlan | RidePulse/Core/Models/RoutePlan.swift:59-73 | the initialiser stores each argument in its field |
| RouteModel.NewPlanDefaults | RidePulse/Core/Models/RoutePlan.swift:63-64 | by default a plan has no intermediate stops and no polyline |
| RouteModel.SamplePlan | RidePulse/Core/Models/RoutePlan.swift:75-80 | the sample plan has exactly one intermediate stop, no polyline, and its three named places |
| RouteModel.EncodeStop | RidePulse/Core/Models/RoutePlan.swift:28-34 | a stop is written under exactly the keys id, name, lat and lng, lat and lng taken from the coordinate |
| RouteModel.DecodeString | RidePulse/Core/Models/RoutePlan.swift:21-22 | a string field decodes exactly when present and a string; otherwise key-not-found or type-mismatch |
| RouteModel.DecodeNumber | RidePulse/Core/Models/RoutePlan.swift:23-24 | a number field decodes exactly when present and a number; otherwise key-not-found or type-mismatch |
| RouteModel.DecodeStopSucceedsIff | RidePulse/Core/Models/RoutePlan.swift:19-26 | decoding succeeds if and only if the four keys hold values of the right kind |
| RouteModel.DecodeEncodeStop | RidePulse/Core/Models/RoutePlan.swift:19-34 | decode(encode(s)) == s |
| RouteModel.EncodeDecodeStop | RidePulse/Core/Models/RoutePlan.swift:19-34 | a decodable container encodes back to itself restricted to the four keys |
| RouteShare.StopPayload | RidePulse/Core/Networking/RouteShareProtocol.swift:46-50 | a stop's payload copies id and name and splits the coordinate into lat and lng |
| RouteShare.ToRouteStop | RidePulse/Core/Networking/RouteShareProtocol.swift:65-69 | a payload's stop copies id and name and rebuilds the coordinate |
| RouteShare.StopPayloads | RidePulse/Core/Networking/RouteShareProtocol.swift:32 | one payload per stop, same count, same order |
| RouteShare.RouteStops | RidePulse/Core/Networking/RouteShareProtocol.swift:58 | one stop per payload, same count, same order |
| RouteShare.Payload | RidePulse/Core/Networking/RouteShareProtocol.swift:28-35 | the payload copies id, polyline and time, maps start, destination and every stop |
| RouteShare.ToRoutePlan | RidePulse/Core/Networking/RouteShareProtocol.swift:52-63 | the plan copies id, polyline and time, maps start, destination and every stop |
| RouteShare.Encode | RidePulse/Core/Networking/RouteShareProtocol.swift:27-38 | the message's type is always `route-set` and it carries the room id |
| RouteShare.Decode | RidePulse/Core/Networking/RouteShareProtocol.swift:40-43 | decoding yields the payload's plan |
| RouteShare.StopsRoundTrip | RidePulse/Core/Networking/RouteShareProtocol.swift:32-58 | mapping stops to payloads and back restores them, count and order included |
| RouteShare.PayloadsRoundTrip | RidePulse/Core/Networking/RouteShareProtocol.swift:32-58 | mapping payloads to stops and back restores them |
| RouteShare.PlanRoundTrip | RidePulse/Core/Networking/RouteShareProtocol.swift:27-63 | `toRoutePlan(payload(plan)) == plan` |
| RouteShare.PayloadRoundTrip | RidePulse/Core/Networking/RouteShareProtocol.swift:27-63 | `payload(toRoutePlan(p)) == p` |
| RouteShare.ShareRoundTrip | RidePulse/Core/Networking/RouteShareProtocol.swift:27-43 | decoding an encoded plan gives the plan back, whatever the room |
| LiveLocationProtocol.NonNegative | RidePulse/Core/Networking/LiveLocationProtocol.swift:22-23 | absent exactly for a negative value, otherwise the value itself |
| LiveLocationProtocol.Encode | RidePulse/Core/Networking/LiveLocationProtocol.swift:16-27 | type `location`; room and rider copied; lat and lng from the coordinate; heading absent iff course < 0, speed absent iff speed < 0 |
| LiveLocationProtocol.Decode | RidePulse/Core/Networking/LiveLocationProtocol.swift:29-39 | the rider position keeps rider id, coordinate, speed, heading and time |
| LiveLocationProtocol.DecodeEncode | RidePulse/Core/Networking/LiveLocationProtocol.swift:16-39 | a reading arrives as the same position and time, with course and speed kept exactly when known |
| LiveRiders.StampedSince | RidePulse/Features/Map/LiveLocationViewModel.swift:17 | keeps exactly the entries stamped at or after the cutoff, unchanged |
| LiveRiders.PruneIdempotent | RidePulse/Features/Map/LiveLocationViewModel.swift:15-18 | pruning twice with the same cutoff is pruning once |
| LiveRiders.Values | RidePulse/Features/Map/LiveLocationViewModel.swift:12 | the array lists each value of the dictionary once, so one entry per rider |
| LiveRiders.LiveLocationViewModel.constructor | RidePulse/Features/Map/LiveLocationViewModel.swift:7-8 | the table starts empty |
| LiveRiders.LiveLocationViewModel.ApplyRemoteUpdate | RidePulse/Features/Map/LiveLocationViewModel.swift:10-13 | the rider's entry is overwritten, every other key keeps its entry, and the array lists the values |
| LiveRiders.LiveLocationViewModel.PruneOlder | RidePulse/Features/Map/LiveLocationViewModel.swift:15-19 | keeps exactly the entries stamped at or after `now - seconds` (60 by default), and the array lists the values |
| RoutePlanner.WithoutStop | RidePulse/Features/Route/RoutePlannerViewModel.swift:30 | `removeAll` keeps exactly the stops with another id |
| RoutePlanner.WithoutStopAppend | RidePulse/Features/Route/RoutePlannerViewModel.swift:30 | removal distributes over concatenation, so the survivors keep their relative order |
| RoutePlanner.WithoutStopIdempotent | RidePulse/Features/Route/RoutePlannerViewModel.swift:29-32 | removing the same stop twice is removing it once |
| RoutePlanner.WithoutAbsentStop | RidePulse/Features/Route/RoutePlannerViewModel.swift:30 | removing an absent id leaves the stops as they are |
| RoutePlanner.Renamed | RidePulse/Features/Route/RoutePlannerViewModel.swift:15 | the renamed endpoint keeps its id and coordinate |
| RoutePlanner.RoutePlannerViewModel.constructor | RidePulse/Features/Route/RoutePlannerViewModel.swift:10-12 | holds the given plan and starts as leader |
| RoutePlanner.RoutePlannerViewModel.UpdateStart | RidePulse/Features/Route/RoutePlannerViewModel.swift:14-17 | only the start's name and `updatedAt` change |
| RoutePlanner.RoutePlannerViewModel.UpdateDestination | RidePulse/Features/Route/RoutePlannerViewModel.swift:19-22 | only the destination's name and `updatedAt` change |
| RoutePlanner.RoutePlannerViewModel.AddStop | RidePulse/Features/Route/RoutePlannerViewModel.swift:24-27 | exactly one stop is appended; earlier stops stay; `updatedAt` is the clock |
| RoutePlanner.RoutePlannerViewModel.RemoveStop | RidePulse/Features/Route/RoutePlannerViewModel.swift:29-32 | no stop with that id remains, the rest keep their order; `updatedAt` is the clock |
| RoutePlanner.RoutePlannerViewModel.ApplyRemote | RidePulse/Features/Route/RoutePlannerViewModel.swift:34-36 | the plan is replaced wholesale, its own `updatedAt` included |
| RoutePlanner.RoutePlannerViewModel.EncodedRoute | RidePulse/Features/Route/RoutePlannerViewModel.swift:38-40 | the encoded message is a `route-set` for the room and decodes back to the current plan |

## Left out

- Transport: WebSocket objects, `ws.send`, `terminate` and `readyState` are left out. Every socket is taken to be open, and a terminated connection appears only in the sweeper's list of closed ids.
- JSON: `JSON.parse` and `JSON.stringify` are left out. A message that fails to parse has no effect (`server.ts:96-99`), so the model takes a parsed message whose `type` and fields have the types the protocol gives them.
- A message that parses to `null` (the text `null`) is left out: `msg.type` then throws inside the `message` listener (`server.ts:101`), and `Incoming` has no value for it.
- A `join` without a `roomId`, or with a non-string one, is left out: the code stores a room under the key `undefined` (or that value) and sets the connection's `roomId` to it (`server.ts:102-106`), while the model's room ids are strings. After such a join, `!roomId` holds, so the connection's later messages are ignored.
- `uuid()` is left out. Connection ids are any non-empty strings.
- The relay's `setInterval` and `console.log` are left out. One sweeper tick is one call.
- A message handler reads the clock once: the one `now` parameter stands for its separate `Date.now()` calls (in the join, in `touch`, in the pong and in the chat stamp), which in the program can differ.
- Client timing: jitter (`Double.random`), the `Double` delay, `Task.sleep` and the ping interval are left out. Only the integer backoff base is modelled.
- Client transport: `URLSessionWebSocketTask` itself is left out. Its outcomes are parameters, and so is the order in which suspended calls resume.
- Actor reentrancy is modelled only at the suspension points named above. The hops between an actor method and its own `await`ed helpers (`emit`, `resetBackoff`, `handleFailure`) are not, because nothing else runs on the actor during them.
- Client frames of an `@unknown default` kind are left out.
- Connection.WebSocketClient.Start: requires a scheduled `start()`, because `start()` is private and runs only from `connect` or after a backoff.
- Client errors: the `Error` value of a failed send, ping or receive is an error text passed as a parameter.
- Connection.WebSocketClient.PingTick: requires that the loop is not awaiting a ping, since the loop reaches the end of its sleep only after the previous ping resumed.
- Connection.WebSocketClient.PingTick: a cancelled loop is taken to stop at its next turn. In the code, `try? await Task.sleep` swallows the cancellation (`WebSocketClient.swift:121`), so a loop cancelled during its sleep still runs one more turn: if the client is then `connected` it pings its old socket task (`WebSocketClient.swift:122-125`), and a failed ping goes through `handleFailure`. That last ping is not modelled.
- Dates are seconds since 1970 as `real`. `Date` ↔ `timeIntervalSince1970` conversion, floating-point rounding and NaN are left out.
- LiveLocationProtocol.Decode: the fresh UUID of a decoded position is a parameter.
- RoutePlanner.RoutePlannerViewModel.AddStop: the fresh UUID of a new stop is a parameter.
- RouteModel.SamplePlan: the fresh UUIDs of the sample plan are parameters.
- `Hasher` in `RoutePlan.swift` is left out; hashing plays no part in the behaviour modelled.
- RouteModel.EncodeStop: the keyed container is a map from key to string or number. The JSON text is not modelled.
- LiveRiders.Values: the order of `Array(ridersMap.values)` is unspecified, so any order is allowed. Only contents and uniqueness are stated.
- The rest of the app is not part of this model: views, map views, the messaging services, chat, permissions, audio and WebRTC.
