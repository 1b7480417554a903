/**
 * The envelopes of the room relay (server.ts) and the per-room data it keeps. A room's
 * client table is a JavaScript Map, whose iteration order is insertion order; it is kept
 * here as a sequence of entries with distinct ids.
 */
module RelayTypes {
  import opened Wrappers
  import RouteShare

  /** A connection id, made by `uuid()` when the connection opens; never empty. */
  type ClientId = id: string | id != "" witness "client"

  /** A room id is whatever a `join` names; the empty string is a valid key but a falsy `roomId`. */
  type RoomId = string

  /** An opaque JSON value the relay forwards without looking inside (an ICE candidate). */
  type Json = string

  datatype Role = Leader | Member

  /** An entry of a room's client table; the socket itself is not modelled. */
  datatype ClientInfo = ClientInfo(id: ClientId, lastSeen: int)

  datatype Room = Room(clients: seq<ClientInfo>, leaderId: Option<ClientId>)

  datatype PresenceEntry = PresenceEntry(clientId: ClientId, role: Role, lastSeen: int)

  /**
   * A parsed incoming envelope. Fields the TypeScript type marks as required may still be
   * missing from the JSON, so the target `to` of the directed types is optional for all of
   * them. `Unrecognized` is a JSON object whose `type` names none of the nine kinds. A
   * `null` message and a `join` without a string `roomId` are not part of this model.
   */
  datatype Incoming =
    | Join(roomId: RoomId, joinRiderId: Option<string>)   // the optional `riderId` of a join
    | Heartbeat(roomId: RoomId)
    | Chat(roomId: RoomId, body: string)
    | RtcOffer(roomId: RoomId, sdp: string, to: Option<string>)
    | RtcAnswer(roomId: RoomId, sdp: string, to: Option<string>)
    | RtcIce(roomId: RoomId, candidate: Json, to: Option<string>)
    | Location(roomId: RoomId, riderId: string, lat: real, lng: real,
               heading: Option<real>, speed: Option<real>, timestamp: real)   // `ts` on the wire
    | RouteSet(roomId: RoomId, route: RouteShare.RoutePayload)
    | LeaderTransfer(roomId: RoomId, to: Option<string>)
    | Unrecognized

  /** An outgoing envelope; each carries the sender's room, and relayed ones the sender's id. */
  datatype Outgoing =
    | Joined(roomId: RoomId, clientId: ClientId, leaderId: ClientId)
    | Presence(roomId: RoomId, clients: seq<PresenceEntry>, leader: Option<ClientId>)   // `leaderId` on the wire
    | ChatOut(roomId: RoomId, from: ClientId, body: string, ts: int)
    | Pong(roomId: RoomId, ts: int)
    | OfferOut(roomId: RoomId, from: ClientId, sdp: string)
    | AnswerOut(roomId: RoomId, from: ClientId, sdp: string, to: Option<string>)
    | IceOut(roomId: RoomId, from: ClientId, candidate: Json, to: Option<string>)
    | LocationOut(roomId: RoomId, riderId: string, from: ClientId, lat: real, lng: real,
                  heading: Option<real>, speed: Option<real>, timestamp: real)
    | RouteSetOut(roomId: RoomId, route: RouteShare.RoutePayload, from: ClientId)
    | LeaderTransferOut(roomId: RoomId, leaderId: ClientId)

  /** One frame written to the socket of connection `recipient`. */
  datatype Delivery = Delivery(recipient: ClientId, message: Outgoing)
}
