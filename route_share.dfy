/**
 * The route-share wire structs of the mobile client (RouteShareProtocol.swift) and the
 * field-wise mapping between them and the route value types. The JSON encoder and
 * decoder themselves are not part of this model: a message is the struct they would
 * serialise.
 */
module RouteShare {
  import opened Wrappers
  import opened RouteModel

  /** The constant `type` property of every route-share message. */
  const RouteSetType: string := "route-set"

  datatype RouteStopPayload = RouteStopPayload(id: string, name: string, lat: real, lng: real)

  datatype RoutePayload = RoutePayload(
    id: string,
    start: RouteStopPayload,
    destination: RouteStopPayload,
    stops: seq<RouteStopPayload>,
    polyline: Option<string>,
    updatedAt: real)

  datatype RouteShareMessage = RouteShareMessage(kind: string, roomId: string, route: RoutePayload)

  /** `RouteStop.payload`: copies id and name and splits the coordinate into lat and lng. */
  function StopPayload(s: RouteStop): (p: RouteStopPayload)
    ensures p.id == s.id && p.name == s.name
    ensures p.lat == s.coordinate.latitude && p.lng == s.coordinate.longitude
  {
    RouteStopPayload(s.id, s.name, s.coordinate.latitude, s.coordinate.longitude)
  }

  /** `RouteStopPayload.toRouteStop()`. */
  function ToRouteStop(p: RouteStopPayload): (s: RouteStop)
    ensures s.id == p.id && s.name == p.name
    ensures s.coordinate == Coordinate(p.lat, p.lng)
  {
    RouteStop(p.id, p.name, Coordinate(p.lat, p.lng))
  }

  /** `stops.map { $0.payload }`: one payload per stop, in the same order. */
  function StopPayloads(stops: seq<RouteStop>): (ps: seq<RouteStopPayload>)
    ensures |ps| == |stops|
    ensures forall i :: 0 <= i < |stops| ==> ps[i] == StopPayload(stops[i])
  {
    if stops == [] then [] else [StopPayload(stops[0])] + StopPayloads(stops[1..])
  }

  /** `stops.map { $0.toRouteStop() }`: one stop per payload, in the same order. */
  function RouteStops(ps: seq<RouteStopPayload>): (stops: seq<RouteStop>)
    ensures |stops| == |ps|
    ensures forall i :: 0 <= i < |ps| ==> stops[i] == ToRouteStop(ps[i])
  {
    if ps == [] then [] else [ToRouteStop(ps[0])] + RouteStops(ps[1..])
  }

  /** The payload built in `RouteShareProtocol.encode`. */
  function Payload(plan: RoutePlan): (p: RoutePayload)
    ensures p.id == plan.id && p.polyline == plan.polyline && p.updatedAt == plan.updatedAt
    ensures p.start == StopPayload(plan.start) && p.destination == StopPayload(plan.destination)
    ensures |p.stops| == |plan.stops|
  {
    RoutePayload(plan.id, StopPayload(plan.start), StopPayload(plan.destination),
                 StopPayloads(plan.stops), plan.polyline, plan.updatedAt)
  }

  /** `RoutePayload.toRoutePlan()`. */
  function ToRoutePlan(p: RoutePayload): (plan: RoutePlan)
    ensures plan.id == p.id && plan.polyline == p.polyline && plan.updatedAt == p.updatedAt
    ensures plan.start == ToRouteStop(p.start) && plan.destination == ToRouteStop(p.destination)
    ensures |plan.stops| == |p.stops|
  {
    RoutePlan(p.id, ToRouteStop(p.start), ToRouteStop(p.destination),
              RouteStops(p.stops), p.polyline, p.updatedAt)
  }

  /** `RouteShareProtocol.encode`, up to the JSON serialisation. */
  function Encode(roomId: string, plan: RoutePlan): (m: RouteShareMessage)
    ensures m.kind == RouteSetType && m.roomId == roomId
    ensures m.route.id == plan.id && m.route.polyline == plan.polyline
  {
    RouteShareMessage(RouteSetType, roomId, Payload(plan))
  }

  /**
   * `RouteShareProtocol.decode`, after the JSON deserialisation. The `type` property is a
   * constant with an initial value, so it is never read back: any kind decodes.
   */
  function Decode(m: RouteShareMessage): (plan: RoutePlan)
    ensures plan.id == m.route.id
  {
    ToRoutePlan(m.route)
  }

  /** Mapping stops to payloads and back gives the same stops, count and order included. */
  lemma {:induction false} StopsRoundTrip(stops: seq<RouteStop>)
    ensures RouteStops(StopPayloads(stops)) == stops
  {
    if stops != [] {
      StopsRoundTrip(stops[1..]);
      assert RouteStops(StopPayloads(stops)) == [ToRouteStop(StopPayload(stops[0]))] + RouteStops(StopPayloads(stops[1..]));
    }
  }

  /** Mapping payloads to stops and back gives the same payloads. */
  lemma {:induction false} PayloadsRoundTrip(ps: seq<RouteStopPayload>)
    ensures StopPayloads(RouteStops(ps)) == ps
  {
    if ps != [] {
      PayloadsRoundTrip(ps[1..]);
      assert StopPayloads(RouteStops(ps)) == [StopPayload(ToRouteStop(ps[0]))] + StopPayloads(RouteStops(ps[1..]));
    }
  }

  /** toRoutePlan(payload(plan)) == plan: id, start, destination, stops and polyline survive. */
  lemma {:induction false} PlanRoundTrip(plan: RoutePlan)
    ensures ToRoutePlan(Payload(plan)) == plan
  {
    StopsRoundTrip(plan.stops);
  }

  /** payload(toRoutePlan(p)) == p. */
  lemma {:induction false} PayloadRoundTrip(p: RoutePayload)
    ensures Payload(ToRoutePlan(p)) == p
  {
    PayloadsRoundTrip(p.stops);
  }

  /** What a member receives back from a shared plan is the plan that was shared, whatever the room. */
  lemma {:induction false} ShareRoundTrip(roomId: string, plan: RoutePlan)
    ensures Decode(Encode(roomId, plan)) == plan
  {
    PlanRoundTrip(plan);
  }
}
