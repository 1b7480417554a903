/**
 * The route value types of the mobile client (RoutePlan.swift): a stop with an id, a
 * name and a coordinate, a plan made of a start, a destination and the stops between
 * them, and the keyed encoding of a stop ("id", "name", "lat", "lng").
 */
module RouteModel {
  import opened Wrappers

  /** A map coordinate. Coordinates are only copied and compared, so they are reals. */
  datatype Coordinate = Coordinate(latitude: real, longitude: real)

  datatype RouteStop = RouteStop(id: string, name: string, coordinate: Coordinate)

  /** `updatedAt` is a point in time, as seconds since 1970. */
  datatype RoutePlan = RoutePlan(
    id: string,
    start: RouteStop,
    destination: RouteStop,
    stops: seq<RouteStop>,
    polyline: Option<string>,
    updatedAt: real)

  /** The hand-written `==` of RouteStop: id, name, latitude and longitude all equal. */
  predicate SameStop(a: RouteStop, b: RouteStop)
    ensures SameStop(a, b) <==> a == b
  {
    && a.id == b.id
    && a.name == b.name
    && a.coordinate.latitude == b.coordinate.latitude
    && a.coordinate.longitude == b.coordinate.longitude
  }

  /** `RoutePlan.init` with its defaults: no intermediate stops and no polyline. */
  function NewPlan(
    id: string, start: RouteStop, destination: RouteStop, updatedAt: real,
    stops: seq<RouteStop> := [], polyline: Option<string> := None): (p: RoutePlan)
    ensures p.id == id && p.start == start && p.destination == destination
    ensures p.stops == stops && p.polyline == polyline && p.updatedAt == updatedAt
  {
    RoutePlan(id, start, destination, stops, polyline, updatedAt)
  }

  /** `RoutePlan.sample()`; the fresh UUIDs and the clock reading are parameters. */
  function SamplePlan(planId: string, startId: string, destId: string, stopId: string, now: real): (p: RoutePlan)
    ensures |p.stops| == 1 && p.polyline == None
    ensures p.start.name == "Apple Park" && p.destination.name == "Googleplex"
    ensures p.stops[0].name == "Coffee Stop"
  {
    var start := RouteStop(startId, "Apple Park", Coordinate(37.3349, -122.0090));
    var dest := RouteStop(destId, "Googleplex", Coordinate(37.4220, -122.0841));
    var stop := RouteStop(stopId, "Coffee Stop", Coordinate(37.3861, -122.0839));
    NewPlan(planId, start, dest, now, [stop])
  }

  lemma {:induction false} NewPlanDefaults(id: string, start: RouteStop, destination: RouteStop, updatedAt: real)
    ensures NewPlan(id, start, destination, updatedAt).stops == []
    ensures NewPlan(id, start, destination, updatedAt).polyline == None
  {
  }

  // ----- keyed encoding of a stop -----

  /** A value in a keyed coding container: a JSON string or a JSON number. */
  datatype JsonValue = JString(s: string) | JNumber(n: real)

  /** A keyed coding container (a JSON object). */
  type Container = map<string, JsonValue>

  /** The two ways `decode(_:forKey:)` fails. */
  datatype DecodingError = KeyNotFound(key: string) | TypeMismatch(key: string)

  /** The coding keys of RouteStop. */
  const StopKeys: set<string> := {"id", "name", "lat", "lng"}

  /** `RouteStop.encode(to:)`: the coordinate is written as two numbers under "lat" and "lng". */
  function EncodeStop(s: RouteStop): (c: Container)
    ensures c.Keys == StopKeys
    ensures c["lat"] == JNumber(s.coordinate.latitude) && c["lng"] == JNumber(s.coordinate.longitude)
  {
    map["id" := JString(s.id), "name" := JString(s.name),
        "lat" := JNumber(s.coordinate.latitude), "lng" := JNumber(s.coordinate.longitude)]
  }

  function DecodeString(c: Container, key: string): (r: Result<string, DecodingError>)
    ensures r.Ok? <==> key in c && c[key].JString?
    ensures r.Ok? ==> c[key] == JString(r.value)
    ensures r.Err? ==> r.error == (if key in c then TypeMismatch(key) else KeyNotFound(key))
  {
    if key !in c then Err(KeyNotFound(key))
    else match c[key]
      case JString(s) => Ok(s)
      case JNumber(_) => Err(TypeMismatch(key))
  }

  function DecodeNumber(c: Container, key: string): (r: Result<real, DecodingError>)
    ensures r.Ok? <==> key in c && c[key].JNumber?
    ensures r.Ok? ==> c[key] == JNumber(r.value)
    ensures r.Err? ==> r.error == (if key in c then TypeMismatch(key) else KeyNotFound(key))
  {
    if key !in c then Err(KeyNotFound(key))
    else match c[key]
      case JNumber(n) => Ok(n)
      case JString(_) => Err(TypeMismatch(key))
  }

  /** `RouteStop.init(from:)`: reads "id", "name", "lat", "lng" in that order; the first failure is thrown. */
  function DecodeStop(c: Container): (r: Result<RouteStop, DecodingError>)
  {
    match DecodeString(c, "id")
    case Err(e) => Err(e)
    case Ok(id) =>
      match DecodeString(c, "name")
      case Err(e) => Err(e)
      case Ok(name) =>
        match DecodeNumber(c, "lat")
        case Err(e) => Err(e)
        case Ok(lat) =>
          match DecodeNumber(c, "lng")
          case Err(e) => Err(e)
          case Ok(lng) => Ok(RouteStop(id, name, Coordinate(lat, lng)))
  }

  /** A container decodes exactly when its four keys hold values of the right kind. */
  predicate Decodable(c: Container) {
    && "id" in c && c["id"].JString?
    && "name" in c && c["name"].JString?
    && "lat" in c && c["lat"].JNumber?
    && "lng" in c && c["lng"].JNumber?
  }

  /** Decoding fails exactly on the containers that lack a key or hold the wrong kind of value. */
  lemma DecodeStopSucceedsIff(c: Container)
    ensures DecodeStop(c).Ok? <==> Decodable(c)
  {
  }

  /** decode(encode(s)) == s. */
  lemma DecodeEncodeStop(s: RouteStop)
    ensures DecodeStop(EncodeStop(s)) == Ok(s)
  {
  }

  /**
   * The other direction: a decodable container encodes back to itself, restricted to
   * the four coding keys (other keys are ignored when decoding).
   */
  lemma EncodeDecodeStop(c: Container)
    requires Decodable(c)
    ensures DecodeStop(c).Ok?
    ensures EncodeStop(DecodeStop(c).value) == map k | k in c && k in StopKeys :: c[k]
  {
    var s := DecodeStop(c).value;
    var r := map k | k in c && k in StopKeys :: c[k];
    assert EncodeStop(s).Keys == r.Keys;
  }
}
