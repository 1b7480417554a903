/**
 * The live-location wire message of the mobile client (LiveLocationProtocol.swift) and
 * the rider position it decodes to (RiderLocation.swift). A platform location reading is
 * given as its coordinate, course, speed and timestamp; a negative course or speed means
 * "unknown" and is sent as an absent field.
 */
module LiveLocationProtocol {
  import opened Wrappers
  import opened RouteModel

  /** The constant `type` property of every live-location message. */
  const LocationType: string := "location"

  /** The fields of a platform location reading that the encoder reads; times are seconds since 1970. */
  datatype LocationReading = LocationReading(coordinate: Coordinate, course: real, speed: real, timestamp: real)

  datatype LiveLocationMessage = LiveLocationMessage(
    kind: string,
    roomId: string,
    riderId: string,
    lat: real,
    lng: real,
    heading: Option<real>,
    speed: Option<real>,
    ts: real)

  /** A rider's last known position; `id` is a fresh identifier chosen by the decoder. */
  datatype RiderLocation = RiderLocation(
    id: string,
    riderId: string,
    coordinate: Coordinate,
    speed: Option<real>,
    heading: Option<real>,
    timestamp: real)

  /** `x >= 0 ? x : nil`. */
  function NonNegative(x: real): (r: Option<real>)
    ensures r.None? <==> x < 0.0
    ensures r.Some? ==> r.value == x
  {
    if x >= 0.0 then Some(x) else None
  }

  /** `LiveLocationProtocol.encode`, up to the JSON serialisation. */
  function Encode(roomId: string, riderId: string, reading: LocationReading): (m: LiveLocationMessage)
    ensures m.kind == LocationType && m.roomId == roomId && m.riderId == riderId
    ensures m.lat == reading.coordinate.latitude && m.lng == reading.coordinate.longitude
    ensures m.heading.None? <==> reading.course < 0.0
    ensures m.heading.Some? ==> m.heading.value == reading.course
    ensures m.speed.None? <==> reading.speed < 0.0
    ensures m.speed.Some? ==> m.speed.value == reading.speed
    ensures m.ts == reading.timestamp
  {
    LiveLocationMessage(
      LocationType, roomId, riderId,
      reading.coordinate.latitude, reading.coordinate.longitude,
      NonNegative(reading.course), NonNegative(reading.speed),
      reading.timestamp)
  }

  /** `LiveLocationProtocol.decode`, after the JSON deserialisation; the fresh UUID is a parameter. */
  function Decode(m: LiveLocationMessage, freshId: string): (r: RiderLocation)
    ensures r.id == freshId && r.riderId == m.riderId
    ensures r.coordinate == Coordinate(m.lat, m.lng)
    ensures r.speed == m.speed && r.heading == m.heading && r.timestamp == m.ts
  {
    RiderLocation(freshId, m.riderId, Coordinate(m.lat, m.lng), m.speed, m.heading, m.ts)
  }

  /**
   * A reading sent by one rider arrives at another as the same position and time, with
   * course and speed kept exactly when they are known (non-negative).
   */
  lemma DecodeEncode(roomId: string, riderId: string, reading: LocationReading, freshId: string)
    ensures Decode(Encode(roomId, riderId, reading), freshId)
         == RiderLocation(freshId, riderId, reading.coordinate,
                          NonNegative(reading.speed), NonNegative(reading.course), reading.timestamp)
  {
  }
}
