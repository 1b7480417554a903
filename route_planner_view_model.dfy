/**
 * The route editor's view model (RoutePlannerViewModel.swift): edits to one plan held in
 * place. The clock and the fresh UUID of a new stop are parameters. The `isLeader` flag
 * is stored but no edit consults it; gating happens in the view.
 */
module RoutePlanner {
  import opened Wrappers
  import opened RouteModel
  import RouteShare

  /** `stops.removeAll { $0.id == id }`. */
  function WithoutStop(stops: seq<RouteStop>, id: string): (r: seq<RouteStop>)
    ensures forall s :: s in r <==> s in stops && s.id != id
    ensures |r| <= |stops|
  {
    if stops == [] then []
    else if stops[0].id == id then WithoutStop(stops[1..], id)
    else [stops[0]] + WithoutStop(stops[1..], id)
  }

  /** Removal keeps the relative order of what remains: it distributes over concatenation. */
  lemma {:induction false} WithoutStopAppend(a: seq<RouteStop>, b: seq<RouteStop>, id: string)
    ensures WithoutStop(a + b, id) == WithoutStop(a, id) + WithoutStop(b, id)
  {
    if a != [] {
      assert (a + b)[1..] == a[1..] + b;
      WithoutStopAppend(a[1..], b, id);
    } else {
      assert a + b == b;
    }
  }

  /** Removing the same id twice removes nothing more. */
  lemma {:induction false} WithoutStopIdempotent(stops: seq<RouteStop>, id: string)
    ensures WithoutStop(WithoutStop(stops, id), id) == WithoutStop(stops, id)
  {
    if stops != [] {
      WithoutStopIdempotent(stops[1..], id);
    }
  }

  /** A list without the id is left as it is. */
  lemma {:induction false} WithoutAbsentStop(stops: seq<RouteStop>, id: string)
    requires forall s :: s in stops ==> s.id != id
    ensures WithoutStop(stops, id) == stops
  {
    if stops != [] {
      WithoutAbsentStop(stops[1..], id);
    }
  }

  /** `plan.start` renamed: same id and coordinate, new name. */
  function Renamed(s: RouteStop, name: string): (r: RouteStop)
    ensures r.id == s.id && r.coordinate == s.coordinate && r.name == name
  {
    RouteStop(s.id, name, s.coordinate)
  }

  class RoutePlannerViewModel {
    var plan: RoutePlan
    var isLeader: bool

    /** `init(plan:)`; the default plan is `SamplePlan`. */
    constructor (plan: RoutePlan)
      ensures this.plan == plan && isLeader
    {
      this.plan := plan;
      isLeader := true;
    }

    /** `updateStart(name:)`: only the start's name and `updatedAt` change. */
    method UpdateStart(name: string, now: real)
      modifies this
      ensures plan == old(plan).(start := Renamed(old(plan).start, name), updatedAt := now)
      ensures isLeader == old(isLeader)
    {
      plan := plan.(start := RouteStop(plan.start.id, name, plan.start.coordinate));
      plan := plan.(updatedAt := now);
    }

    /** `updateDestination(name:)`: only the destination's name and `updatedAt` change. */
    method UpdateDestination(name: string, now: real)
      modifies this
      ensures plan == old(plan).(destination := Renamed(old(plan).destination, name), updatedAt := now)
      ensures isLeader == old(isLeader)
    {
      plan := plan.(destination := RouteStop(plan.destination.id, name, plan.destination.coordinate));
      plan := plan.(updatedAt := now);
    }

    /** `addStop(name:coordinate:)`: one new stop at the end; `freshId` is the stop's new UUID. */
    method AddStop(name: string, coordinate: Coordinate, freshId: string, now: real)
      modifies this
      ensures plan == old(plan).(stops := old(plan).stops + [RouteStop(freshId, name, coordinate)], updatedAt := now)
      ensures |plan.stops| == |old(plan).stops| + 1 && plan.stops[..|old(plan).stops|] == old(plan).stops
      ensures isLeader == old(isLeader)
    {
      plan := plan.(stops := plan.stops + [RouteStop(freshId, name, coordinate)]);
      plan := plan.(updatedAt := now);
    }

    /** `removeStop(_:)`: every stop with the given stop's id goes, the rest keep their order. */
    method RemoveStop(stop: RouteStop, now: real)
      modifies this
      ensures plan == old(plan).(stops := WithoutStop(old(plan).stops, stop.id), updatedAt := now)
      ensures forall s :: s in plan.stops ==> s.id != stop.id
      ensures isLeader == old(isLeader)
    {
      plan := plan.(stops := WithoutStop(plan.stops, stop.id));
      plan := plan.(updatedAt := now);
    }

    /** `applyRemote(_:)`: the plan is replaced wholesale, its `updatedAt` included. */
    method ApplyRemote(remote: RoutePlan)
      modifies this
      ensures plan == remote && isLeader == old(isLeader)
    {
      plan := remote;
    }

    /** `encodedRoute(roomId:)`, up to the JSON serialisation, which cannot fail here. */
    method EncodedRoute(roomId: string) returns (m: RouteShare.RouteShareMessage)
      ensures m.kind == RouteShare.RouteSetType && m.roomId == roomId
      ensures RouteShare.Decode(m) == plan
    {
      m := RouteShare.Encode(roomId, plan);
      RouteShare.ShareRoundTrip(roomId, plan);
    }
  }
}
