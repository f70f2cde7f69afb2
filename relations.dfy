/**
 * `GetVehicleDetailWithRelationsUseCase`: fetches a vehicle detail, then its
 * route, trip and stop, then the trip's shape, turning failed relation
 * lookups into absent relations.
 */
module Relations {
  import opened Wrappers
  import opened CoreDomain
  import opened VehicleModel

  /** One call into a repository, as the use case makes it. */
  datatype Lookup =
    | VehicleLookup(id: string)
    | RouteLookup(id: string)
    | TripLookup(id: string)
    | StopLookup(id: string)
    | ShapeLookup(id: string)

  /** `safeRouteDetail` and its siblings: the data of a success, null for an error or empty result. */
  function Safe<T>(r: DomainResult<T>): (x: Option<T>)
    ensures x.Some? <==> r.Success?
    ensures r.Success? ==> x == Some(r.data)
  {
    match r
    case Success(data) => Some(data)
    case _ => None
  }

  /** `id?.let { safe...(it) }`: no lookup result without an id. */
  function LookupIfPresent<T>(id: Option<string>, lookup: string -> DomainResult<T>): (x: Option<T>)
    ensures id.None? ==> x.None?
    ensures id.Some? ==> x == Safe(lookup(id.value))
  {
    if id.None? then None else Safe(lookup(id.value))
  }

  /**
   * The relation lookups made for a fetched detail: route, trip and stop for
   * the ids the detail names, then the shape of a resolved trip that names
   * one. Route, trip and stop are looked up concurrently; listing them in
   * that order is a choice of the model. Only the trip before the shape is
   * an order the use case fixes.
   */
  function RelationLookups(d: VehicleDetail, trip: Option<Trip>): seq<Lookup> {
    (if d.routeId.Some? then [RouteLookup(d.routeId.value)] else [])
    + (if d.tripId.Some? then [TripLookup(d.tripId.value)] else [])
    + (if d.stopId.Some? then [StopLookup(d.stopId.value)] else [])
    + (if trip.Some? && trip.value.shapeId.Some? then [ShapeLookup(trip.value.shapeId.value)] else [])
  }

  /** A relation is looked up exactly when its id is known, and never the vehicle again. */
  lemma RelationLookupsMembers(d: VehicleDetail, trip: Option<Trip>)
    ensures var ls := RelationLookups(d, trip);
            && |ls| <= 4
            && (forall l :: l in ls ==> !l.VehicleLookup?)
            && (forall x :: RouteLookup(x) in ls <==> d.routeId == Some(x))
            && (forall x :: TripLookup(x) in ls <==> d.tripId == Some(x))
            && (forall x :: StopLookup(x) in ls <==> d.stopId == Some(x))
            && (forall x :: ShapeLookup(x) in ls <==> trip.Some? && trip.value.shapeId == Some(x))
  {
    LookupsSplit(d, trip);
  }

  /** `RelationLookups` is at most one route, trip, stop and shape lookup, each in its own part. */
  lemma LookupsSplit(d: VehicleDetail, trip: Option<Trip>)
    ensures forall l :: l in RelationLookups(d, trip) <==>
      (l.RouteLookup? && d.routeId == Some(l.id))
      || (l.TripLookup? && d.tripId == Some(l.id))
      || (l.StopLookup? && d.stopId == Some(l.id))
      || (l.ShapeLookup? && trip.Some? && trip.value.shapeId == Some(l.id))
    ensures |RelationLookups(d, trip)| <= 4
  {
    var r := if d.routeId.Some? then [RouteLookup(d.routeId.value)] else [];
    var t := if d.tripId.Some? then [TripLookup(d.tripId.value)] else [];
    var st := if d.stopId.Some? then [StopLookup(d.stopId.value)] else [];
    var sh := if trip.Some? && trip.value.shapeId.Some? then [ShapeLookup(trip.value.shapeId.value)] else [];
    assert RelationLookups(d, trip) == r + t + st + sh;
  }

  /** The shape is looked up after the trip. */
  lemma {:induction false} RelationLookupsOrder(d: VehicleDetail, trip: Option<Trip>, i: int, j: int)
    requires 0 <= i < |RelationLookups(d, trip)| && 0 <= j < |RelationLookups(d, trip)|
    requires RelationLookups(d, trip)[i].TripLookup? && RelationLookups(d, trip)[j].ShapeLookup?
    ensures i < j
  {
    var r := if d.routeId.Some? then [RouteLookup(d.routeId.value)] else [];
    var t := if d.tripId.Some? then [TripLookup(d.tripId.value)] else [];
    var st := if d.stopId.Some? then [StopLookup(d.stopId.value)] else [];
    var sh := if trip.Some? && trip.value.shapeId.Some? then [ShapeLookup(trip.value.shapeId.value)] else [];
    var ls := RelationLookups(d, trip);
    assert ls == r + t + st + sh;
    assert i < |r| + |t|;
    assert j >= |r| + |t| + |st|;
  }

  /**
   * `invoke(vehicleId)`. A failed detail fetch is returned as the same error
   * without data, and an empty one as empty; neither makes another lookup.
   * A fetched detail always gives a success holding exactly that detail; each
   * relation is looked up only when the detail names it, and a lookup that
   * does not succeed leaves its slot null. The shape is looked up only for a
   * trip that resolved and names a shape, and only after that trip.
   */
  method GetVehicleDetailWithRelations(
    vehicleId: string,
    getVehicleDetail: string -> DomainResult<VehicleDetail>,
    getRouteById: string -> DomainResult<Route>,
    getTripById: string -> DomainResult<Trip>,
    getStop: string -> DomainResult<Stop>,
    getShapeById: string -> DomainResult<Shape>)
    returns (result: DomainResult<VehicleDetailWithRelations>, lookups: seq<Lookup>)
    ensures |lookups| >= 1 && lookups[0] == VehicleLookup(vehicleId)
    ensures getVehicleDetail(vehicleId).Error? ==>
              var e := getVehicleDetail(vehicleId);
              result == Error(e.message, e.code, None, e.cause, e.isNetworkError) && lookups == [VehicleLookup(vehicleId)]
    ensures getVehicleDetail(vehicleId).Empty? ==> result == Empty && lookups == [VehicleLookup(vehicleId)]
    ensures result.Success? <==> getVehicleDetail(vehicleId).Success?
    ensures getVehicleDetail(vehicleId).Success? ==>
              var d := getVehicleDetail(vehicleId).data;
              var agg := result.data;
              && agg.vehicle == d
              && agg.route == LookupIfPresent(d.routeId, getRouteById)
              && agg.trip == LookupIfPresent(d.tripId, getTripById)
              && agg.stop == LookupIfPresent(d.stopId, getStop)
              && (agg.trip.Some? && agg.trip.value.shapeId.Some? ==>
                    agg.shape == Safe(getShapeById(agg.trip.value.shapeId.value)))
              && (agg.trip.None? || agg.trip.value.shapeId.None? ==> agg.shape.None?)
              && lookups == [VehicleLookup(vehicleId)] + RelationLookups(d, agg.trip)
  {
    lookups := [VehicleLookup(vehicleId)];
    var detail := getVehicleDetail(vehicleId);
    match detail {
      case Error(message, code, _, cause, isNetworkError) =>
        result := Error(message, code, None, cause, isNetworkError);
      case Empty =>
        result := Empty;
      case Success(d) =>
        var route: Option<Route> := None;
        if d.routeId.Some? {
          lookups := lookups + [RouteLookup(d.routeId.value)];
          route := Safe(getRouteById(d.routeId.value));
        }
        var trip: Option<Trip> := None;
        if d.tripId.Some? {
          lookups := lookups + [TripLookup(d.tripId.value)];
          trip := Safe(getTripById(d.tripId.value));
        }
        var stop: Option<Stop> := None;
        if d.stopId.Some? {
          lookups := lookups + [StopLookup(d.stopId.value)];
          stop := Safe(getStop(d.stopId.value));
        }
        var shape: Option<Shape> := None;
        if trip.Some? && trip.value.shapeId.Some? {
          lookups := lookups + [ShapeLookup(trip.value.shapeId.value)];
          shape := Safe(getShapeById(trip.value.shapeId.value));
        }
        result := Success(VehicleDetailWithRelations(d, route, trip, stop, shape));
    }
  }
}
