/** DTO to domain mappers (data/mapper): defaults for every missing field. */
module DataMappers {
  import opened Wrappers
  import opened Dtos
  import opened VehicleModel

  const DEFAULT_VEHICLE_LABEL := "Vehicle"

  /** `attributes?.x`: a field of an optional attributes block. */
  function LabelOf(a: Option<VehicleAttributesDto>): Option<string> {
    if a.Some? then a.value.vehicleLabel else None
  }

  function StatusTextOf(a: Option<VehicleAttributesDto>): Option<string> {
    if a.Some? then a.value.currentStatus else None
  }

  function UpdatedAtOf(a: Option<VehicleAttributesDto>): Option<string> {
    if a.Some? then a.value.updatedAt else None
  }

  function LatitudeOf(a: Option<VehicleAttributesDto>): Option<real> {
    if a.Some? then a.value.latitude else None
  }

  function LongitudeOf(a: Option<VehicleAttributesDto>): Option<real> {
    if a.Some? then a.value.longitude else None
  }

  /**
   * `VehicleDataDto.toVehicle()`: the id is copied; a missing label is
   * "Vehicle", a missing status is `Unknown` (through `from("")`), missing
   * coordinates are 0 and a missing update time is "".
   */
  function ToVehicle(dto: VehicleDataDto): (v: Vehicle)
    ensures v.id == dto.id
    ensures v.vehicleLabel == LabelOf(dto.attributes).GetOr(DEFAULT_VEHICLE_LABEL)
    ensures StatusTextOf(dto.attributes).None? ==> v.currentStatus == Unknown
    ensures StatusTextOf(dto.attributes).Some? ==> v.currentStatus == StatusFrom(StatusTextOf(dto.attributes).value)
    ensures v.updatedAt == OrEmpty(UpdatedAtOf(dto.attributes))
    ensures LatitudeOf(dto.attributes).Some? ==> v.latitude == LatitudeOf(dto.attributes).value
    ensures LatitudeOf(dto.attributes).None? ==> v.latitude == 0.0
    ensures LongitudeOf(dto.attributes).Some? ==> v.longitude == LongitudeOf(dto.attributes).value
    ensures LongitudeOf(dto.attributes).None? ==> v.longitude == 0.0
    ensures dto.attributes.None? ==> v == Vehicle(dto.id, DEFAULT_VEHICLE_LABEL, Unknown, 0.0, 0.0, "")
  {
    Vehicle(
      dto.id,
      LabelOf(dto.attributes).GetOr(DEFAULT_VEHICLE_LABEL),
      StatusFrom(OrEmpty(StatusTextOf(dto.attributes))),
      LatitudeOf(dto.attributes).GetOr(0.0),
      LongitudeOf(dto.attributes).GetOr(0.0),
      OrEmpty(UpdatedAtOf(dto.attributes)))
  }

  /** `toVehicles()`: element-wise, same length and order. */
  function ToVehicles(dtos: seq<VehicleDataDto>): (vs: seq<Vehicle>)
    ensures |vs| == |dtos|
    ensures forall i :: 0 <= i < |dtos| ==> vs[i] == ToVehicle(dtos[i])
  {
    seq(|dtos|, i requires 0 <= i < |dtos| => ToVehicle(dtos[i]))
  }

  /**
   * `VehicleDataDto.toVehicleDetail()`: the same defaults as `toVehicle`
   * plus the related route, trip and stop ids, each null when any level of
   * the relationship is missing.
   */
  function ToVehicleDetail(dto: VehicleDataDto): (d: VehicleDetail)
    ensures d.id == dto.id
    ensures d.routeId == (if dto.relationships.Some? then RelatedId(dto.relationships.value.route) else None)
    ensures d.tripId == (if dto.relationships.Some? then RelatedId(dto.relationships.value.trip) else None)
    ensures d.stopId == (if dto.relationships.Some? then RelatedId(dto.relationships.value.stop) else None)
    ensures dto.relationships.None? ==> d.routeId.None? && d.tripId.None? && d.stopId.None?
    ensures dto.attributes.None? ==> d.bearing.None? && d.directionId.None?
    ensures dto.attributes.Some? ==>
              d.bearing == dto.attributes.value.bearing && d.directionId == dto.attributes.value.directionId
    ensures d.latitude == LatitudeOf(dto.attributes).GetOr(0.0) && d.longitude == LongitudeOf(dto.attributes).GetOr(0.0)
  {
    var a := dto.attributes;
    var rel := dto.relationships;
    VehicleDetail(
      dto.id,
      LabelOf(a).GetOr(DEFAULT_VEHICLE_LABEL),
      StatusFrom(OrEmpty(StatusTextOf(a))),
      LatitudeOf(a).GetOr(0.0),
      LongitudeOf(a).GetOr(0.0),
      OrEmpty(UpdatedAtOf(a)),
      if rel.Some? then RelatedId(rel.value.route) else None,
      if rel.Some? then RelatedId(rel.value.trip) else None,
      if rel.Some? then RelatedId(rel.value.stop) else None,
      if a.Some? then a.value.bearing else None,
      if a.Some? then a.value.directionId else None)
  }

  /** The list mapper and the detail mapper agree on every field they share. */
  lemma VehicleMappersAgree(dto: VehicleDataDto)
    ensures var v, d := ToVehicle(dto), ToVehicleDetail(dto);
      && v.id == d.id && v.vehicleLabel == d.vehicleLabel && v.currentStatus == d.currentStatus
      && v.latitude == d.latitude && v.longitude == d.longitude && v.updatedAt == d.updatedAt
  {
  }

  /**
   * `RouteDataDto.toRoute()`: the id is copied and missing names become "".
   * The DTO carries no direction destinations, so the route has none.
   */
  function ToRoute(dto: RouteDataDto): (r: Route)
    ensures r.id == dto.id
    ensures dto.attributes.None? || dto.attributes.value.shortName.None? ==> r.shortName == ""
    ensures dto.attributes.Some? && dto.attributes.value.shortName.Some? ==> r.shortName == dto.attributes.value.shortName.value
    ensures dto.attributes.None? || dto.attributes.value.longName.None? ==> r.longName == ""
    ensures dto.attributes.Some? && dto.attributes.value.longName.Some? ==> r.longName == dto.attributes.value.longName.value
    ensures r.directionDestinations == []
  {
    match dto.attributes
    case None => Route(dto.id, "", "", [])
    case Some(a) => Route(dto.id, OrEmpty(a.shortName), OrEmpty(a.longName), [])
  }

  /** `toRoutes()`: element-wise, same length and order. */
  function ToRoutes(dtos: seq<RouteDataDto>): (rs: seq<Route>)
    ensures |rs| == |dtos|
    ensures forall i :: 0 <= i < |dtos| ==> rs[i] == ToRoute(dtos[i])
  {
    seq(|dtos|, i requires 0 <= i < |dtos| => ToRoute(dtos[i]))
  }

  /**
   * `TripDataDto.toTrip()`: the id is copied, missing name, headsign and
   * block id become "", and the shape id is the trip's shape relationship id.
   */
  function ToTrip(dto: TripDataDto): (t: Trip)
    ensures t.id == dto.id
    ensures dto.attributes.None? ==> t.name == "" && t.headsign == "" && t.blockId == ""
    ensures dto.attributes.Some? ==>
              && t.name == OrEmpty(dto.attributes.value.name)
              && t.headsign == OrEmpty(dto.attributes.value.headsign)
              && t.blockId == OrEmpty(dto.attributes.value.blockId)
    ensures t.shapeId == (if dto.relationships.Some? then RelatedId(dto.relationships.value.shape) else None)
  {
    var shapeId := if dto.relationships.Some? then RelatedId(dto.relationships.value.shape) else None;
    match dto.attributes
    case None => Trip(dto.id, "", "", "", shapeId)
    case Some(a) => Trip(dto.id, OrEmpty(a.name), OrEmpty(a.headsign), OrEmpty(a.blockId), shapeId)
  }

  /** `toTrips()`: element-wise, same length and order. */
  function ToTrips(dtos: seq<TripDataDto>): (ts: seq<Trip>)
    ensures |ts| == |dtos|
    ensures forall i :: 0 <= i < |dtos| ==> ts[i] == ToTrip(dtos[i])
  {
    seq(|dtos|, i requires 0 <= i < |dtos| => ToTrip(dtos[i]))
  }
}
