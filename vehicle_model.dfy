/** The domain entities of the vehicles feature (domain/model). */
module VehicleModel {
  import opened Wrappers

  /** `VehicleStatus`; `Name()` is the Kotlin enum constant's `name`. */
  datatype VehicleStatus = IncomingAt | StoppedAt | InTransitTo | Unknown {
    function Name(): string {
      match this
      case IncomingAt => "INCOMING_AT"
      case StoppedAt => "STOPPED_AT"
      case InTransitTo => "IN_TRANSIT_TO"
      case Unknown => "UNKNOWN"
    }
  }

  /**
   * `VehicleStatus.from(raw)`: the three live statuses by their exact name,
   * `Unknown` for every other string (including "" and "UNKNOWN").
   */
  function StatusFrom(raw: string): (r: VehicleStatus)
    ensures raw == "INCOMING_AT" <==> r == IncomingAt
    ensures raw == "STOPPED_AT" <==> r == StoppedAt
    ensures raw == "IN_TRANSIT_TO" <==> r == InTransitTo
    ensures r != Unknown ==> r.Name() == raw
  {
    match raw
    case "INCOMING_AT" => IncomingAt
    case "STOPPED_AT" => StoppedAt
    case "IN_TRANSIT_TO" => InTransitTo
    case _ => Unknown
  }

  /** `from` inverts `name` on all four values. */
  lemma StatusFromName(s: VehicleStatus)
    ensures StatusFrom(s.Name()) == s
  {
  }

  /** Coordinates are kept as reals; their formatting is not modelled. `label` is a
      reserved word in Dafny, so the field is `vehicleLabel`. */
  datatype Vehicle = Vehicle(
    id: string,
    vehicleLabel: string,
    currentStatus: VehicleStatus,
    latitude: real,
    longitude: real,
    updatedAt: string)

  datatype VehicleDetail = VehicleDetail(
    id: string,
    vehicleLabel: string,
    currentStatus: VehicleStatus,
    latitude: real,
    longitude: real,
    updatedAt: string,
    routeId: Option<string>,
    tripId: Option<string>,
    stopId: Option<string>,
    bearing: Option<int>,
    directionId: Option<int>)

  datatype Route = Route(id: string, shortName: string, longName: string, directionDestinations: seq<string>)

  datatype Trip = Trip(id: string, name: string, headsign: string, blockId: string, shapeId: Option<string>)

  datatype Stop = Stop(
    id: string,
    name: string,
    latitude: Option<real>,
    longitude: Option<real>,
    municipality: Option<string>,
    platformCode: Option<string>)

  datatype Shape = Shape(id: string, polyline: string)

  /** A vehicle detail with its relations, each absent independently of the others. */
  datatype VehicleDetailWithRelations = VehicleDetailWithRelations(
    vehicle: VehicleDetail,
    route: Option<Route>,
    trip: Option<Trip>,
    stop: Option<Stop>,
    shape: Option<Shape>)
}
