/**
 * The presentation mappers: `VehicleUiMapper` (list and detail UI models) and
 * `FilterOptionUiMapper` (route and trip filter options).
 */
module UiMappers {
  import opened Wrappers
  import opened Text
  import opened VehicleModel

  const UNKNOWN_DATE := "Unknown"
  const UNKNOWN_ROUTE := "Unknown Route"
  const UNKNOWN_TRIP := "Unknown Trip"
  const UNKNOWN_STOP := "Unknown Stop"
  const UNSCHEDULED := "Unscheduled"
  const ROUTE_NAME_SEPARATOR := " - "
  const DIRECTION_ARROW := " -> "
  const OPTION_SEPARATOR := " • "

  /** `formatStatus`: the human label of each status. */
  function FormatStatus(s: VehicleStatus): (r: string)
    ensures s == IncomingAt ==> r == "Incoming"
    ensures s == StoppedAt ==> r == "Stopped"
    ensures s == InTransitTo ==> r == "In Transit"
    ensures s == Unknown ==> r == "Unknown"
  {
    match s
    case IncomingAt => "Incoming"
    case StoppedAt => "Stopped"
    case InTransitTo => "In Transit"
    case Unknown => "Unknown"
  }

  /** Different statuses get different labels, so the label identifies the status. */
  lemma FormatStatusInjective(a: VehicleStatus, b: VehicleStatus)
    ensures FormatStatus(a) == FormatStatus(b) ==> a == b
  {
  }

  /**
   * `DateUtils.formatUpdatedAt`: "Unknown" for a blank timestamp; otherwise
   * the platform's date formatting, which is the parameter `formatDate` here.
   */
  function FormatUpdatedAt(raw: string, formatDate: string -> string): (r: string)
    ensures IsBlank(raw) ==> r == UNKNOWN_DATE
    ensures !IsBlank(raw) ==> r == formatDate(raw)
  {
    if IsBlank(raw) then UNKNOWN_DATE else formatDate(raw)
  }

  /** `VehicleUiModel` without the formatted coordinates. */
  datatype VehicleUiModel = VehicleUiModel(
    id: string,
    vehicleLabel: string,
    currentStatus: VehicleStatus,
    statusLabel: string,
    latitude: real,
    longitude: real,
    updatedAtLabel: string)

  /** `Vehicle.toUiModel()`: copies identity, status and position and adds the labels. */
  function VehicleToUiModel(v: Vehicle, formatDate: string -> string): (m: VehicleUiModel)
    ensures m.id == v.id && m.vehicleLabel == v.vehicleLabel && m.currentStatus == v.currentStatus
    ensures m.latitude == v.latitude && m.longitude == v.longitude
    ensures m.statusLabel == FormatStatus(v.currentStatus)
    ensures m.updatedAtLabel == FormatUpdatedAt(v.updatedAt, formatDate)
  {
    VehicleUiModel(v.id, v.vehicleLabel, v.currentStatus, FormatStatus(v.currentStatus),
                   v.latitude, v.longitude, FormatUpdatedAt(v.updatedAt, formatDate))
  }

  /** `VehicleDetailUiModel` without the formatted coordinates. */
  datatype VehicleDetailUiModel = VehicleDetailUiModel(
    id: string,
    vehicleLabel: string,
    currentStatus: VehicleStatus,
    statusLabel: string,
    updatedAtLabel: string,
    routeDirection: string,
    routeLabel: string,
    tripLabel: string,
    stopLabel: string,
    latitude: real,
    longitude: real,
    bearing: int,
    encodedPolyline: string)

  /**
   * The direction line: with a route, a direction id and at least two
   * destinations, direction 0 reads "second -> first" and any other
   * direction "first -> second"; otherwise "".
   */
  function RouteDirection(route: Option<Route>, directionId: Option<int>): (r: string)
    ensures route.None? || directionId.None? ==> r == ""
    ensures route.Some? && |route.value.directionDestinations| < 2 ==> r == ""
    ensures route.Some? && directionId.Some? && |route.value.directionDestinations| >= 2 ==>
              var d := route.value.directionDestinations;
              r == if directionId.value == 0 then d[1] + DIRECTION_ARROW + d[0] else d[0] + DIRECTION_ARROW + d[1]
  {
    match route
    case None => ""
    case Some(rt) =>
      var d := rt.directionDestinations;
      if directionId.None? || |d| < 2 then ""
      else if directionId.value == 0 then d[1] + DIRECTION_ARROW + d[0]
      else d[0] + DIRECTION_ARROW + d[1]
  }

  /** `listOfNotNull(short.takeUnless(isBlank), long.takeUnless(isBlank)).distinct()`. */
  function RouteNames(route: Route): (names: seq<string>)
    ensures forall i :: 0 <= i < |names| ==> !IsBlank(names[i])
    ensures |names| <= 2 && (|names| == 2 ==> names[0] != names[1])
    ensures names == [] <==> IsBlank(route.shortName) && IsBlank(route.longName)
  {
    var present := (if IsBlank(route.shortName) then [] else [route.shortName])
                   + (if IsBlank(route.longName) then [] else [route.longName]);
    if |present| == 2 && present[0] == present[1] then [present[0]] else present
  }

  /** A string holding a non-blank piece is not blank. */
  lemma NotBlankConcat(a: string, b: string)
    ensures !IsBlank(a) || !IsBlank(b) ==> !IsBlank(a + b)
  {
    if !IsBlank(a) {
      var i :| 0 <= i < |a| && !IsWhitespace(a[i]);
      assert (a + b)[i] == a[i];
    } else if !IsBlank(b) {
      var i :| 0 <= i < |b| && !IsWhitespace(b[i]);
      assert (a + b)[|a| + i] == b[i];
    }
  }

  lemma FixedLabelsNotBlank()
    ensures !IsBlank(UNKNOWN_ROUTE) && !IsBlank(UNKNOWN_TRIP) && !IsBlank(UNKNOWN_STOP) && !IsBlank(UNSCHEDULED)
  {
    assert !IsWhitespace(UNKNOWN_ROUTE[0]) && !IsWhitespace(UNKNOWN_TRIP[0]);
    assert !IsWhitespace(UNKNOWN_STOP[0]) && !IsWhitespace(UNSCHEDULED[0]);
  }

  /** The joined names: the single name, or both around " - "; blank only when there are none. */
  lemma JoinedNames(route: Route)
    ensures var names := RouteNames(route);
            && (|names| == 1 ==> Join(names, ROUTE_NAME_SEPARATOR) == names[0])
            && (|names| == 2 ==> Join(names, ROUTE_NAME_SEPARATOR) == names[0] + ROUTE_NAME_SEPARATOR + names[1])
            && (IsBlank(Join(names, ROUTE_NAME_SEPARATOR)) <==> names == [])
  {
    var names := RouteNames(route);
    if |names| == 2 {
      assert Join(names[1..], ROUTE_NAME_SEPARATOR) == names[1];
      NotBlankConcat(names[0], ROUTE_NAME_SEPARATOR + names[1]);
      assert names[0] + ROUTE_NAME_SEPARATOR + names[1] == names[0] + (ROUTE_NAME_SEPARATOR + names[1]);
    }
  }

  lemma JoinedNamesOf(route: Option<Route>)
    ensures route.Some? ==> (IsBlank(Join(RouteNames(route.value), ROUTE_NAME_SEPARATOR)) <==> RouteNames(route.value) == [])
    ensures route.Some? && |RouteNames(route.value)| == 2 ==>
              Join(RouteNames(route.value), ROUTE_NAME_SEPARATOR)
              == RouteNames(route.value)[0] + ROUTE_NAME_SEPARATOR + RouteNames(route.value)[1]
  {
    if route.Some? {
      JoinedNames(route.value);
    }
  }

  /**
   * The route line: with a route, its distinct non-blank names joined by
   * " - "; without one, the vehicle's route id; "Unknown Route" when that is
   * blank, including a present route whose names are both blank.
   */
  function RouteLabel(route: Option<Route>, routeId: Option<string>): (r: string)
    ensures !IsBlank(r)
    ensures route.None? ==> r == IfBlank(OrEmpty(routeId), UNKNOWN_ROUTE)
    ensures route.Some? ==>
              var rt := route.value;
              && (IsBlank(rt.shortName) && IsBlank(rt.longName) ==> r == UNKNOWN_ROUTE)
              && (!IsBlank(rt.shortName) && !IsBlank(rt.longName) && rt.shortName != rt.longName ==>
                    r == rt.shortName + ROUTE_NAME_SEPARATOR + rt.longName)
              && (!IsBlank(rt.shortName) && (IsBlank(rt.longName) || rt.longName == rt.shortName) ==> r == rt.shortName)
              && (IsBlank(rt.shortName) && !IsBlank(rt.longName) ==> r == rt.longName)
  {
    FixedLabelsNotBlank();
    JoinedNamesOf(route);
    var raw := if route.Some? then Join(RouteNames(route.value), ROUTE_NAME_SEPARATOR) else OrEmpty(routeId);
    IfBlank(raw, UNKNOWN_ROUTE)
  }

  /**
   * The trip line: with a trip, its headsign, else its name, else
   * "Unscheduled"; without one, the vehicle's trip id, or "Unknown Trip".
   */
  function TripLabel(trip: Option<Trip>, tripId: Option<string>): (r: string)
    ensures !IsBlank(r)
    ensures trip.Some? ==> r == IfBlank(trip.value.headsign, IfBlank(trip.value.name, UNSCHEDULED))
    ensures trip.None? ==> r == IfBlank(OrEmpty(tripId), UNKNOWN_TRIP)
  {
    FixedLabelsNotBlank();
    var raw := if trip.Some? then IfBlank(trip.value.headsign, IfBlank(trip.value.name, UNSCHEDULED)) else OrEmpty(tripId);
    IfBlank(raw, UNKNOWN_TRIP)
  }

  /**
   * The stop line: a present stop's name, or "Unknown Stop" when that name is
   * blank (the stop id is not consulted then); without a stop, the vehicle's
   * stop id, or "Unknown Stop".
   */
  function StopLabel(stop: Option<Stop>, stopId: Option<string>): (r: string)
    ensures !IsBlank(r)
    ensures stop.Some? ==> r == IfBlank(stop.value.name, UNKNOWN_STOP)
    ensures stop.None? ==> r == IfBlank(OrEmpty(stopId), UNKNOWN_STOP)
  {
    FixedLabelsNotBlank();
    var raw := if stop.Some? then stop.value.name else OrEmpty(stopId);
    IfBlank(raw, UNKNOWN_STOP)
  }

  /**
   * `VehicleDetailWithRelations.toUiModel()`: the vehicle's own fields, the
   * relation labels, the direction line and the shape's polyline ("" without
   * a shape); a missing bearing shows as 0.
   */
  function DetailToUiModel(d: VehicleDetailWithRelations, formatDate: string -> string): (m: VehicleDetailUiModel)
    ensures m.id == d.vehicle.id && m.vehicleLabel == d.vehicle.vehicleLabel
    ensures m.currentStatus == d.vehicle.currentStatus && m.statusLabel == FormatStatus(d.vehicle.currentStatus)
    ensures m.updatedAtLabel == FormatUpdatedAt(d.vehicle.updatedAt, formatDate)
    ensures m.routeDirection == RouteDirection(d.route, d.vehicle.directionId)
    ensures m.routeLabel == RouteLabel(d.route, d.vehicle.routeId)
    ensures m.tripLabel == TripLabel(d.trip, d.vehicle.tripId)
    ensures m.stopLabel == StopLabel(d.stop, d.vehicle.stopId)
    ensures !IsBlank(m.routeLabel) && !IsBlank(m.tripLabel) && !IsBlank(m.stopLabel)
    ensures m.latitude == d.vehicle.latitude && m.longitude == d.vehicle.longitude
    ensures m.bearing == d.vehicle.bearing.GetOr(0)
    ensures d.shape.Some? ==> m.encodedPolyline == d.shape.value.polyline
    ensures d.shape.None? ==> m.encodedPolyline == ""
  {
    var v := d.vehicle;
    VehicleDetailUiModel(
      v.id,
      v.vehicleLabel,
      v.currentStatus,
      FormatStatus(v.currentStatus),
      FormatUpdatedAt(v.updatedAt, formatDate),
      RouteDirection(d.route, v.directionId),
      RouteLabel(d.route, v.routeId),
      TripLabel(d.trip, v.tripId),
      StopLabel(d.stop, v.stopId),
      v.latitude,
      v.longitude,
      v.bearing.GetOr(0),
      if d.shape.Some? then d.shape.value.polyline else "")
  }

  /** `FilterOptionUiModel`: an id and the text shown for it. */
  datatype FilterOptionUiModel = FilterOptionUiModel(id: string, optionLabel: string)

  /** `Route.toFilterOptionUiModel()`: the short name, else the long name, else the id. */
  function RouteOption(r: Route): (o: FilterOptionUiModel)
    ensures o.id == r.id
    ensures !IsBlank(r.shortName) ==> o.optionLabel == r.shortName
    ensures IsBlank(r.shortName) && !IsBlank(r.longName) ==> o.optionLabel == r.longName
    ensures IsBlank(r.shortName) && IsBlank(r.longName) ==> o.optionLabel == r.id
  {
    FilterOptionUiModel(r.id, IfBlank(r.shortName, IfBlank(r.longName, r.id)))
  }

  /** The text a trip option leads with: its name, else its headsign, else its id. */
  function TripPrimary(t: Trip): (p: string)
    ensures !IsBlank(t.name) ==> p == t.name
    ensures IsBlank(t.name) && !IsBlank(t.headsign) ==> p == t.headsign
    ensures IsBlank(t.name) && IsBlank(t.headsign) ==> p == t.id
  {
    IfBlank(t.name, IfBlank(t.headsign, t.id))
  }

  /**
   * `Trip.toFilterOptionUiModel()`: the id alone when the primary text is
   * the id, otherwise "primary • id". Either way the label ends with the id,
   * and it is the bare id exactly when the primary text is.
   */
  function TripOption(t: Trip): (o: FilterOptionUiModel)
    ensures o.id == t.id
    ensures |t.id| <= |o.optionLabel| && o.optionLabel[|o.optionLabel| - |t.id|..] == t.id
    ensures o.optionLabel == t.id <==> TripPrimary(t) == t.id
    ensures TripPrimary(t) != t.id ==> o.optionLabel == TripPrimary(t) + OPTION_SEPARATOR + t.id
  {
    var primary := TripPrimary(t);
    if primary == t.id then FilterOptionUiModel(t.id, t.id)
    else
      var lbl := primary + OPTION_SEPARATOR + t.id;
      assert lbl[|lbl| - |t.id|..] == t.id;
      FilterOptionUiModel(t.id, lbl)
  }

  /** A trip named "Local" with id "t1" shows "Local • t1"; a trip with no name or headsign shows its id. */
  lemma TripOptionExamples()
    ensures TripOption(Trip("t1", "Local", "", "", None)).optionLabel == "Local • t1"
    ensures TripOption(Trip("t2", " ", "", "", None)).optionLabel == "t2"
  {
    assert !IsWhitespace("Local"[0]);
    assert !IsWhitespace("t2"[0]);
  }
}
