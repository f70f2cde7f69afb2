/**
 * `FilterViewModel`: the route and trip selections of the filter sheets, the
 * filters applied to the vehicle list, and the loading of the route options.
 */
module FilterViewModel {
  import opened Wrappers
  import opened Text
  import opened CoreDomain
  import opened VehicleModel
  import opened Filters
  import opened UiMappers
  import opened Networking

  const NETWORK_ROUTES_ERROR := "Network error. Check your connection and try again."
  const DEFAULT_ROUTES_ERROR := "Failed to load routes"

  /** `VehicleFilterUiState`. */
  datatype VehicleFilterUiState = VehicleFilterUiState(
    routes: seq<FilterOptionUiModel>,
    selectedRouteIds: set<string>,
    selectedTripIds: set<string>,
    routeSearchQuery: string,
    tripSearchQuery: string,
    isRoutesLoading: bool,
    routesError: Option<string>)

  /** The state the view model starts from: nothing selected, routes loading. */
  const INITIAL_STATE := VehicleFilterUiState([], {}, {}, "", "", true, None)

  /** Flips the membership of `x`: removes it when present, adds it otherwise. */
  function Toggle(s: set<string>, x: string): (r: set<string>)
    ensures x in r <==> x !in s
    ensures forall y :: y != x ==> (y in r <==> y in s)
  {
    if x in s then s - {x} else s + {x}
  }

  /** Toggling the same id twice restores the set. */
  lemma ToggleTwice(s: set<string>, x: string)
    ensures Toggle(Toggle(s, x), x) == s
  {
  }

  /** The trip filters the trip list is paged with: the selected routes and the trip search text. */
  function TripFiltersOf(st: VehicleFilterUiState): (f: TripFilters)
    ensures f.routeIds == st.selectedRouteIds && f.nameQuery == st.tripSearchQuery
    ensures f.IsEmpty() <==> st.selectedRouteIds == {} && IsBlank(st.tripSearchQuery)
  {
    TripFilters(st.selectedRouteIds, st.tripSearchQuery)
  }

  /**
   * The error text shown when the route list fails to load: for an error
   * result, the fixed network text for a network error, else its message
   * unless blank; for a thrown exception, the network text for an
   * `IOException`, else its message unless null.
   */
  function RoutesErrorText(outcome: CallOutcome<DomainResult<seq<Route>>>): (msg: string)
    requires outcome.Threw? || outcome.value.Error?
    ensures outcome.Returned? && outcome.value.isNetworkError ==> msg == NETWORK_ROUTES_ERROR
    ensures outcome.Returned? && !outcome.value.isNetworkError ==> msg == IfBlank(outcome.value.message, DEFAULT_ROUTES_ERROR)
    ensures outcome.Threw? && outcome.thrown.IOException? ==> msg == NETWORK_ROUTES_ERROR
    ensures outcome.Threw? && !outcome.thrown.IOException? ==>
              msg == MessageOf(outcome.thrown).GetOr(DEFAULT_ROUTES_ERROR)
  {
    match outcome
    case Returned(r) =>
      if r.isNetworkError then NETWORK_ROUTES_ERROR else IfBlank(r.message, DEFAULT_ROUTES_ERROR)
    case Threw(t) =>
      if t.IOException? then NETWORK_ROUTES_ERROR else MessageOf(t).GetOr(DEFAULT_ROUTES_ERROR)
  }

  /** An error result never shows a blank text. */
  lemma RoutesErrorTextNotBlankForResults(r: DomainResult<seq<Route>>)
    requires r.Error?
    ensures !IsBlank(RoutesErrorText(Returned(r)))
  {
    assert NETWORK_ROUTES_ERROR[|NETWORK_ROUTES_ERROR| - 1] == '.';
    assert DEFAULT_ROUTES_ERROR[|DEFAULT_ROUTES_ERROR| - 1] == 's';
  }

  /** The options of a route list, one per route, in order. */
  function RouteOptions(rs: seq<Route>): (os: seq<FilterOptionUiModel>)
    ensures |os| == |rs|
    ensures forall i :: 0 <= i < |rs| ==> os[i] == RouteOption(rs[i]) && os[i].id == rs[i].id
  {
    seq(|rs|, i requires 0 <= i < |rs| => RouteOption(rs[i]))
  }

  class FilterViewModelImpl {
    var uiState: VehicleFilterUiState
    var appliedFilters: VehicleFilters

    /** A fresh view model: nothing selected or applied, the route list loading. */
    constructor()
      ensures uiState == INITIAL_STATE && appliedFilters == DEFAULT_VEHICLE_FILTERS
    {
      uiState := INITIAL_STATE;
      appliedFilters := DEFAULT_VEHICLE_FILTERS;
    }

    /** `toggleRouteSelection`: flips the route and always drops every trip selection. */
    method ToggleRouteSelection(routeId: string)
      modifies this
      ensures uiState == old(uiState).(selectedRouteIds := Toggle(old(uiState).selectedRouteIds, routeId),
                                       selectedTripIds := {})
      ensures appliedFilters == old(appliedFilters)
    {
      uiState := uiState.(selectedRouteIds := Toggle(uiState.selectedRouteIds, routeId), selectedTripIds := {});
    }

    /** `toggleTripSelection`: flips the trip and changes nothing else. */
    method ToggleTripSelection(tripId: string)
      modifies this
      ensures uiState == old(uiState).(selectedTripIds := Toggle(old(uiState).selectedTripIds, tripId))
      ensures appliedFilters == old(appliedFilters)
    {
      uiState := uiState.(selectedTripIds := Toggle(uiState.selectedTripIds, tripId));
    }

    method UpdateRouteSearchQuery(query: string)
      modifies this
      ensures uiState == old(uiState).(routeSearchQuery := query)
      ensures appliedFilters == old(appliedFilters)
    {
      uiState := uiState.(routeSearchQuery := query);
    }

    method UpdateTripSearchQuery(query: string)
      modifies this
      ensures uiState == old(uiState).(tripSearchQuery := query)
      ensures appliedFilters == old(appliedFilters)
    {
      uiState := uiState.(tripSearchQuery := query);
    }

    /** `applyFilters`: the applied filters become exactly the current selections. */
    method ApplyFilters()
      modifies this
      ensures appliedFilters == VehicleFilters(uiState.selectedRouteIds, uiState.selectedTripIds)
      ensures uiState == old(uiState)
    {
      appliedFilters := VehicleFilters(uiState.selectedRouteIds, uiState.selectedTripIds);
    }

    /** `clearFilters`: empties both selections and applies the empty filters. */
    method ClearFilters()
      modifies this
      ensures uiState == old(uiState).(selectedRouteIds := {}, selectedTripIds := {})
      ensures appliedFilters == DEFAULT_VEHICLE_FILTERS && appliedFilters.IsEmpty()
    {
      uiState := uiState.(selectedRouteIds := {}, selectedTripIds := {});
      appliedFilters := DEFAULT_VEHICLE_FILTERS;
    }

    method ClearRoutes()
      modifies this
      ensures uiState == old(uiState).(selectedRouteIds := {})
      ensures appliedFilters == old(appliedFilters)
    {
      uiState := uiState.(selectedRouteIds := {});
    }

    method ClearTrips()
      modifies this
      ensures uiState == old(uiState).(selectedTripIds := {})
      ensures appliedFilters == old(appliedFilters)
    {
      uiState := uiState.(selectedTripIds := {});
    }

    /** The start of `loadRoutes` (also `retryRoutes`): loading, with any previous error cleared. */
    method StartLoadRoutes()
      modifies this
      ensures uiState == old(uiState).(isRoutesLoading := true, routesError := None)
      ensures appliedFilters == old(appliedFilters)
    {
      uiState := uiState.(isRoutesLoading := true, routesError := None);
    }

    /**
     * The end of `loadRoutes`, given what `getRoutes()` did: a success
     * replaces the options and clears the error; an empty result leaves no
     * options; an error or an exception sets the error text and keeps the
     * options. Loading is over in every case.
     */
    method CompleteLoadRoutes(outcome: CallOutcome<DomainResult<seq<Route>>>)
      modifies this
      ensures !uiState.isRoutesLoading
      ensures appliedFilters == old(appliedFilters)
      ensures uiState.selectedRouteIds == old(uiState).selectedRouteIds && uiState.selectedTripIds == old(uiState).selectedTripIds
      ensures uiState.routeSearchQuery == old(uiState).routeSearchQuery && uiState.tripSearchQuery == old(uiState).tripSearchQuery
      ensures outcome.Returned? && outcome.value.Success? ==>
                uiState.routes == RouteOptions(outcome.value.data) && uiState.routesError.None?
      ensures outcome.Returned? && outcome.value.Empty? ==> uiState.routes == [] && uiState.routesError.None?
      ensures outcome.Threw? || outcome.value.Error? ==>
                uiState.routes == old(uiState).routes && uiState.routesError == Some(RoutesErrorText(outcome))
    {
      match outcome {
        case Returned(Success(rs)) =>
          uiState := uiState.(routes := RouteOptions(rs), isRoutesLoading := false, routesError := None);
        case Returned(Empty) =>
          uiState := uiState.(routes := [], isRoutesLoading := false, routesError := None);
        case Returned(Error(_, _, _, _, _)) =>
          uiState := uiState.(isRoutesLoading := false, routesError := Some(RoutesErrorText(outcome)));
        case Threw(_) =>
          uiState := uiState.(isRoutesLoading := false, routesError := Some(RoutesErrorText(outcome)));
      }
    }
  }

  /** A plain error "Boom" shows "Boom"; a blank one shows the default text. */
  lemma RoutesErrorExamples()
    ensures RoutesErrorText(Returned(Error("Boom", None, None, None, false))) == "Boom"
    ensures RoutesErrorText(Returned(Error(" ", None, None, None, false))) == DEFAULT_ROUTES_ERROR
  {
    assert !IsWhitespace("Boom"[0]);
  }
}
