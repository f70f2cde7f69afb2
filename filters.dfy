/** The two filter value types (domain/model/VehicleFilters.kt, TripFilters.kt). */
module Filters {
  import opened Text

  /** Filters of the vehicle list: selected route ids and trip ids. */
  datatype VehicleFilters = VehicleFilters(routeIds: set<string>, tripIds: set<string>) {
    predicate IsEmpty() {
      routeIds == {} && tripIds == {}
    }
  }

  /** `VehicleFilters()` with its default arguments. */
  const DEFAULT_VEHICLE_FILTERS: VehicleFilters := VehicleFilters({}, {})

  /** Filters of the trip picker: selected route ids and a free-text trip name. */
  datatype TripFilters = TripFilters(routeIds: set<string>, nameQuery: string) {
    /** Empty when no route is selected and the query is blank (not merely empty). */
    predicate IsEmpty() {
      routeIds == {} && IsBlank(nameQuery)
    }
  }

  /** `TripFilters()` with its default arguments. */
  const DEFAULT_TRIP_FILTERS: TripFilters := TripFilters({}, "")

  /** The defaults are empty; one selected id of either kind makes vehicle filters non-empty. */
  lemma VehicleFiltersEmptiness(f: VehicleFilters, id: string)
    ensures DEFAULT_VEHICLE_FILTERS.IsEmpty()
    ensures id in f.routeIds ==> !f.IsEmpty()
    ensures id in f.tripIds ==> !f.IsEmpty()
  {
  }

  /**
   * The default is empty; a whitespace-only query with no routes is still
   * empty; a selected route or a non-blank query makes the filters non-empty.
   */
  lemma TripFiltersEmptiness(f: TripFilters, id: string)
    ensures DEFAULT_TRIP_FILTERS.IsEmpty()
    ensures TripFilters({}, " \t ").IsEmpty()
    ensures id in f.routeIds ==> !f.IsEmpty()
    ensures !IsBlank(f.nameQuery) ==> !f.IsEmpty()
  {
    assert IsWhitespace(" \t "[0]) && IsWhitespace(" \t "[1]) && IsWhitespace(" \t "[2]);
  }
}
