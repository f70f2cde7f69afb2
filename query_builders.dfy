/**
 * `VehicleFilterQueryBuilder` and `TripFilterQueryBuilder`: filter values to
 * the upstream's query parameters, with set members sorted before joining so
 * that equal filters always give the same parameters.
 */
module QueryBuilders {
  import opened Text
  import opened Filters

  const FILTER_ROUTE := "filter[route]"
  const FILTER_TRIP := "filter[trip]"
  const FILTER_NAME := "filter[name]"
  const SEPARATOR := ","

  /** `ids.sorted().joinToString(",")`. */
  function JoinedIds(ids: set<string>): string {
    Join(SortedMembers(ids), SEPARATOR)
  }

  /**
   * Each id set contributes its own key exactly when it is non-empty, with
   * its ids sorted and comma-joined; nothing else is emitted, so the map is
   * empty exactly when the filters are.
   */
  function BuildVehicleQuery(f: VehicleFilters): (q: map<string, string>)
    ensures q == map[] <==> f.IsEmpty()
    ensures FILTER_ROUTE in q <==> f.routeIds != {}
    ensures FILTER_TRIP in q <==> f.tripIds != {}
    ensures FILTER_ROUTE in q ==> q[FILTER_ROUTE] == JoinedIds(f.routeIds)
    ensures FILTER_TRIP in q ==> q[FILTER_TRIP] == JoinedIds(f.tripIds)
    ensures q.Keys <= {FILTER_ROUTE, FILTER_TRIP}
  {
    assert FILTER_ROUTE != FILTER_TRIP by { assert |FILTER_ROUTE| != |FILTER_TRIP|; }
    if f.IsEmpty() then map[]
    else
      var withRoutes := if f.routeIds != {} then map[FILTER_ROUTE := JoinedIds(f.routeIds)] else map[];
      var q := if f.tripIds != {} then withRoutes[FILTER_TRIP := JoinedIds(f.tripIds)] else withRoutes;
      assert FILTER_ROUTE in q || FILTER_TRIP in q;
      q
  }

  /**
   * The route key is present exactly when routes are selected; the name key
   * exactly when the trimmed query is non-empty, and its value is that
   * trimmed query. The map is empty exactly when the filters are (blank and
   * trims-to-empty coincide).
   */
  function BuildTripQuery(f: TripFilters): (q: map<string, string>)
    ensures q == map[] <==> f.IsEmpty()
    ensures FILTER_ROUTE in q <==> f.routeIds != {}
    ensures FILTER_ROUTE in q ==> q[FILTER_ROUTE] == JoinedIds(f.routeIds)
    ensures FILTER_NAME in q <==> Trim(f.nameQuery) != []
    ensures FILTER_NAME in q ==> q[FILTER_NAME] == Trim(f.nameQuery)
    ensures q.Keys <= {FILTER_ROUTE, FILTER_NAME}
  {
    TrimEmptyIffBlank(f.nameQuery);
    assert FILTER_ROUTE != FILTER_NAME by { assert |FILTER_ROUTE| != |FILTER_NAME|; }
    var trimmed := Trim(f.nameQuery);
    var withRoutes: map<string, string> := if f.routeIds != {} then map[FILTER_ROUTE := JoinedIds(f.routeIds)] else map[];
    var q := if trimmed != [] then withRoutes[FILTER_NAME := trimmed] else withRoutes;
    assert q == map[] <==> f.IsEmpty() by {
      if !f.IsEmpty() { assert FILTER_ROUTE in q || FILTER_NAME in q; }
    }
    q
  }

  /** The name sent upstream never starts or ends with whitespace. */
  lemma TripQueryNameTrimmed(f: TripFilters)
    ensures var q := BuildTripQuery(f);
            FILTER_NAME in q ==> var v := q[FILTER_NAME];
            v != [] && !IsWhitespace(v[0]) && !IsWhitespace(v[|v| - 1])
  {
    TrimEnds(f.nameQuery);
  }

  /**
   * Insertion order does not matter: any strictly ascending listing of the
   * ids joins to the same parameter value.
   */
  lemma JoinedIdsCanonical(ids: set<string>, listing: seq<string>)
    requires StrictlySorted(listing)
    requires forall x :: x in listing <==> x in ids
    ensures JoinedIds(ids) == Join(listing, SEPARATOR)
  {
    StrictlySortedUnique(SortedMembers(ids), listing);
  }

  /** The ids {"Red", "Blue"} join to "Blue,Red". */
  lemma JoinedIdsExample()
    ensures JoinedIds({"Red", "Blue"}) == "Blue,Red"
  {
    var listing := ["Blue", "Red"];
    assert LexLeq("Blue", "Red") by { assert "Blue"[0] < "Red"[0]; }
    assert StrictlySorted(listing);
    JoinedIdsCanonical({"Red", "Blue"}, listing);
  }

  /** Both builders send the route set {"Red", "Blue"} as "Blue,Red". */
  lemma SortedRouteExample()
    ensures BuildVehicleQuery(VehicleFilters({"Red", "Blue"}, {})) == map[FILTER_ROUTE := "Blue,Red"]
    ensures BuildTripQuery(TripFilters({"Red", "Blue"}, "")) == map[FILTER_ROUTE := "Blue,Red"]
  {
    JoinedIdsExample();
    assert Trim("") == "";
  }

  /** A name of blanks alone, with no route, sends no parameters at all. */
  lemma BlankNameExample()
    ensures BuildTripQuery(TripFilters({}, " \t ")) == map[]
  {
    assert IsBlank(" \t ") by {
      assert IsWhitespace(" \t "[0]) && IsWhitespace(" \t "[1]) && IsWhitespace(" \t "[2]);
    }
  }
}
