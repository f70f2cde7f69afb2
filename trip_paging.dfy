/**
 * `TripPagingSource` and the empty-filter short-circuit of
 * `TripRepositoryImpl.getTripsPagingFlow`.
 */
module TripPaging {
  import opened Wrappers
  import opened CoreDomain
  import opened VehicleModel
  import opened Dtos
  import opened DataMappers
  import opened Filters
  import opened QueryBuilders
  import opened Paging

  const PAGE_SIZE: nat := 20

  /** One call of `api.getTrips(filters, offset, limit)`. */
  datatype TripRequest = TripRequest(filters: map<string, string>, offset: int, limit: int)

  /**
   * `load(params)`: requests PAGE_SIZE trips at the key's offset with the
   * query built from the filters. A returned list becomes a page of the
   * mapped trips, in order; every failure, a 429 included, is passed on
   * unchanged.
   */
  method Load(filters: TripFilters, key: Option<int>, api: TripRequest -> CallOutcome<seq<TripDataDto>>)
    returns (request: TripRequest, result: LoadResult<Trip>)
    ensures request.offset == OffsetOf(key) && request.limit == PAGE_SIZE
    ensures request.filters == BuildTripQuery(filters)
    ensures result.Page? <==> api(request).Returned?
    ensures result.Page? ==>
              && |result.data| == |api(request).value|
              && (forall i :: 0 <= i < |result.data| ==> result.data[i] == ToTrip(api(request).value[i]))
              && (result.nextKey.None? <==> |result.data| < PAGE_SIZE)
              && (result.nextKey.Some? ==> result.nextKey.value == request.offset + PAGE_SIZE)
              && (result.prevKey.None? <==> request.offset == 0)
              && (result.prevKey.Some? ==> result.prevKey.value == if request.offset < PAGE_SIZE then 0 else request.offset - PAGE_SIZE)
    ensures api(request).Threw? ==> result == LoadError(api(request).thrown)
  {
    var offset := OffsetOf(key);
    request := TripRequest(BuildTripQuery(filters), offset, PAGE_SIZE);
    var outcome := api(request);
    match outcome {
      case Returned(dtos) =>
        var trips := ToTrips(dtos);
        result := Page(trips, PrevKey(offset, PAGE_SIZE), NextKey(offset, |trips|, PAGE_SIZE));
      case Threw(t) =>
        result := LoadError(t);
    }
  }

  /**
   * A trip page as the repository serves it: empty filters give an empty
   * result with no further pages and make no request at all; otherwise the
   * paging source loads.
   */
  method LoadFiltered(filters: TripFilters, key: Option<int>, api: TripRequest -> CallOutcome<seq<TripDataDto>>)
    returns (request: Option<TripRequest>, result: LoadResult<Trip>)
    ensures filters.IsEmpty() <==> request.None?
    ensures filters.IsEmpty() ==> result == Page([], None, None)
    ensures request.Some? ==> request.value.filters != map[] && request.value.filters == BuildTripQuery(filters)
    ensures request.Some? ==> request.value.offset == OffsetOf(key) && request.value.limit == PAGE_SIZE
    ensures request.Some? ==>
              && (result.Page? <==> api(request.value).Returned?)
              && (api(request.value).Threw? ==> result == LoadError(api(request.value).thrown))
              && (result.Page? ==>
                    && |result.data| == |api(request.value).value|
                    && (forall i :: 0 <= i < |result.data| ==> result.data[i] == ToTrip(api(request.value).value[i]))
                    && (result.nextKey.None? <==> |result.data| < PAGE_SIZE)
                    && (result.nextKey.Some? ==> result.nextKey.value == request.value.offset + PAGE_SIZE)
                    && (result.prevKey.None? <==> request.value.offset == 0)
                    && (result.prevKey.Some? ==>
                          result.prevKey.value == if request.value.offset < PAGE_SIZE then 0 else request.value.offset - PAGE_SIZE))
  {
    if filters.IsEmpty() {
      request := None;
      result := Page([], None, None);
    } else {
      var sent;
      sent, result := Load(filters, key, api);
      request := Some(sent);
    }
  }

  /** `getRefreshKey` with this source's page size. */
  function TripRefreshKey(anchorPosition: Option<int>, closestPage: Option<PageKeys>): (r: Option<int>)
    ensures anchorPosition.None? || closestPage.None? ==> r.None?
    ensures anchorPosition.Some? && closestPage.Some? ==>
              var p := closestPage.value;
              && (p.prevKey.Some? ==> r == Some(p.prevKey.value + PAGE_SIZE))
              && (p.prevKey.None? && p.nextKey.Some? ==> r == Some(p.nextKey.value - PAGE_SIZE))
              && (p.prevKey.None? && p.nextKey.None? ==> r.None?)
  {
    RefreshKey(PagingState(anchorPosition, closestPage, PAGE_SIZE))
  }
}
