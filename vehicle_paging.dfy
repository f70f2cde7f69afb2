/** `VehiclePagingSource`: pages of vehicles, with HTTP 429 turned into a rate-limit error. */
module VehiclePaging {
  import opened Wrappers
  import opened Text
  import opened CoreDomain
  import opened VehicleModel
  import opened Dtos
  import opened DataMappers
  import opened Filters
  import opened QueryBuilders
  import opened Paging

  const PAGE_SIZE: nat := 10
  const HTTP_TOO_MANY_REQUESTS := 429

  const RATE_LIMIT_LATER := "Rate limit exceeded. Please try again later."
  const RATE_LIMIT_SOON := "Rate limit exceeded. Please try again soon."
  const RATE_LIMIT_RESET := "Rate limit has been reset. Please try again."

  /** One call of `api.getVehicles(filters, offset, limit)`. */
  datatype VehicleRequest = VehicleRequest(filters: map<string, string>, offset: int, limit: int)

  /**
   * `buildRateLimitMessage`: the message carried by the rate-limit error,
   * which the list screen shows once its countdown has run out. `now` is the
   * wall clock in epoch seconds.
   */
  function RateLimitMessage(resetAt: Option<int>, now: int): (m: string)
    ensures resetAt.None? ==> m == RATE_LIMIT_LATER
    ensures resetAt.Some? && resetAt.value <= now ==> m == RATE_LIMIT_SOON
    ensures resetAt.Some? && resetAt.value > now ==> m == RATE_LIMIT_RESET
  {
    match resetAt
    case None => RATE_LIMIT_LATER
    case Some(r) => if r - now <= 0 then RATE_LIMIT_SOON else RATE_LIMIT_RESET
  }

  /** An `HttpException` with status 429. */
  predicate IsTooManyRequests(t: Throwable) {
    t.HttpException? && t.code == HTTP_TOO_MANY_REQUESTS
  }

  /**
   * `load(params)`: requests PAGE_SIZE vehicles at the key's offset (0 when
   * absent) with the query built from the filters. A returned list becomes a
   * page of the mapped vehicles whose next key is null exactly when the page
   * is short and whose previous key is null exactly at offset 0. A 429 becomes
   * a `RateLimitException` whose reset time is the `x-ratelimit-reset` header
   * read as a Long (null when missing or not a number); any other failure is
   * passed on unchanged.
   */
  method Load(filters: VehicleFilters, key: Option<int>,
              api: VehicleRequest -> CallOutcome<seq<VehicleDataDto>>, now: int)
    returns (request: VehicleRequest, result: LoadResult<Vehicle>)
    ensures request.offset == OffsetOf(key) && request.limit == PAGE_SIZE
    ensures request.filters == BuildVehicleQuery(filters)
    ensures result.Page? <==> api(request).Returned?
    ensures result.Page? ==>
              && result.data == ToVehicles(api(request).value)
              && (result.nextKey.None? <==> |result.data| < PAGE_SIZE)
              && (result.nextKey.Some? ==> result.nextKey.value == request.offset + PAGE_SIZE)
              && (result.prevKey.None? <==> request.offset == 0)
              && (result.prevKey.Some? ==> result.prevKey.value == if request.offset < PAGE_SIZE then 0 else request.offset - PAGE_SIZE)
    ensures api(request).Threw? && IsTooManyRequests(api(request).thrown) ==>
              var resetAt := if api(request).thrown.resetHeader.Some? then ParseLong(api(request).thrown.resetHeader.value) else None;
              result == LoadError(RateLimitException(resetAt, Some(RateLimitMessage(resetAt, now))))
    ensures api(request).Threw? && !IsTooManyRequests(api(request).thrown) ==>
              result == LoadError(api(request).thrown)
  {
    var offset := OffsetOf(key);
    request := VehicleRequest(BuildVehicleQuery(filters), offset, PAGE_SIZE);
    var outcome := api(request);
    match outcome {
      case Returned(dtos) =>
        var vehicles := ToVehicles(dtos);
        result := Page(vehicles, PrevKey(offset, PAGE_SIZE), NextKey(offset, |vehicles|, PAGE_SIZE));
      case Threw(t) =>
        if IsTooManyRequests(t) {
          var resetAt := if t.resetHeader.Some? then ParseLong(t.resetHeader.value) else None;
          result := LoadError(RateLimitException(resetAt, Some(RateLimitMessage(resetAt, now))));
        } else {
          result := LoadError(t);
        }
    }
  }

  /** `getRefreshKey` with this source's page size. */
  function VehicleRefreshKey(anchorPosition: Option<int>, closestPage: Option<PageKeys>): (r: Option<int>)
    ensures anchorPosition.None? || closestPage.None? ==> r.None?
    ensures anchorPosition.Some? && closestPage.Some? ==>
              var p := closestPage.value;
              && (p.prevKey.Some? ==> r == Some(p.prevKey.value + PAGE_SIZE))
              && (p.prevKey.None? && p.nextKey.Some? ==> r == Some(p.nextKey.value - PAGE_SIZE))
              && (p.prevKey.None? && p.nextKey.None? ==> r.None?)
  {
    RefreshKey(PagingState(anchorPosition, closestPage, PAGE_SIZE))
  }

  /** A full page at offset 0 has keys (null, 10); one at offset 10 has keys (0, 20). */
  lemma VehicleKeysExample()
    ensures PrevKey(0, PAGE_SIZE).None? && NextKey(0, 10, PAGE_SIZE) == Some(10)
    ensures PrevKey(10, PAGE_SIZE) == Some(0) && NextKey(10, 10, PAGE_SIZE) == Some(20)
    ensures VehicleRefreshKey(Some(15), Some(PageKeys(Some(0), Some(20)))) == Some(10)
  {
  }
}
