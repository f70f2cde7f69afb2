/**
 * `RouteRepositoryImpl`: fetches every route page by page, sorts and caches
 * them, and answers single-route lookups from the cache when it can.
 */
module RouteRepository {
  import opened Wrappers
  import opened CoreDomain
  import opened VehicleModel
  import opened Dtos
  import opened DataMappers
  import opened Networking
  import opened RouteSort

  const PAGE_SIZE: nat := 100

  /** One call of `api.getRoutes(offset, limit)`. */
  datatype RouteRequest = RouteRequest(offset: int, limit: int)

  /**
   * What the server answers to the page at `index` during one `getRoutes`:
   * the given outcomes in order, and an empty list past their end.
   */
  function Answer(server: seq<CallOutcome<seq<RouteDataDto>>>, index: nat): CallOutcome<seq<RouteDataDto>> {
    if index < |server| then server[index] else Returned([])
  }

  /** The outcome of the paging loop: every route collected, or the first failure. */
  datatype Fetched = Fetched(routes: seq<Route>) | FetchFailed(thrown: Throwable)

  /**
   * The paging loop from page `index` on: stop after the first page shorter
   * than PAGE_SIZE, give up at the first failure; `pages` is how many
   * requests that takes.
   */
  function FetchFrom(server: seq<CallOutcome<seq<RouteDataDto>>>, index: nat): (r: (Fetched, nat))
    ensures r.1 >= 1
    decreases |server| - index
  {
    match Answer(server, index)
    case Threw(t) => (FetchFailed(t), 1)
    case Returned(dtos) =>
      var page := ToRoutes(dtos);
      if |page| < PAGE_SIZE then (Fetched(page), 1)
      else
        var (rest, n) := FetchFrom(server, index + 1);
        (if rest.Fetched? then Fetched(page + rest.routes) else rest, n + 1)
  }

  /** The first `count` page requests: offsets 0, PAGE_SIZE, 2 * PAGE_SIZE, .... */
  function Requests(count: nat): (rq: seq<RouteRequest>)
    ensures |rq| == count
    ensures forall i :: 0 <= i < count ==> rq[i] == RouteRequest(i * PAGE_SIZE, PAGE_SIZE)
  {
    seq(count, i => RouteRequest(i * PAGE_SIZE, PAGE_SIZE))
  }

  /** The routes of `count` answered pages from page `from` on, concatenated. */
  function Collected(server: seq<CallOutcome<seq<RouteDataDto>>>, from: nat, count: nat): seq<Route>
    requires forall i :: from <= i < from + count ==> Answer(server, i).Returned?
    decreases count
  {
    if count == 0 then []
    else ToRoutes(Answer(server, from).value) + Collected(server, from + 1, count - 1)
  }

  /** The result `getRoutes` builds from the paging loop's outcome. */
  function RoutesResult(f: Fetched): (r: DomainResult<seq<Route>>)
    ensures f.Fetched? ==> r == Success(SortRoutes(f.routes))
    ensures f.FetchFailed? ==> r == ErrorFromThrowable(f.thrown)
  {
    match f
    case Fetched(routes) => Success(SortRoutes(routes))
    case FetchFailed(t) => ErrorFromThrowable(t)
  }

  /**
   * The paging loop requests pages `index`, `index + 1`, ... and stops at the
   * first page that fails or comes back shorter than PAGE_SIZE: every page
   * before the last was full; a failure is the last page's throwable; a
   * success is the concatenation of every page it requested.
   */
  lemma {:induction false} FetchFromSpec(server: seq<CallOutcome<seq<RouteDataDto>>>, index: nat)
    ensures var (f, n) := FetchFrom(server, index);
            forall i :: index <= i < index + n - 1 ==>
              Answer(server, i).Returned? && |ToRoutes(Answer(server, i).value)| >= PAGE_SIZE
    ensures var (f, n) := FetchFrom(server, index);
            f.FetchFailed? <==> Answer(server, index + n - 1).Threw?
    ensures var (f, n) := FetchFrom(server, index);
            f.FetchFailed? ==> f.thrown == Answer(server, index + n - 1).thrown
    ensures var (f, n) := FetchFrom(server, index);
            f.Fetched? ==>
              && Answer(server, index + n - 1).Returned?
              && |ToRoutes(Answer(server, index + n - 1).value)| < PAGE_SIZE
              && f.routes == Collected(server, index, n)
    decreases |server| - index
  {
    match Answer(server, index)
    case Threw(_) =>
    case Returned(dtos) =>
      var page := ToRoutes(dtos);
      if |page| < PAGE_SIZE {
        assert Collected(server, index, 1) == page + Collected(server, index + 1, 0);
      } else {
        FetchFromSpec(server, index + 1);
        var (rest, m) := FetchFrom(server, index + 1);
        if rest.Fetched? {
          assert Collected(server, index, m + 1) == page + Collected(server, index + 1, m);
        }
      }
  }

  /** The first route of `rs` with the given id (`firstOrNull { it.id == id }`). */
  function FirstWithId(rs: seq<Route>, id: string): (r: Option<Route>)
    ensures r.None? <==> forall i :: 0 <= i < |rs| ==> rs[i].id != id
    ensures r.Some? ==> exists i :: 0 <= i < |rs| && rs[i] == r.value && r.value.id == id
                                    && forall j :: 0 <= j < i ==> rs[j].id != id
  {
    if rs == [] then None
    else if rs[0].id == id then Some(rs[0])
    else
      var r := FirstWithId(rs[1..], id);
      assert r.Some? ==> exists i :: 0 <= i < |rs[1..]| && rs[1..][i] == r.value && r.value.id == id
                                    && forall j :: 0 <= j < i ==> rs[1..][j].id != id;
      if r.Some? then
        var i :| 0 <= i < |rs[1..]| && rs[1..][i] == r.value && r.value.id == id
                 && forall j :: 0 <= j < i ==> rs[1..][j].id != id;
        assert rs[i + 1] == r.value;
        assert forall j :: 0 <= j < i + 1 ==> rs[j].id != id by {
          forall j | 0 <= j < i + 1 ensures rs[j].id != id {
            if j > 0 { assert rs[j] == rs[1..][j - 1]; }
          }
        }
        r
      else r
  }

  class RouteRepositoryImpl {
    /** `cachedRoutes`: the sorted list of the last successful `getRoutes`, or null. */
    var cachedRoutes: Option<seq<Route>>

    constructor()
      ensures cachedRoutes.None?
    {
      cachedRoutes := None;
    }

    /**
     * `getRoutes()`: the cached list without any request when there is one;
     * otherwise requests pages at offsets 0, 100, 200, ... until a page is
     * shorter than 100 or a request fails. On success the routes are sorted,
     * cached and returned; on failure the cache is left empty and the
     * failure is mapped like `mapNetworkCall` maps it.
     */
    method GetRoutes(server: seq<CallOutcome<seq<RouteDataDto>>>)
      returns (result: DomainResult<seq<Route>>, requests: seq<RouteRequest>)
      modifies this
      ensures old(cachedRoutes).Some? ==>
                result == Success(old(cachedRoutes).value) && requests == [] && cachedRoutes == old(cachedRoutes)
      ensures old(cachedRoutes).None? ==>
                && requests == Requests(FetchFrom(server, 0).1)
                && result == RoutesResult(FetchFrom(server, 0).0)
                && (result.Success? ==> cachedRoutes == Some(result.data))
                && (!result.Success? ==> cachedRoutes.None?)
    {
      if cachedRoutes.Some? {
        return Success(cachedRoutes.value), [];
      }
      var routes: seq<Route> := [];
      var offset := 0;
      var index: nat := 0;
      requests := [];
      while true
        invariant index <= |server|
        invariant offset == index * PAGE_SIZE
        invariant requests == Requests(index)
        invariant FetchFrom(server, 0).1 == index + FetchFrom(server, index).1
        invariant FetchFrom(server, 0).0 ==
                    (if FetchFrom(server, index).0.Fetched?
                     then Fetched(routes + FetchFrom(server, index).0.routes)
                     else FetchFrom(server, index).0)
        decreases |server| - index
      {
        var outcome := Answer(server, index);
        requests := requests + [RouteRequest(offset, PAGE_SIZE)];
        assert requests == Requests(index + 1);
        match outcome {
          case Threw(t) =>
            return ErrorFromThrowable(t), requests;
          case Returned(dtos) =>
            var page := ToRoutes(dtos);
            routes := routes + page;
            if |page| < PAGE_SIZE {
              break;
            }
            offset := offset + PAGE_SIZE;
            index := index + 1;
        }
      }
      var sorted := SortRoutes(routes);
      cachedRoutes := Some(sorted);
      result := Success(sorted);
    }

    /**
     * `getRouteById(id)`: the first cached route with that id, without a
     * request; otherwise one request for `id` (`api.getRoute(id)`) whose
     * outcome goes through `mapNetworkCall` after mapping the returned route.
     * `askedFor` is the id of the request made, if any.
     */
    method GetRouteById(id: string, api: string -> CallOutcome<RouteDataDto>)
      returns (result: DomainResult<Route>, askedFor: Option<string>)
      ensures cachedRoutes.Some? && FirstWithId(cachedRoutes.value, id).Some? ==>
                askedFor.None? && result == Success(FirstWithId(cachedRoutes.value, id).value) && result.data.id == id
      ensures askedFor.Some? <==> cachedRoutes.None? || FirstWithId(cachedRoutes.value, id).None?
      ensures askedFor.Some? ==> askedFor.value == id
      ensures askedFor.Some? && api(id).Returned? ==> result == Success(ToRoute(api(id).value))
      ensures askedFor.Some? && api(id).Threw? ==> result == ErrorFromThrowable(api(id).thrown)
    {
      if cachedRoutes.Some? {
        var hit := FirstWithId(cachedRoutes.value, id);
        if hit.Some? {
          return Success(hit.value), None;
        }
      }
      var call := match api(id)
        case Returned(dto) => Returned(ToRoute(dto))
        case Threw(t) => Threw(t);
      result := MapNetworkCall(call);
      askedFor := Some(id);
    }
  }
}
