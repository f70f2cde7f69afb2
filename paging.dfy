/**
 * The offset-pagination arithmetic shared by `VehiclePagingSource` and
 * `TripPagingSource`: keys are item offsets, a missing key is offset 0.
 */
module Paging {
  import opened Wrappers
  import opened CoreDomain

  const INITIAL_OFFSET: int := 0

  /** `params.key ?: INITIAL_OFFSET`. */
  function OffsetOf(key: Option<int>): int {
    key.GetOr(INITIAL_OFFSET)
  }

  /** The key after a page: null once a page comes back short. */
  function NextKey(offset: int, itemCount: nat, pageSize: nat): (r: Option<int>)
    ensures r.None? <==> itemCount < pageSize
    ensures r.Some? ==> r.value == offset + pageSize
  {
    if itemCount < pageSize then None else Some(offset + pageSize)
  }

  /** The key before a page: null at offset 0, otherwise one page back, never below 0. */
  function PrevKey(offset: int, pageSize: nat): (r: Option<int>)
    ensures r.None? <==> offset == INITIAL_OFFSET
    ensures r.Some? ==> r.value >= 0 && (r.value == 0 || r.value == offset - pageSize)
    ensures r.Some? && offset >= pageSize ==> r.value == offset - pageSize
  {
    if offset == INITIAL_OFFSET then None
    else if offset - pageSize < INITIAL_OFFSET then Some(INITIAL_OFFSET)
    else Some(offset - pageSize)
  }

  /** Moving forward a full page and back again returns to the same offset. */
  lemma NextPrevRoundTrip(offset: int, itemCount: nat, pageSize: nat)
    requires offset >= 0 && pageSize > 0 && itemCount >= pageSize
    ensures NextKey(offset, itemCount, pageSize).Some?
    ensures PrevKey(NextKey(offset, itemCount, pageSize).value, pageSize) == Some(offset)
  {
  }

  /** `LoadResult`: a page with its neighbours' keys, or the failure. */
  datatype LoadResult<T> =
    | Page(data: seq<T>, prevKey: Option<int>, nextKey: Option<int>)
    | LoadError(thrown: Throwable)

  /** The keys of the loaded page closest to the anchor position. */
  datatype PageKeys = PageKeys(prevKey: Option<int>, nextKey: Option<int>)

  /**
   * What `getRefreshKey` reads from the paging state: the anchor position,
   * the page `closestPageToPosition` picks for it, and the configured page size.
   */
  datatype PagingState = PagingState(anchorPosition: Option<int>, closestPage: Option<PageKeys>, pageSize: int)

  /**
   * `getRefreshKey`: null without an anchor; otherwise the anchor page's
   * `prevKey + pageSize`, else its `nextKey - pageSize`, else null.
   */
  function RefreshKey(state: PagingState): (r: Option<int>)
    ensures state.anchorPosition.None? || state.closestPage.None? ==> r.None?
    ensures state.anchorPosition.Some? && state.closestPage.Some? ==>
              var p := state.closestPage.value;
              && (p.prevKey.Some? ==> r == Some(p.prevKey.value + state.pageSize))
              && (p.prevKey.None? && p.nextKey.Some? ==> r == Some(p.nextKey.value - state.pageSize))
              && (p.prevKey.None? && p.nextKey.None? ==> r.None?)
  {
    match state.anchorPosition
    case None => None
    case Some(_) =>
      match state.closestPage
      case None => None
      case Some(p) =>
        if p.prevKey.Some? then Some(p.prevKey.value + state.pageSize)
        else if p.nextKey.Some? then Some(p.nextKey.value - state.pageSize)
        else None
  }

  /**
   * Refreshing from an anchor inside a page loaded at `offset` resumes at
   * that offset, provided the page has a neighbour to compute it from and
   * the offset is page-aligned enough for `max(offset - P, 0) + P` to be it.
   */
  lemma RefreshResumesAtLoadedOffset(offset: int, itemCount: nat, pageSize: nat, anchor: int)
    requires pageSize > 0
    requires offset == 0 || offset >= pageSize
    requires offset > 0 || itemCount >= pageSize
    ensures RefreshKey(PagingState(Some(anchor),
                                   Some(PageKeys(PrevKey(offset, pageSize), NextKey(offset, itemCount, pageSize))),
                                   pageSize))
            == Some(offset)
  {
  }
}
