/** The page-key rule shared by the two paging sources: 1-based page numbers,
    a previous key unless on the first page, a next key unless the page came
    back empty, and the refresh key recovered from the page nearest the anchor.
    Page numbers are Kotlin `Int`s, so `page + 1` and `page - 1` wrap. */
module PageKeys {
  import opened Common

  const StartingPageIndex: Int32 := 1

  /** `LoadResult`: a page with its neighbour keys, or an error result. */
  datatype LoadResult<+T> =
    | Page(data: seq<T>, prevKey: Option<Int32>, nextKey: Option<Int32>)
    | Error(failure: Failure)

  /** The keys of a loaded page, as the pager keeps them. */
  datatype PageBounds = PageBounds(prevKey: Option<Int32>, nextKey: Option<Int32>)

  /** The page to load for a key: `params.key ?: 1`. */
  function PageFor(key: Option<Int32>): (page: Int32)
    ensures key.None? ==> page == StartingPageIndex
    ensures key.Some? ==> page == key.value
  {
    key.OrElse(StartingPageIndex)
  }

  /** The page `page` holding `data`, with its keys. */
  function PageOf<T>(page: Int32, data: seq<T>): (r: LoadResult<T>)
    ensures r.Page? && r.data == data
    ensures r.prevKey.None? <==> page == StartingPageIndex
    ensures r.prevKey.Some? ==> r.prevKey.value == Dec32(page)
    ensures r.nextKey.None? <==> data == []
    ensures r.nextKey.Some? ==> r.nextKey.value == Inc32(page)
  {
    Page(data,
         if page == StartingPageIndex then None else Some(Dec32(page)),
         if data == [] then None else Some(Inc32(page)))
  }

  function BoundsOf<T>(r: LoadResult<T>): PageBounds
    requires r.Page?
  {
    PageBounds(r.prevKey, r.nextKey)
  }

  /** `getRefreshKey`: with no anchor there is none; otherwise the closest
      page's `prevKey + 1`, falling back to its `nextKey - 1`. `closestPage`
      stands for the pager's `closestPageToPosition`. */
  function RefreshKey(anchor: Option<int>, closestPage: int -> Option<PageBounds>): (r: Option<Int32>)
    ensures anchor.None? ==> r.None?
    ensures anchor.Some? && closestPage(anchor.value).None? ==> r.None?
    ensures anchor.Some? && closestPage(anchor.value).Some? ==>
              var b := closestPage(anchor.value).value;
              r == if b.prevKey.Some? then Some(Inc32(b.prevKey.value))
                   else if b.nextKey.Some? then Some(Dec32(b.nextKey.value))
                   else None
  {
    match anchor
    case None => None
    case Some(a) =>
      match closestPage(a)
      case None => None
      case Some(b) =>
        if b.prevKey.Some? then Some(Inc32(b.prevKey.value))
        else if b.nextKey.Some? then Some(Dec32(b.nextKey.value))
        else None
  }

  /** Round trip: refreshing at an anchor inside page `page` reloads `page`
      itself, except for an empty first page, which has no keys at all (and
      the pager then starts again from the first page). */
  lemma RefreshKeyRoundTrip<T>(page: Int32, data: seq<T>, anchor: int)
    ensures var b := BoundsOf(PageOf(page, data));
      RefreshKey(Some(anchor), _ => Some(b)) ==
        if page == StartingPageIndex && data == [] then None else Some(page)
  {
    IncDecInverse(page);
  }

  /** The page after `page` points back to it: its `prevKey` is `page`. */
  lemma NextPagePointsBack<T, U>(page: Int32, data: seq<T>, next: seq<U>)
    requires data != []
    ensures var k := PageOf(page, data).nextKey.value;
      PageOf(k, next).prevKey == if k == StartingPageIndex then None else Some(page)
  {
    IncDecInverse(page);
  }
}
