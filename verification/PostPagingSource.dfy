/** `PostPagingSource.load`: one page of the post feed, optionally narrowed by
    a search string and a topic. */
module PostPagingSource {
  import opened Common
  import opened PageKeys

  /** The `getPosts` request the source issues. */
  datatype PostsQuery = PostsQuery(page: Int32, limit: Int32, searchQuery: Option<string>, topicId: Option<string>)

  /** A null or blank search string is sent as null. */
  function NormalizedQuery(searchQuery: Option<string>): (r: Option<string>)
    ensures r.Some? <==> searchQuery.Some? && !IsBlank(searchQuery.value)
    ensures r.Some? ==> r == searchQuery
  {
    if searchQuery.Some? && !IsBlank(searchQuery.value) then searchQuery else None
  }

  /** What `load` does with a key. */
  datatype LoadOutcome =
    | Loaded(result: LoadResult<Post>)
    /** An exception that is neither an I/O nor an HTTP exception leaves `load`. */
    | Rethrown(failure: Failure)

  /** `load(params)`: asks `api` for the page named by the key and turns the
      reply into a page. The body's `data` list is read without looking at the
      status, so a reply without a body, a non-2xx reply included, reads as an
      empty page, that is, as the end of the list. */
  function Load(key: Option<Int32>, loadSize: Int32, searchQuery: Option<string>, topicId: Option<string>,
                api: PostsQuery -> Call<seq<Post>>): (r: LoadOutcome)
    ensures var q := api(PostsQuery(PageFor(key), loadSize, NormalizedQuery(searchQuery), topicId));
      match q
      case Returned(resp) =>
        // a null key loads page 1
        var page := if key.None? then 1 else key.value;
        && r.Loaded? && r.result.Page?
        && r.result.data == resp.body.OrElse([])
        // no previous key exactly on the first page
        && (r.result.prevKey.None? <==> page == 1)
        && (r.result.prevKey.Some? ==> r.result.prevKey.value == Dec32(page))
        // no next key exactly when the page is empty, a missing body included
        && (r.result.nextKey.None? <==> r.result.data == [])
        && (r.result.nextKey.Some? ==> r.result.nextKey.value == Inc32(page))
      case Threw(e) =>
        if e.kind == IOException || e.kind == HttpException then r == Loaded(Error(e)) else r == Rethrown(e)
  {
    var page := PageFor(key);
    match api(PostsQuery(page, loadSize, NormalizedQuery(searchQuery), topicId))
    case Returned(resp) => Loaded(PageOf(page, resp.body.OrElse([])))
    case Threw(e) =>
      if e.kind == IOException || e.kind == HttpException then Loaded(Error(e)) else Rethrown(e)
  }

  /** The refresh key of a page this source loaded is that page's own number,
      unless it was an empty first page. */
  lemma LoadThenRefresh(key: Option<Int32>, loadSize: Int32, searchQuery: Option<string>, topicId: Option<string>,
                        api: PostsQuery -> Call<seq<Post>>, anchor: int)
    requires Load(key, loadSize, searchQuery, topicId, api).Loaded?
    requires Load(key, loadSize, searchQuery, topicId, api).result.Page?
    ensures var p := Load(key, loadSize, searchQuery, topicId, api).result;
      RefreshKey(Some(anchor), _ => Some(PageBounds(p.prevKey, p.nextKey))) ==
        if PageFor(key) == 1 && p.data == [] then None else Some(PageFor(key))
  {
    var p := Load(key, loadSize, searchQuery, topicId, api).result;
    RefreshKeyRoundTrip(PageFor(key), p.data, anchor);
  }
}
