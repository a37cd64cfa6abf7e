/** `FollowPagingSource.load`: one page of a user's followers or followings. */
module FollowPagingSource {
  import opened Common
  import opened PageKeys

  datatype FollowType = Followers | Followings

  datatype FollowerInfo = FollowerInfo(
    id: string,
    username: string,
    firstName: string,
    lastName: string,
    avatar: Option<string>,
    followedAt: string,
    hasFollowedBack: bool
  )

  /** The two list endpoints. */
  datatype FollowQuery =
    | GetFollowers(userId: string, page: Int32, limit: Int32)
    | GetFollowings(userId: string, page: Int32, limit: Int32)

  /** The request for a type and a key: the list named by the type, with the
      same user, page and page size either way. */
  function QueryFor(userId: string, followType: FollowType, key: Option<Int32>, loadSize: Int32): (q: FollowQuery)
    ensures q.GetFollowers? <==> followType == Followers
    ensures q.userId == userId && q.limit == loadSize
    ensures q.page == (if key.None? then 1 else key.value)
  {
    var page := PageFor(key);
    match followType
    case Followers => GetFollowers(userId, page, loadSize)
    case Followings => GetFollowings(userId, page, loadSize)
  }

  /** `load(params)`: every exception becomes an error result; otherwise the
      body's list (empty when there is no body) becomes the page. */
  function Load(userId: string, followType: FollowType, key: Option<Int32>, loadSize: Int32,
                api: FollowQuery -> Call<seq<FollowerInfo>>): (r: LoadResult<FollowerInfo>)
    ensures var q := QueryFor(userId, followType, key, loadSize);
      match api(q)
      case Threw(e) => r == Error(e)
      case Returned(resp) =>
        && r.Page?
        && r.data == resp.body.OrElse([])
        && (r.prevKey.None? <==> q.page == 1)
        && (r.prevKey.Some? ==> r.prevKey.value == Dec32(q.page))
        && (r.nextKey.None? <==> r.data == [])
        && (r.nextKey.Some? ==> r.nextKey.value == Inc32(q.page))
  {
    var q := QueryFor(userId, followType, key, loadSize);
    match api(q)
    case Threw(e) => Error(e)
    case Returned(resp) => PageOf(q.page, resp.body.OrElse([]))
  }

  /** The refresh key of a page this source loaded is that page's own number,
      unless it was an empty first page. */
  lemma LoadThenRefresh(userId: string, followType: FollowType, key: Option<Int32>, loadSize: Int32,
                        api: FollowQuery -> Call<seq<FollowerInfo>>, anchor: int)
    requires Load(userId, followType, key, loadSize, api).Page?
    ensures var p := Load(userId, followType, key, loadSize, api);
      RefreshKey(Some(anchor), _ => Some(BoundsOf(p))) ==
        if PageFor(key) == 1 && p.data == [] then None else Some(PageFor(key))
  {
    var p := Load(userId, followType, key, loadSize, api);
    RefreshKeyRoundTrip(PageFor(key), p.data, anchor);
  }
}
