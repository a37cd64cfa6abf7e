/** The feed's optimistic like/save overlay: a sparse map from post id to the
    values the user's last gesture set, written before the server is asked and
    written back if the request throws. */
module FeedViewModel {
  import opened Common
  import opened Api

  /** `PostUpdateState`: the overlay entry of one post; `None` means "not
      overridden". */
  datatype PostUpdateState = PostUpdateState(hasLiked: Option<bool>, likedCount: Option<Int32>, hasSaved: Option<bool>)

  /** `PostUpdateState()`: the all-null entry a missing key starts from. */
  const NoUpdate: PostUpdateState := PostUpdateState(None, None, None)

  type Overlay = map<string, PostUpdateState>

  /** The entry under `postId`, or the all-null one. */
  function EntryOf(m: Overlay, postId: string): (u: PostUpdateState)
    ensures postId !in m ==> u == NoUpdate
    ensures postId in m ==> u == m[postId]
  {
    if postId in m then m[postId] else NoUpdate
  }

  /** The overlay after `updateLocalState(postId, isLiked, likeCount, isSaved)`.
      Only the entry under `postId` changes, the key set only grows, and in that
      entry each null argument keeps the previous field. */
  function Updated(m: Overlay, postId: string, isLiked: Option<bool>, likeCount: Option<Int32>, isSaved: Option<bool>): (r: Overlay)
    ensures r.Keys == m.Keys + {postId}
    ensures forall k :: k in m && k != postId ==> r[k] == m[k]
    ensures isLiked.Some? ==> r[postId].hasLiked == isLiked
    ensures isLiked.None? ==> r[postId].hasLiked == EntryOf(m, postId).hasLiked
    ensures likeCount.Some? ==> r[postId].likedCount == likeCount
    ensures likeCount.None? ==> r[postId].likedCount == EntryOf(m, postId).likedCount
    ensures isSaved.Some? ==> r[postId].hasSaved == isSaved
    ensures isSaved.None? ==> r[postId].hasSaved == EntryOf(m, postId).hasSaved
  {
    var current := EntryOf(m, postId);
    m[postId := PostUpdateState(Elvis(isLiked, current.hasLiked),
                                Elvis(likeCount, current.likedCount),
                                Elvis(isSaved, current.hasSaved))]
  }

  /** The like count after a like toggle on a post that was (`liked`) or was not liked. */
  function ToggledCount(liked: bool, count: Int32): (r: Int32)
    // the count moves, and the opposite toggle moves it back
    ensures r != count
    ensures liked ==> Inc32(r) == count
    ensures !liked ==> Dec32(r) == count
  {
    IncDecInverse(count);
    if liked then Dec32(count) else Inc32(count)
  }

  /** The overlay once `toggleLikeStatus(post)` has run, given what the
      request did. The optimistic write flips `hasLiked` (null read as false)
      and moves the count by one; only a thrown exception writes the old values
      back, a non-2xx reply does not. `hasSaved` and every other post's entry
      are left alone. */
  function AfterLikeToggle(m: Overlay, post: Post, outcome: Call<bool>): (r: Overlay)
    ensures r.Keys == m.Keys + {post.id}
    ensures forall k :: k in m && k != post.id ==> r[k] == m[k]
    ensures r[post.id].hasSaved == EntryOf(m, post.id).hasSaved
    ensures outcome.Returned? ==>
              r[post.id].hasLiked == Some(!post.hasLiked.OrElse(false)) &&
              r[post.id].likedCount == Some(ToggledCount(post.hasLiked.OrElse(false), post.likedCount))
    ensures outcome.Threw? ==>
              r[post.id].hasLiked == Some(post.hasLiked.OrElse(false)) &&
              r[post.id].likedCount == Some(post.likedCount)
  {
    var isCurrentlyLiked := post.hasLiked.OrElse(false);
    var optimistic := Updated(m, post.id, Some(!isCurrentlyLiked),
                              Some(ToggledCount(isCurrentlyLiked, post.likedCount)), None);
    if outcome.Threw? then Updated(optimistic, post.id, Some(isCurrentlyLiked), Some(post.likedCount), None)
    else optimistic
  }

  /** The overlay once `toggleSaveStatus(post)` has run: `hasSaved` flipped
      (null read as false), or back to its old value if the request threw;
      the entry's like fields and every other entry are left alone. */
  function AfterSaveToggle(m: Overlay, post: Post, outcome: Call<bool>): (r: Overlay)
    ensures r.Keys == m.Keys + {post.id}
    ensures forall k :: k in m && k != post.id ==> r[k] == m[k]
    ensures r[post.id].hasLiked == EntryOf(m, post.id).hasLiked
    ensures r[post.id].likedCount == EntryOf(m, post.id).likedCount
    ensures outcome.Returned? ==> r[post.id].hasSaved == Some(!post.hasSaved.OrElse(false))
    ensures outcome.Threw? ==> r[post.id].hasSaved == Some(post.hasSaved.OrElse(false))
  {
    var isCurrentlySaved := post.hasSaved.OrElse(false);
    var optimistic := Updated(m, post.id, None, None, Some(!isCurrentlySaved));
    if outcome.Threw? then Updated(optimistic, post.id, None, None, Some(isCurrentlySaved))
    else optimistic
  }

  /** `FeedViewModel`: the overlay (`_updatedPostsState`) and the log of the
      requests it has sent. */
  class FeedViewModel {
    var updatedPostsState: Overlay
    var requests: seq<Request>

    constructor ()
      ensures updatedPostsState == map[] && requests == []
    {
      updatedPostsState := map[];
      requests := [];
    }

    /** `updateLocalState`: copies the map, overwrites one entry, stores the copy. */
    method UpdateLocalState(postId: string, isLiked: Option<bool>, likeCount: Option<Int32>, isSaved: Option<bool>)
      modifies this`updatedPostsState
      ensures updatedPostsState == Updated(old(updatedPostsState), postId, isLiked, likeCount, isSaved)
    {
      var currentUpdates := updatedPostsState;
      var currentState := if postId in currentUpdates then currentUpdates[postId] else NoUpdate;
      currentUpdates := currentUpdates[postId := currentState.(
        hasLiked := Elvis(isLiked, currentState.hasLiked),
        likedCount := Elvis(likeCount, currentState.likedCount),
        hasSaved := Elvis(isSaved, currentState.hasSaved))];
      updatedPostsState := currentUpdates;
    }

    /** `toggleLikeStatus(post)`, with `outcome` standing for what the like or
        unlike request did. */
    method ToggleLikeStatus(post: Post, outcome: Call<bool>)
      modifies this
      ensures updatedPostsState == AfterLikeToggle(old(updatedPostsState), post, outcome)
      ensures requests == old(requests) + [LikeRequest(post)]
    {
      var isCurrentlyLiked := post.hasLiked.OrElse(false);
      UpdateLocalState(post.id, Some(!isCurrentlyLiked),
                       Some(if isCurrentlyLiked then Dec32(post.likedCount) else Inc32(post.likedCount)), None);
      if isCurrentlyLiked {
        requests := requests + [UnlikePost(post.id)];
      } else {
        requests := requests + [LikePost(post.id)];
      }
      if outcome.Threw? {
        UpdateLocalState(post.id, Some(isCurrentlyLiked), Some(post.likedCount), None);
      }
    }

    /** `toggleSaveStatus(post)`, with `outcome` standing for what the save or
        unsave request did. */
    method ToggleSaveStatus(post: Post, outcome: Call<bool>)
      modifies this
      ensures updatedPostsState == AfterSaveToggle(old(updatedPostsState), post, outcome)
      ensures requests == old(requests) + [SaveRequest(post)]
    {
      var isCurrentlySaved := post.hasSaved.OrElse(false);
      UpdateLocalState(post.id, None, None, Some(!isCurrentlySaved));
      if isCurrentlySaved {
        requests := requests + [UnsavePost(post.id)];
      } else {
        requests := requests + [SavePost(post.id)];
      }
      if outcome.Threw? {
        UpdateLocalState(post.id, None, None, Some(isCurrentlySaved));
      }
    }
  }
}
