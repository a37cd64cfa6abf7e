/** The post-details screen's view-model: loads one post and its first page
    of comments, and toggles like and save on the loaded post once the
    server confirms. */
module PostDetailsViewModel {
  import opened Common
  import opened Api
  import FeedViewModel
  import FeedScreen

  datatype UiState = Loading | Success(post: Post, comments: seq<Comment>) | Error(message: string)

  const PostIdMissing: string := "Post ID is missing."
  const FailedToLoadPost: string := "Failed to load post."
  const UnexpectedError: string := "An unexpected error"
  /** The comments request asks for page 1 with 50 comments. */
  const CommentsPage: int := 1
  const CommentsLimit: int := 50

  /** Whether the post reply carries a post to show. */
  predicate PostArrived(postCall: Call<Post>) {
    postCall.Returned? && postCall.response.IsSuccessful() && postCall.response.body.Some?
  }

  /** The state `loadPostDetails` settles in, given what the post request and
      (only consulted once the post arrived) the comments request produce. */
  function LoadedState(postCall: Call<Post>, commentsCall: Call<seq<Comment>>): (s: UiState)
    ensures s != Loading
    ensures s.Success? <==> PostArrived(postCall) && commentsCall.Returned?
    ensures s.Success? ==> s.post == postCall.response.body.value
    // a comments reply that fails or has no body still shows the post, with no comments
    ensures PostArrived(postCall) && commentsCall.Returned? ==>
      s.comments == (if commentsCall.response.IsSuccessful() then commentsCall.response.body.OrElse([]) else [])
    ensures postCall.Returned? && !PostArrived(postCall) ==> s == Error(FailedToLoadPost)
    ensures postCall.Threw? ==> s == Error(postCall.failure.message.OrElse(UnexpectedError))
    ensures PostArrived(postCall) && commentsCall.Threw? ==>
      s == Error(commentsCall.failure.message.OrElse(UnexpectedError))
  {
    match postCall
    case Threw(e) => Error(e.message.OrElse(UnexpectedError))
    case Returned(postResponse) =>
      if postResponse.IsSuccessful() && postResponse.body.Some? then
        match commentsCall
        case Threw(e) => Error(e.message.OrElse(UnexpectedError))
        case Returned(commentsResponse) =>
          var comments := if commentsResponse.IsSuccessful() then commentsResponse.body.OrElse([]) else [];
          Success(postResponse.body.value, comments)
      else
        Error(FailedToLoadPost)
  }

  /** The requests `loadPostDetails` sends: the post, then its comments only if the post arrived. */
  function LoadRequests(postId: string, postCall: Call<Post>): (qs: seq<Request>)
    ensures 1 <= |qs| <= 2 && qs[0] == GetPostById(postId)
    ensures |qs| == 2 <==> PostArrived(postCall)
    ensures |qs| == 2 ==> qs[1] == GetComments(postId, CommentsPage, CommentsLimit)
  {
    [GetPostById(postId)] + if PostArrived(postCall) then [GetComments(postId, CommentsPage, CommentsLimit)] else []
  }

  /** The post once a like/unlike has been confirmed. */
  function ToggledLike(post: Post): (r: Post)
    ensures r.hasLiked == Some(!post.hasLiked.OrElse(false))
    ensures post.hasLiked != Some(true) ==> r.likedCount == Inc32(post.likedCount)
    ensures post.hasLiked == Some(true) ==> r.likedCount == Dec32(post.likedCount)
    ensures r.(hasLiked := post.hasLiked, likedCount := post.likedCount) == post
  {
    post.(hasLiked := Some(!post.hasLiked.OrElse(false)),
          likedCount := if post.hasLiked != Some(true) then Inc32(post.likedCount) else Dec32(post.likedCount))
  }

  /** The post once a save/unsave has been confirmed; the like counter is untouched. */
  function ToggledSave(post: Post): (r: Post)
    ensures r.hasSaved == Some(!post.hasSaved.OrElse(false))
    ensures r.likedCount == post.likedCount
    ensures r.(hasSaved := post.hasSaved) == post
  {
    post.(hasSaved := Some(!post.hasSaved.OrElse(false)))
  }

  /** Two confirmed like toggles restore the post, except that an unknown
      like flag has become a definite one. */
  lemma LikeTwiceRestores(post: Post)
    ensures ToggledLike(ToggledLike(post)) == post.(hasLiked := Some(post.hasLiked.OrElse(false)))
  {
    IncDecInverse(post.likedCount);
  }

  /** Two confirmed save toggles restore the post up to an unknown flag becoming false. */
  lemma SaveTwiceRestores(post: Post)
    ensures ToggledSave(ToggledSave(post)) == post.(hasSaved := Some(post.hasSaved.OrElse(false)))
  {
  }

  /** A confirmed like shows the same post here as on the feed: whatever
      the feed had already toggled locally, toggling the post it displays
      gives the post this screen shows after `ToggledLike`. */
  lemma LikeAgreesWithFeed(m: FeedViewModel.Overlay, post: Post, reply: Response<bool>)
    ensures var shown := FeedScreen.Shown(post, m);
      FeedScreen.Shown(post, FeedViewModel.AfterLikeToggle(m, shown, Returned(reply))) == ToggledLike(shown)
  {
  }

  /** A confirmed save shows the same post here as on the feed, whatever
      the feed had already toggled locally. */
  lemma SaveAgreesWithFeed(m: FeedViewModel.Overlay, post: Post, reply: Response<bool>)
    ensures var shown := FeedScreen.Shown(post, m);
      FeedScreen.Shown(post, FeedViewModel.AfterSaveToggle(m, shown, Returned(reply))) == ToggledSave(shown)
  {
  }

  class PostDetailsViewModel {
    const postId: string
    /** The current value of the screen's state flow. */
    var uiState: UiState
    /** Every value the state flow has held, oldest first. */
    var emitted: seq<UiState>
    /** Every request sent, oldest first. */
    var requests: seq<Request>

    predicate Valid()
      reads this
    {
      emitted != [] && emitted[|emitted| - 1] == uiState
    }

    /** The `init` block: a blank post id is an error and nothing is loaded. */
    constructor(postId: string, postCall: Call<Post>, commentsCall: Call<seq<Comment>>)
      ensures Valid() && this.postId == postId
      ensures IsBlank(postId) ==>
        uiState == Error(PostIdMissing) && requests == [] && emitted == [Loading, Error(PostIdMissing)]
      ensures !IsBlank(postId) ==>
        uiState == LoadedState(postCall, commentsCall) && requests == LoadRequests(postId, postCall)
        && emitted == [Loading, Loading, LoadedState(postCall, commentsCall)]
    {
      this.postId := postId;
      uiState := Loading;
      emitted := [Loading];
      requests := [];
      new;
      if !IsBlank(postId) {
        LoadPostDetails(postCall, commentsCall);
      } else {
        Emit(Error(PostIdMissing));
      }
    }

    method Emit(s: UiState)
      modifies this`uiState, this`emitted
      ensures uiState == s && emitted == old(emitted) + [s]
    {
      uiState := s;
      emitted := emitted + [s];
    }

    /** `loadPostDetails`: Loading first, then the loaded state. */
    method LoadPostDetails(postCall: Call<Post>, commentsCall: Call<seq<Comment>>)
      modifies this`uiState, this`emitted, this`requests
      ensures uiState == LoadedState(postCall, commentsCall)
      ensures emitted == old(emitted) + [Loading, uiState]
      ensures requests == old(requests) + LoadRequests(postId, postCall)
    {
      Emit(Loading);
      requests := requests + [GetPostById(postId)];
      match postCall {
        case Threw(e) =>
          Emit(Error(e.message.OrElse(UnexpectedError)));
        case Returned(postResponse) =>
          if postResponse.IsSuccessful() && postResponse.body.Some? {
            var post := postResponse.body.value;
            requests := requests + [GetComments(postId, CommentsPage, CommentsLimit)];
            match commentsCall {
              case Threw(e) =>
                Emit(Error(e.message.OrElse(UnexpectedError)));
              case Returned(commentsResponse) =>
                var comments := [];
                if commentsResponse.IsSuccessful() {
                  comments := commentsResponse.body.OrElse([]);
                }
                Emit(Success(post, comments));
            }
          } else {
            Emit(Error(FailedToLoadPost));
          }
      }
    }

    /** `toggleLike`: acts only on a loaded post, and changes it only once the server confirms. */
    method ToggleLike(reply: Response<bool>)
      modifies this`uiState, this`emitted, this`requests
      ensures !old(uiState).Success? ==> uiState == old(uiState) && emitted == old(emitted) && requests == old(requests)
      ensures old(uiState).Success? ==> requests == old(requests) + [LikeRequest(old(uiState).post)]
      ensures old(uiState).Success? && reply.IsSuccessful() ==>
        uiState == Success(ToggledLike(old(uiState).post), old(uiState).comments) && emitted == old(emitted) + [uiState]
      ensures old(uiState).Success? && !reply.IsSuccessful() ==> uiState == old(uiState) && emitted == old(emitted)
    {
      var currentState := uiState;
      if currentState.Success? {
        var post := currentState.post;
        requests := requests + [LikeRequest(post)];
        if reply.IsSuccessful() {
          var updatedPost := post.(hasLiked := Some(!post.hasLiked.OrElse(false)),
                                   likedCount := if post.hasLiked != Some(true) then Inc32(post.likedCount) else Dec32(post.likedCount));
          Emit(currentState.(post := updatedPost));
        }
      }
    }

    /** `toggleSave`: as `toggleLike`, on the saved flag. */
    method ToggleSave(reply: Response<bool>)
      modifies this`uiState, this`emitted, this`requests
      ensures !old(uiState).Success? ==> uiState == old(uiState) && emitted == old(emitted) && requests == old(requests)
      ensures old(uiState).Success? ==> requests == old(requests) + [SaveRequest(old(uiState).post)]
      ensures old(uiState).Success? && reply.IsSuccessful() ==>
        uiState == Success(ToggledSave(old(uiState).post), old(uiState).comments) && emitted == old(emitted) + [uiState]
      ensures old(uiState).Success? && !reply.IsSuccessful() ==> uiState == old(uiState) && emitted == old(emitted)
    {
      var currentState := uiState;
      if currentState.Success? {
        var post := currentState.post;
        requests := requests + [SaveRequest(post)];
        if reply.IsSuccessful() {
          var updatedPost := post.(hasSaved := Some(!post.hasSaved.OrElse(false)));
          Emit(currentState.(post := updatedPost));
        }
      }
    }

    /** `setInitialPost`: only while still Loading, shows the given post with
        no comments and then reloads. */
    method SetInitialPost(post: Post, postCall: Call<Post>, commentsCall: Call<seq<Comment>>)
      modifies this`uiState, this`emitted, this`requests
      ensures old(uiState) != Loading ==> uiState == old(uiState) && emitted == old(emitted) && requests == old(requests)
      ensures old(uiState) == Loading ==>
        uiState == LoadedState(postCall, commentsCall)
        && emitted == old(emitted) + [Success(post, []), Loading, LoadedState(postCall, commentsCall)]
        && requests == old(requests) + LoadRequests(postId, postCall)
    {
      if uiState == Loading {
        Emit(Success(post, []));
        LoadPostDetails(postCall, commentsCall);
      }
    }
  }
}
