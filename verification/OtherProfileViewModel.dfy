/** Another user's profile screen: the profile, whether the signed-in user
    follows them, and their posts, loaded together; and the follow toggle. */
module OtherProfileViewModel {
  import opened Common
  import opened Api

  datatype UiState = Loading | Success(user: User, posts: seq<Post>, isFollowing: bool) | Error(message: string)

  const FailedToLoadProfile: string := "Failed to load profile"
  const DefaultError: string := "Error"
  /** The posts request asks for the first 50 posts of the whole feed. */
  const PostsPage: int := 1
  const PostsLimit: int := 50

  /** The posts written by `userId`, in their original order. */
  function AuthoredBy(posts: seq<Post>, userId: string): (r: seq<Post>)
    ensures |r| <= |posts|
    ensures forall p :: p in r ==> p in posts && p.author.id == userId
    ensures forall p :: p in posts && p.author.id == userId ==> p in r
  {
    if posts == [] then []
    else
      var rest := AuthoredBy(posts[1..], userId);
      assert forall p :: p in posts && p != posts[0] ==> p in posts[1..];
      if posts[0].author.id == userId then [posts[0]] + rest else rest
  }

  /** Filtering distributes over concatenation, so the kept posts keep their relative order. */
  lemma {:induction false} AuthoredByAppend(a: seq<Post>, b: seq<Post>, userId: string)
    ensures AuthoredBy(a + b, userId) == AuthoredBy(a, userId) + AuthoredBy(b, userId)
  {
    if a != [] {
      assert (a + b)[0] == a[0];
      assert (a + b)[1..] == a[1..] + b;
      AuthoredByAppend(a[1..], b, userId);
    } else {
      assert a + b == b;
    }
  }

  /** Each of the three replies is consulted only if the calls before it returned. */
  predicate AllReturned(profileCall: Call<User>, followCall: Call<bool>, postsCall: Call<seq<Post>>) {
    profileCall.Returned? && followCall.Returned? && postsCall.Returned?
  }

  predicate AllSuccessful(profileCall: Call<User>, followCall: Call<bool>, postsCall: Call<seq<Post>>) {
    AllReturned(profileCall, followCall, postsCall)
    && profileCall.response.IsSuccessful() && followCall.response.IsSuccessful() && postsCall.response.IsSuccessful()
  }

  /** The exception that ended the load, if one did: the first call that
      threw, or a missing body on a successful reply (which throws with no message). */
  function Thrown(profileCall: Call<User>, followCall: Call<bool>, postsCall: Call<seq<Post>>): (r: Option<Failure>)
    // nothing is thrown exactly when every call returned and no successful load lacks a body
    ensures r.None? <==>
      (AllReturned(profileCall, followCall, postsCall)
       && (AllSuccessful(profileCall, followCall, postsCall) ==>
             profileCall.response.body.Some? && followCall.response.body.Some? && postsCall.response.body.Some?))
    // the calls run in order, so the first one that threw is the one reported
    ensures profileCall.Threw? ==> r == Some(profileCall.failure)
    ensures profileCall.Returned? && followCall.Threw? ==> r == Some(followCall.failure)
    ensures profileCall.Returned? && followCall.Returned? && postsCall.Threw? ==> r == Some(postsCall.failure)
    // once every call returned, only the `!!` on a missing body throws, without a message
    ensures AllReturned(profileCall, followCall, postsCall) && r.Some? ==> r.value == Failure(OtherException, None)
  {
    if profileCall.Threw? then Some(profileCall.failure)
    else if followCall.Threw? then Some(followCall.failure)
    else if postsCall.Threw? then Some(postsCall.failure)
    else if AllSuccessful(profileCall, followCall, postsCall)
         && (profileCall.response.body.None? || followCall.response.body.None? || postsCall.response.body.None?)
    then Some(Failure(OtherException, None))
    else None
  }

  /** The state `loadProfileData` settles in. */
  function LoadedState(userId: string, profileCall: Call<User>, followCall: Call<bool>, postsCall: Call<seq<Post>>): (s: UiState)
    ensures s != Loading
    ensures s.Success? <==>
      (AllSuccessful(profileCall, followCall, postsCall)
       && profileCall.response.body.Some? && followCall.response.body.Some? && postsCall.response.body.Some?)
    ensures s.Success? ==>
      s.user == profileCall.response.body.value && s.isFollowing == followCall.response.body.value
      && s.posts == AuthoredBy(postsCall.response.body.value, userId)
    ensures AllReturned(profileCall, followCall, postsCall) && !AllSuccessful(profileCall, followCall, postsCall) ==>
      s == Error(FailedToLoadProfile)
    ensures Thrown(profileCall, followCall, postsCall).Some? ==>
      s == Error(Thrown(profileCall, followCall, postsCall).value.message.OrElse(DefaultError))
  {
    var thrown := Thrown(profileCall, followCall, postsCall);
    if thrown.Some? then Error(thrown.value.message.OrElse(DefaultError))
    else if AllSuccessful(profileCall, followCall, postsCall) then
      Success(profileCall.response.body.value, AuthoredBy(postsCall.response.body.value, userId), followCall.response.body.value)
    else Error(FailedToLoadProfile)
  }

  /** The requests the load sends: it stops at the first call that throws. */
  function LoadRequests(userId: string, profileCall: Call<User>, followCall: Call<bool>): (qs: seq<Request>)
    ensures 1 <= |qs| <= 3 && qs[0] == GetProfile(userId)
    ensures |qs| >= 2 <==> profileCall.Returned?
    ensures |qs| >= 2 ==> qs[1] == HasFollowed(userId)
    ensures |qs| == 3 <==> profileCall.Returned? && followCall.Returned?
    ensures |qs| == 3 ==> qs[2] == GetPosts(PostsPage, PostsLimit)
  {
    if profileCall.Threw? then [GetProfile(userId)]
    else if followCall.Threw? then [GetProfile(userId), HasFollowed(userId)]
    else [GetProfile(userId), HasFollowed(userId), GetPosts(PostsPage, PostsLimit)]
  }

  /** The request the follow toggle sends. */
  function FollowRequest(userId: string, isFollowing: bool): (q: Request)
    ensures q.UnfollowUser? <==> isFollowing
    ensures q.FollowUser? <==> !isFollowing
    ensures q.userId == userId
  {
    if isFollowing then UnfollowUser(userId) else FollowUser(userId)
  }

  /** Two confirmed follow toggles send a follow and an unfollow, in some order, and restore the state. */
  lemma FollowTwiceRestores(userId: string, s: UiState)
    requires s.Success?
    ensures var s' := s.(isFollowing := !s.isFollowing);
      s'.(isFollowing := !s'.isFollowing) == s
      && {FollowRequest(userId, s.isFollowing), FollowRequest(userId, s'.isFollowing)} == {FollowUser(userId), UnfollowUser(userId)}
  {
  }

  class OtherProfileViewModel {
    const userId: string
    /** The current value of the screen's state flow. */
    var uiState: UiState
    /** Every value written to the state flow, oldest first. */
    var emitted: seq<UiState>
    /** Every request sent, oldest first. */
    var requests: seq<Request>

    predicate Valid()
      reads this
    {
      emitted != [] && emitted[|emitted| - 1] == uiState
    }

    /** The `init` block loads the profile. */
    constructor(userId: string, profileCall: Call<User>, followCall: Call<bool>, postsCall: Call<seq<Post>>)
      ensures Valid() && this.userId == userId
      ensures uiState == LoadedState(userId, profileCall, followCall, postsCall)
      ensures emitted == [Loading, Loading, uiState]
      ensures requests == LoadRequests(userId, profileCall, followCall)
    {
      this.userId := userId;
      uiState := Loading;
      emitted := [Loading];
      requests := [];
      new;
      LoadProfileData(profileCall, followCall, postsCall);
    }

    method Emit(s: UiState)
      modifies this`uiState, this`emitted
      ensures uiState == s && emitted == old(emitted) + [s]
    {
      uiState := s;
      emitted := emitted + [s];
    }

    /** `loadProfileData`: Loading first, then the three calls in sequence. */
    method LoadProfileData(profileCall: Call<User>, followCall: Call<bool>, postsCall: Call<seq<Post>>)
      modifies this`uiState, this`emitted, this`requests
      ensures uiState == LoadedState(userId, profileCall, followCall, postsCall)
      ensures emitted == old(emitted) + [Loading, uiState]
      ensures requests == old(requests) + LoadRequests(userId, profileCall, followCall)
    {
      Emit(Loading);
      requests := requests + [GetProfile(userId)];
      if profileCall.Threw? {
        Emit(Error(profileCall.failure.message.OrElse(DefaultError)));
        return;
      }
      requests := requests + [HasFollowed(userId)];
      if followCall.Threw? {
        Emit(Error(followCall.failure.message.OrElse(DefaultError)));
        return;
      }
      requests := requests + [GetPosts(PostsPage, PostsLimit)];
      if postsCall.Threw? {
        Emit(Error(postsCall.failure.message.OrElse(DefaultError)));
        return;
      }
      var profileRes, followRes, postsRes := profileCall.response, followCall.response, postsCall.response;
      if profileRes.IsSuccessful() && followRes.IsSuccessful() && postsRes.IsSuccessful() {
        if profileRes.body.None? || followRes.body.None? || postsRes.body.None? {
          // `body()!!` throws an exception with no message
          Emit(Error(DefaultError));
        } else {
          var user := profileRes.body.value;
          var isFollowing := followRes.body.value;
          var userPosts := AuthoredBy(postsRes.body.value, userId);
          Emit(Success(user, userPosts, isFollowing));
        }
      } else {
        Emit(Error(FailedToLoadProfile));
      }
    }

    /** `toggleFollow`: only on a loaded profile; only a confirmed reply flips the flag. */
    method ToggleFollow(reply: Response<bool>)
      modifies this`uiState, this`emitted, this`requests
      ensures !old(uiState).Success? ==> uiState == old(uiState) && emitted == old(emitted) && requests == old(requests)
      ensures old(uiState).Success? ==> requests == old(requests) + [FollowRequest(userId, old(uiState).isFollowing)]
      ensures old(uiState).Success? && reply.IsSuccessful() ==>
        uiState == old(uiState).(isFollowing := !old(uiState).isFollowing) && emitted == old(emitted) + [uiState]
      ensures old(uiState).Success? && !reply.IsSuccessful() ==> uiState == old(uiState) && emitted == old(emitted)
    {
      var currentState := uiState;
      if currentState.Success? {
        requests := requests + [if currentState.isFollowing then UnfollowUser(userId) else FollowUser(userId)];
        if reply.IsSuccessful() {
          Emit(currentState.(isFollowing := !currentState.isFollowing));
        }
      }
    }
  }
}
