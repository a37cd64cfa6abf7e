/** What the feed displays: the server post with the overlay's non-null
    fields laid over it, and what repeated clicks on the displayed post do. */
module FeedScreen {
  import opened Common
  import opened FeedViewModel

  /** `postToShow`: the overlay entry for the post's id, if any, substituted
      field by field over the server post. */
  function Shown(post: Post, overlay: Overlay): (r: Post)
    // no entry: the server post itself
    ensures post.id !in overlay ==> r == post
    // an entry: each non-null field wins, each null one keeps the server value
    ensures post.id in overlay ==>
              r.hasLiked == Elvis(overlay[post.id].hasLiked, post.hasLiked) &&
              r.likedCount == overlay[post.id].likedCount.OrElse(post.likedCount) &&
              r.hasSaved == Elvis(overlay[post.id].hasSaved, post.hasSaved)
    // nothing else about the post changes
    ensures r.(hasLiked := post.hasLiked, likedCount := post.likedCount, hasSaved := post.hasSaved) == post
  {
    if post.id in overlay then
      var u := overlay[post.id];
      post.(hasLiked := Elvis(u.hasLiked, post.hasLiked),
            likedCount := u.likedCount.OrElse(post.likedCount),
            hasSaved := Elvis(u.hasSaved, post.hasSaved))
    else post
  }

  /** The overlay is consulted under the post's id only: entries for other
      ids do not change what a post looks like. */
  lemma ShownLooksUpOwnId(post: Post, m1: Overlay, m2: Overlay)
    requires (post.id in m1) == (post.id in m2)
    requires post.id in m1 ==> m1[post.id] == m2[post.id]
    ensures Shown(post, m1) == Shown(post, m2)
  {
  }

  // ---------------------------------------------------------------------------
  // Repeated clicks on the displayed post

  /** The overlay after the like button of `post` was clicked once per element
      of `outcomes`, each click toggling the post as then displayed (the screen
      passes `postToShow` to the toggle), each toggle completing before the
      next click. */
  function LikeClicks(m: Overlay, post: Post, outcomes: seq<Call<bool>>): (r: Overlay)
    // only the clicked post gains or changes an entry
    ensures r.Keys == if outcomes == [] then m.Keys else m.Keys + {post.id}
    ensures forall k :: k in m && k != post.id ==> r[k] == m[k]
    decreases |outcomes|
  {
    if outcomes == [] then m
    else
      var before := LikeClicks(m, post, outcomes[..|outcomes| - 1]);
      AfterLikeToggle(before, Shown(post, before), outcomes[|outcomes| - 1])
  }

  /** The same for the save button. */
  function SaveClicks(m: Overlay, post: Post, outcomes: seq<Call<bool>>): (r: Overlay)
    // only the clicked post gains or changes an entry
    ensures r.Keys == if outcomes == [] then m.Keys else m.Keys + {post.id}
    ensures forall k :: k in m && k != post.id ==> r[k] == m[k]
    decreases |outcomes|
  {
    if outcomes == [] then m
    else
      var before := SaveClicks(m, post, outcomes[..|outcomes| - 1]);
      AfterSaveToggle(before, Shown(post, before), outcomes[|outcomes| - 1])
  }

  /** How many of the requests did not throw. */
  function Completed(outcomes: seq<Call<bool>>): (n: nat)
    ensures n <= |outcomes|
    decreases |outcomes|
  {
    if outcomes == [] then 0
    else Completed(outcomes[..|outcomes| - 1]) + (if outcomes[|outcomes| - 1].Returned? then 1 else 0)
  }

  /** One like click, as seen on the display: a completed request flips the
      displayed like (null read as false) and moves the count, a thrown one
      shows the old values again; saving is untouched. */
  lemma LikeClickStep(before: Overlay, post: Post, outcome: Call<bool>)
    ensures var s := Shown(post, before);
      var s' := Shown(post, AfterLikeToggle(before, s, outcome));
      var liked := s.hasLiked.OrElse(false);
      && s'.hasLiked == Some(if outcome.Returned? then !liked else liked)
      && s'.likedCount == (if outcome.Returned? then ToggledCount(liked, s.likedCount) else s.likedCount)
      && s'.hasSaved == s.hasSaved
  {
    assert Shown(post, before).id == post.id;
  }

  /** Toggling the count twice gives it back. */
  lemma ToggledCountTwice(liked: bool, count: Int32)
    ensures ToggledCount(!liked, ToggledCount(liked, count)) == count
  {
    IncDecInverse(count);
  }

  /** `s` is what the display shows after `n` completed like requests,
      starting from `s0`: liked (null read as false) exactly when `s0` was
      XOR `n` is odd, the count moved by one exactly when `n` is odd, and
      the saved flag as it was. */
  predicate LikeShownAfter(s0: Post, s: Post, n: nat) {
    var liked0 := s0.hasLiked.OrElse(false);
    && s.hasLiked.OrElse(false) == (liked0 != (n % 2 == 1))
    && s.likedCount == (if n % 2 == 1 then ToggledCount(liked0, s0.likedCount) else s0.likedCount)
    && s.hasSaved == s0.hasSaved
  }

  /** One more click keeps `LikeShownAfter`, counting the click when its request completed. */
  lemma LikeParityStep(s0: Post, si: Post, s: Post, n: nat, outcome: Call<bool>)
    requires LikeShownAfter(s0, si, n)
    requires var liked := si.hasLiked.OrElse(false);
      && s.hasLiked == Some(if outcome.Returned? then !liked else liked)
      && s.likedCount == (if outcome.Returned? then ToggledCount(liked, si.likedCount) else si.likedCount)
      && s.hasSaved == si.hasSaved
    ensures LikeShownAfter(s0, s, n + (if outcome.Returned? then 1 else 0))
  {
    ToggledCountTwice(s0.hasLiked.OrElse(false), s0.likedCount);
  }

  /** Toggle parity: after any run of like clicks, the displayed post is
      liked (null read as false) exactly when it was liked before XOR an odd
      number of the requests completed; its count is the original one after an
      even number and moved by one after an odd number; a thrown request
      leaves the display as it was before that click. Saving is untouched. */
  lemma {:induction false} LikeParity(m: Overlay, post: Post, outcomes: seq<Call<bool>>)
    ensures LikeShownAfter(Shown(post, m), Shown(post, LikeClicks(m, post, outcomes)), Completed(outcomes))
  {
    if outcomes != [] {
      var init := outcomes[..|outcomes| - 1];
      var before := LikeClicks(m, post, init);
      LikeParity(m, post, init);
      LikeClickStep(before, post, outcomes[|outcomes| - 1]);
      LikeParityStep(Shown(post, m), Shown(post, before), Shown(post, LikeClicks(m, post, outcomes)),
                     Completed(init), outcomes[|outcomes| - 1]);
    }
  }

  /** The same for saving: the displayed `hasSaved` (null read as false)
      follows the parity of the completed requests, and the like fields stay. */
  lemma {:induction false} SaveParity(m: Overlay, post: Post, outcomes: seq<Call<bool>>)
    ensures var s0 := Shown(post, m);
      var s := Shown(post, SaveClicks(m, post, outcomes));
      && s.hasSaved.OrElse(false) == (s0.hasSaved.OrElse(false) != (Completed(outcomes) % 2 == 1))
      && s.hasLiked == s0.hasLiked
      && s.likedCount == s0.likedCount
  {
    if outcomes != [] {
      var init := outcomes[..|outcomes| - 1];
      SaveParity(m, post, init);
      var before := SaveClicks(m, post, init);
      assert Shown(post, before).id == post.id;
    }
  }

  /** Two like clicks whose requests both complete restore what was displayed
      (with an unknown `hasLiked` now shown as false). */
  lemma LikeTwiceRestores(m: Overlay, post: Post, r1: Response<bool>, r2: Response<bool>)
    ensures var s0 := Shown(post, m);
      var s := Shown(post, LikeClicks(m, post, [Returned(r1), Returned(r2)]));
      s.hasLiked == Some(s0.hasLiked.OrElse(false)) && s.likedCount == s0.likedCount
  {
    var outcomes: seq<Call<bool>> := [Returned(r1), Returned(r2)];
    var first: seq<Call<bool>> := [Returned(r1)];
    assert outcomes[..1] == first;
    assert first[..0] == [];
    assert LikeClicks(m, post, first[..0]) == m;
    var m1 := LikeClicks(m, post, first);
    assert m1 == AfterLikeToggle(m, Shown(post, m), Returned(r1));
    assert LikeClicks(m, post, outcomes) == AfterLikeToggle(m1, Shown(post, m1), Returned(r2));
    LikeClickStep(m, post, Returned(r1));
    LikeClickStep(m1, post, Returned(r2));
    ToggledCountTwice(Shown(post, m).hasLiked.OrElse(false), Shown(post, m).likedCount);
  }
}
