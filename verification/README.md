# Baso Spark client core, in Dafny

This project models the logic at the heart of the Baso Spark Android client, a
social-network app. It covers:

- the feed's optimistic like/save overlay and how the feed shows it;
- the post-details, edit-profile, chat-room, other-profile, create-post and
  registration view-models;
- the two paging sources' page keys;
- the repository's `safeApiCall` classifier;
- the navigation route builders.

Each view-model is a class. Every one keeps a `requests` log: every request
sent, in order. It is what lets a contract say "nothing is sent".

- A view-model with a screen state flow holds it in a field, `uiState`, and
  logs every value written to it in `emitted`, in order. That is what lets a
  contract say "Loading first".
- The feed's view-model has no screen state flow. It holds the optimistic
  overlay, `updatedPostsState`, a map from post id to the fields toggled
  locally.

Each `viewModelScope.launch` block is one method that runs to completion.
Network replies are inputs to that method. A reply is a `Call`: either
`Returned(Response(code, message, body))` or `Threw(Failure(kind, message))`.
A method reads only the replies its code path reaches.

The pure parts of each source file are functions: a `copy` expression, a
filter, a page-key computation, a message attribution or a route template.
Lemmas state the properties the app relies on:

- round trips: refreshing to a loaded page, a route splitting back into its
  parts;
- parity of repeated toggles, and agreement between the feed and the details
  screen;
- order-preserving filters and maps;
- exactly which field an edit touches.

Kotlin `Int` arithmetic on like counts and page keys is 32-bit with
wrap-around (`Inc32`, `Dec32`).

Files, one module each:

- `Common.dfy`: nullable values, 32-bit arithmetic, the reply model, the data
  classes and string helpers.
- `Api.dfy`: the requests as values.
- `BaseRepository.dfy`, `PageKeys.dfy`, `PostPagingSource.dfy`,
  `FollowPagingSource.dfy` and `Screen.dfy`: the data layer and navigation.
- One file per view-model, plus `FeedScreen.dfy` for the feed's overlay merge.

## Model

| member | source | states |
|---|---|---|
| Common.Inc32 | app/src/main/java/basostudio/basospark/features/feed/FeedViewModel.kt:37 | Kotlin `Int` + 1: one more, except that the largest 32-bit value wraps to the smallest; the result is congruent to x + 1 modulo 2^32 |
| Common.Dec32 | app/src/main/java/basostudio/basospark/features/feed/FeedViewModel.kt:37 | Kotlin `Int` - 1 with the same wrap-around at the smallest value |
| Common.IncDecInverse | app/src/main/java/basostudio/basospark/features/feed/FeedViewModel.kt:37 | adding one and subtracting one undo each other on every 32-bit value, wrap-around included |
| Common.Trim | app/src/main/java/basostudio/basospark/features/chat/chat_room/ChatRoomViewModel.kt:165 | `trim()`: the slice of the input after its leading white space, with only white space cut off at either end; no white space at either end of the result, which is empty exactly when the input is blank |
| Common.IntToString | app/src/main/java/basostudio/basospark/ui/navigation/Screen.kt:48 | the decimal text of an `Int` in a string template: digits, with a leading "-" for negatives, that read back as the value (or its negation after the "-") |
| Common.ParseNatToString | app/src/main/java/basostudio/basospark/ui/navigation/Screen.kt:48 | the decimal text of a number reads back as that number |
| Common.Show | app/src/main/java/basostudio/basospark/features/chat/chat_room/ChatRoomViewModel.kt:202 | a null message in a string template prints as "null" |
| Api.LikeRequest | app/src/main/java/basostudio/basospark/features/feed/FeedViewModel.kt:40-44 | unlike is sent exactly when the post is known to be liked, like otherwise, for the post's own id |
| Api.SaveRequest | app/src/main/java/basostudio/basospark/features/feed/FeedViewModel.kt:59-63 | unsave is sent exactly when the post is known to be saved, save otherwise |
| BaseRepository.ApiErrorMessage | app/src/main/java/basostudio/basospark/data/repository/BaseRepository.kt:19 | starts with "API Error: ", ends with a space and the status message, and the text between reads back as the status code (after a "-" when it is negative) |
| BaseRepository.SafeApiCall | app/src/main/java/basostudio/basospark/data/repository/BaseRepository.kt:8-26 | Success exactly for a 2xx reply with a body, carrying that body; a bodiless 2xx, a non-2xx reply, an I/O exception and any other exception each give their own error message; every outcome is a value |
| BaseRepository.ErrorMessagesDistinct | app/src/main/java/basostudio/basospark/data/repository/BaseRepository.kt:15-24 | the error messages of the different failure kinds are told apart by their leading words |
| PageKeys.PageFor | app/src/main/java/basostudio/basospark/data/remote/PostPagingSource.kt:18 | a missing key loads page 1, a given key loads that page |
| PageKeys.PageOf | app/src/main/java/basostudio/basospark/data/remote/PostPagingSource.kt:28-32 | the page carries the list; prevKey is null exactly on page 1 and otherwise the page before; nextKey is null exactly for an empty list and otherwise the page after |
| PageKeys.RefreshKey | app/src/main/java/basostudio/basospark/data/remote/PostPagingSource.kt:40-46 | no anchor or no closest page gives no key; otherwise prevKey + 1, falling back to nextKey - 1 |
| PageKeys.RefreshKeyRoundTrip | app/src/main/java/basostudio/basospark/data/remote/PostPagingSource.kt:28-45 | refreshing at a loaded page returns that page's number, except for an empty first page, which has neither neighbour key |
| PageKeys.NextPagePointsBack | app/src/main/java/basostudio/basospark/data/remote/PostPagingSource.kt:30-31 | the page loaded from a page's nextKey has that page as its prevKey |
| PostPagingSource.NormalizedQuery | app/src/main/java/basostudio/basospark/data/remote/PostPagingSource.kt:23 | the search query is sent only when it is present and not blank, and then unchanged |
| PostPagingSource.Load | app/src/main/java/basostudio/basospark/data/remote/PostPagingSource.kt:17-38 | the request asks for the key's page with the load size and normalised query; a reply gives a page of its body (empty when missing) with the page keys; I/O and HTTP exceptions become an error result, any other exception propagates |
| PostPagingSource.LoadThenRefresh | app/src/main/java/basostudio/basospark/data/remote/PostPagingSource.kt:17-46 | a page that `load` returned refreshes to its own page number unless it is an empty first page |
| FollowPagingSource.QueryFor | app/src/main/java/basostudio/basospark/data/remote/FollowPagingSource.kt:16-21 | followers are asked for exactly when the type is FOLLOWERS, for the given user, load size and the key's page (1 without a key) |
| FollowPagingSource.Load | app/src/main/java/basostudio/basospark/data/remote/FollowPagingSource.kt:15-31 | every exception becomes an error result; a reply gives a page of its body (empty when missing) with the page keys |
| FollowPagingSource.LoadThenRefresh | app/src/main/java/basostudio/basospark/data/remote/FollowPagingSource.kt:15-38 | a follow page refreshes to its own page number unless it is an empty first page |
| Screen.PostDetailsRoute | app/src/main/java/basostudio/basospark/ui/navigation/Screen.kt:19-21 | `PostDetails.createRoute(id)` is the route template "post_details_screen/{postId}" with {postId} replaced by the id, by the independent `Instantiate` |
| Screen.PostSavesRoute | app/src/main/java/basostudio/basospark/ui/navigation/Screen.kt:22-26 | `PostSaves.createRoute(filter)` is the template "post_saves?filter={filter}" with {filter} replaced |
| Screen.ProfileRoute | app/src/main/java/basostudio/basospark/ui/navigation/Screen.kt:29-31 | `Profile.createRoute(id)` is the template "profile_screen?userId={userId}" with {userId} replaced |
| Screen.ChatRoomRoute | app/src/main/java/basostudio/basospark/ui/navigation/Screen.kt:35-37 | `ChatRoom.createRoute(id)` is the template "chat_room_screen/{roomId}" with {roomId} replaced |
| Screen.OtherProfileRoute | app/src/main/java/basostudio/basospark/ui/navigation/Screen.kt:38-40 | `OtherProfile.createRoute(id)` is the template "other_profile_screen/{userId}" with {userId} replaced |
| Screen.FollowRoute | app/src/main/java/basostudio/basospark/ui/navigation/Screen.kt:46-50 | `Follow.createRoute` is the template "follow_screen/{userId}/{username}/{tabIndex}" with the user id, the username and the tab index's decimal text filled in |
| Screen.PostSavesDefaultFilter | app/src/main/java/basostudio/basospark/ui/navigation/Screen.kt:24-25 | without an argument the filter is "ALL" |
| Screen.FollowRouteSegments | app/src/main/java/basostudio/basospark/ui/navigation/Screen.kt:46-49 | for ids and usernames without "/", the Follow route splits back into the screen name, the user id, the username and the tab index |
| FeedViewModel.EntryOf | app/src/main/java/basostudio/basospark/features/feed/FeedViewModel.kt:73 | a post without an entry reads as the all-null update state |
| FeedViewModel.Updated | app/src/main/java/basostudio/basospark/features/feed/FeedViewModel.kt:71-81 | the overlay gains (or keeps) the post's key, other posts' entries are untouched, and each field takes the given value when non-null and keeps its previous value otherwise |
| FeedViewModel.ToggledCount | app/src/main/java/basostudio/basospark/features/feed/FeedViewModel.kt:37 | the optimistic count moves off the shown count, and the opposite move (+1 after an unlike, -1 after a like) brings it back, wrap-around included |
| FeedViewModel.AfterLikeToggle | app/src/main/java/basostudio/basospark/features/feed/FeedViewModel.kt:33-50 | the like flag is flipped (null read as false) and the count moved by one at once; only a thrown request restores the old flag and count; the saved flag and other posts are untouched |
| FeedViewModel.AfterSaveToggle | app/src/main/java/basostudio/basospark/features/feed/FeedViewModel.kt:52-69 | the saved flag is flipped at once and restored only when the request throws; the like fields and other posts are untouched |
| FeedViewModel.FeedViewModel.constructor | app/src/main/java/basostudio/basospark/features/feed/FeedViewModel.kt:29 | the overlay starts empty and nothing has been sent |
| FeedViewModel.FeedViewModel.UpdateLocalState | app/src/main/java/basostudio/basospark/features/feed/FeedViewModel.kt:71-81 | the overlay field becomes `Updated` of its old value |
| FeedViewModel.FeedViewModel.ToggleLikeStatus | app/src/main/java/basostudio/basospark/features/feed/FeedViewModel.kt:33-50 | the overlay becomes `AfterLikeToggle` of its old value and exactly one like or unlike request is sent |
| FeedViewModel.FeedViewModel.ToggleSaveStatus | app/src/main/java/basostudio/basospark/features/feed/FeedViewModel.kt:52-69 | the overlay becomes `AfterSaveToggle` of its old value and exactly one save or unsave request is sent |
| FeedScreen.Shown | app/src/main/java/basostudio/basospark/features/feed/FeedScreen.kt:58-67 | a post without an overlay entry is shown as the server sent it; otherwise each non-null overlay field wins; nothing but the like flag, like count and saved flag ever differs |
| FeedScreen.ShownLooksUpOwnId | app/src/main/java/basostudio/basospark/features/feed/FeedScreen.kt:58 | what is shown for a post depends only on the overlay entry under its own id |
| FeedScreen.LikeClicks | app/src/main/java/basostudio/basospark/features/feed/FeedScreen.kt:59-74 | repeated like clicks, each toggling the post as then shown, add an entry only for the clicked post and leave every other post's entry unchanged |
| FeedScreen.SaveClicks | app/src/main/java/basostudio/basospark/features/feed/FeedScreen.kt:59-78 | repeated save clicks add an entry only for the clicked post and leave every other post's entry unchanged |
| FeedScreen.LikeClickStep | app/src/main/java/basostudio/basospark/features/feed/FeedScreen.kt:72-74 | one like click on the shown post: a completed request flips the shown flag and moves the shown count; a thrown one shows the old values again; the saved flag is unchanged |
| FeedScreen.ToggledCountTwice | app/src/main/java/basostudio/basospark/features/feed/FeedViewModel.kt:37 | moving the count for a like and then for the opposite unlike gives the count back |
| FeedScreen.LikeParity | app/src/main/java/basostudio/basospark/features/feed/FeedScreen.kt:72-74 | after any run of like clicks the shown flag differs from the first one exactly when an odd number of requests completed, and the count has moved exactly then; the saved flag is unchanged |
| FeedScreen.SaveParity | app/src/main/java/basostudio/basospark/features/feed/FeedScreen.kt:76-78 | after any run of save clicks the shown saved flag differs from the first one exactly when an odd number of requests completed |
| FeedScreen.LikeTwiceRestores | app/src/main/java/basostudio/basospark/features/feed/FeedScreen.kt:72-74 | two completed like clicks bring the shown post back to its first like flag and count |
| PostDetailsViewModel.LoadedState | app/src/main/java/basostudio/basospark/features/post_details/PostDetailsViewModel.kt:48-70 | Success exactly when the post arrives and the comments request does not throw, with the post shown; a comments reply that fails or has no body shows no comments; a missing post gives "Failed to load post."; an exception gives its message or "An unexpected error" |
| PostDetailsViewModel.LoadRequests | app/src/main/java/basostudio/basospark/features/post_details/PostDetailsViewModel.kt:52-56 | the post is requested first; its comments (page 1, 50 per page) only once the post arrived |
| PostDetailsViewModel.ToggledLike | app/src/main/java/basostudio/basospark/features/post_details/PostDetailsViewModel.kt:97-100 | the like flag becomes the negation of the old one (null read as false); the count goes up by one unless the post was liked, then down by one; nothing else changes |
| PostDetailsViewModel.ToggledSave | app/src/main/java/basostudio/basospark/features/post_details/PostDetailsViewModel.kt:114 | the saved flag becomes the negation of the old one; the like count and every other field are unchanged |
| PostDetailsViewModel.LikeTwiceRestores | app/src/main/java/basostudio/basospark/features/post_details/PostDetailsViewModel.kt:97-100 | two confirmed like toggles give the post back, with an unknown like flag now false |
| PostDetailsViewModel.SaveTwiceRestores | app/src/main/java/basostudio/basospark/features/post_details/PostDetailsViewModel.kt:114 | two confirmed save toggles give the post back, with an unknown saved flag now false |
| PostDetailsViewModel.LikeAgreesWithFeed | app/src/main/java/basostudio/basospark/features/post_details/PostDetailsViewModel.kt:94-101 | whatever the feed had toggled locally before, a confirmed like of the post the feed displays shows the same post on the feed as `ToggledLike` of it shows on this screen |
| PostDetailsViewModel.SaveAgreesWithFeed | app/src/main/java/basostudio/basospark/features/post_details/PostDetailsViewModel.kt:112-115 | whatever the feed had toggled locally before, a confirmed save of the post the feed displays shows the same post on the feed as `ToggledSave` of it shows on this screen |
| PostDetailsViewModel.PostDetailsViewModel.constructor | app/src/main/java/basostudio/basospark/features/post_details/PostDetailsViewModel.kt:39-46 | a blank post id gives Error("Post ID is missing.") and sends nothing; any other id loads the post |
| PostDetailsViewModel.PostDetailsViewModel.LoadPostDetails | app/src/main/java/basostudio/basospark/features/post_details/PostDetailsViewModel.kt:48-70 | Loading is shown first, then `LoadedState`; the requests are `LoadRequests` |
| PostDetailsViewModel.PostDetailsViewModel.ToggleLike | app/src/main/java/basostudio/basospark/features/post_details/PostDetailsViewModel.kt:89-105 | outside Success nothing happens and nothing is sent; in Success one like/unlike request is sent and only a successful reply replaces the post by `ToggledLike`, keeping the comments |
| PostDetailsViewModel.PostDetailsViewModel.ToggleSave | app/src/main/java/basostudio/basospark/features/post_details/PostDetailsViewModel.kt:107-119 | as ToggleLike, with `ToggledSave` and the save/unsave request |
| PostDetailsViewModel.PostDetailsViewModel.SetInitialPost | app/src/main/java/basostudio/basospark/features/post_details/PostDetailsViewModel.kt:121-126 | only from Loading: shows the given post with no comments, then loads; in any other state nothing changes |
| EditProfileViewModel.EmptyForm | app/src/main/java/basostudio/basospark/features/profile/EditProfileViewModel.kt:24-37 | the Success defaults: empty texts, no URLs or picked images, not saving, not complete, carrying the given error |
| EditProfileViewModel.Reduce | app/src/main/java/basostudio/basospark/features/profile/EditProfileViewModel.kt:98-109 | each field-change or image-select event writes exactly its own field and leaves every other field as it was; Save and ErrorShown leave the form unchanged |
| EditProfileViewModel.ReduceIdempotent | app/src/main/java/basostudio/basospark/features/profile/EditProfileViewModel.kt:100-106 | applying the same edit twice is applying it once |
| EditProfileViewModel.EditsCommute | app/src/main/java/basostudio/basospark/features/profile/EditProfileViewModel.kt:100-106 | edits of two different fields give the same form in either order |
| EditProfileViewModel.Handled | app/src/main/java/basostudio/basospark/features/profile/EditProfileViewModel.kt:77-90 | outside Success every non-save event leaves the state as it is; ErrorShown clears only the error; the other events are `Reduce` |
| EditProfileViewModel.LoadedProfile | app/src/main/java/basostudio/basospark/features/profile/EditProfileViewModel.kt:111-130 | a loaded user fills the form (null bio and link read as empty) with no error; an exception or a missing body gives the empty form carrying the message or "Lỗi không xác định" |
| EditProfileViewModel.UpdateRequest | app/src/main/java/basostudio/basospark/features/profile/EditProfileViewModel.kt:146-153 | the update carries the form's names, bio and link, the uploaded URL when an image was picked and the existing URL otherwise, and never a username |
| EditProfileViewModel.SaveResultOf | app/src/main/java/basostudio/basospark/features/profile/EditProfileViewModel.kt:140-173 | the save succeeds exactly when every picked image uploads and the update reply is a 2xx with a body; otherwise it reports the first failure: the avatar upload, the cover upload, the exception, "Lưu thất bại: " with the status message, or, for a 2xx reply without a body, the message-less failure of `body()!!`, so no error text is shown |
| EditProfileViewModel.SaveRequests | app/src/main/java/basostudio/basospark/features/profile/EditProfileViewModel.kt:141-156 | only picked images are uploaded, one request per image whose file could be read; the avatar upload comes first and a failed one ends the save; the cover upload comes next only after the avatar uploaded; the update comes last, exactly when every upload worked; and the exact number of requests |
| EditProfileViewModel.UsernameNeverSent | app/src/main/java/basostudio/basospark/features/profile/EditProfileViewModel.kt:146-153 | no request a save sends carries a username |
| EditProfileViewModel.AfterSave | app/src/main/java/basostudio/basospark/features/profile/EditProfileViewModel.kt:167-172 | the result is the form as it was when Save was clicked, not saving, and either marked complete or carrying the failure message |
| EditProfileViewModel.FailedSaveKeepsInput | app/src/main/java/basostudio/basospark/features/profile/EditProfileViewModel.kt:172 | after a failed save whose error is then shown, the form is exactly what the user had typed |
| EditProfileViewModel.EditProfileViewModel.constructor | app/src/main/java/basostudio/basospark/features/profile/EditProfileViewModel.kt:64-66 | the screen opens by loading the current user's profile |
| EditProfileViewModel.EditProfileViewModel.LoadInitialProfile | app/src/main/java/basostudio/basospark/features/profile/EditProfileViewModel.kt:111-130 | Loading is shown first, then `LoadedProfile` |
| EditProfileViewModel.EditProfileViewModel.OnEvent | app/src/main/java/basostudio/basospark/features/profile/EditProfileViewModel.kt:68-92 | Save starts only from Success and otherwise changes nothing and sends nothing; every other event gives `Handled` and sends nothing |
| EditProfileViewModel.EditProfileViewModel.HandleSaveChanges | app/src/main/java/basostudio/basospark/features/profile/EditProfileViewModel.kt:135-175 | the form is first shown saving with no error; the final state is `AfterSave` of the outcome; the requests are `SaveRequests`; the returned user is handed to the session store only on success |
| EditProfileViewModel.EditProfileViewModel.UploadPicked | app/src/main/java/basostudio/basospark/features/profile/EditProfileViewModel.kt:142-143 | `uri?.let { uploadImage(it).getOrThrow() }`: nothing without a picked image; otherwise an upload request unless the file is unreadable, then the URL, or the failure's message rethrown |
| EditProfileViewModel.EditProfileViewModel.SendUpdate | app/src/main/java/basostudio/basospark/features/profile/EditProfileViewModel.kt:145-164 | exactly one update request built by `UpdateRequest`; the save ends as `UpdateResult` of the reply; the returned user goes to the session store only on success |
| ChatRoomViewModel.Refreshed | app/src/main/java/basostudio/basospark/features/chat/chat_room/ChatRoomViewModel.kt:137-139 | after an append a Success state shows the new list; Loading and Error are not overwritten |
| ChatRoomViewModel.MyName | app/src/main/java/basostudio/basospark/features/chat/chat_room/ChatRoomViewModel.kt:165 | my name in the history is empty exactly when both my last and first names are blank |
| ChatRoomViewModel.CounterpartName | app/src/main/java/basostudio/basospark/features/chat/chat_room/ChatRoomViewModel.kt:168-169 | the counterpart's last and first names, trimmed; empty while the room is unknown |
| ChatRoomViewModel.Attributed | app/src/main/java/basostudio/basospark/features/chat/chat_room/ChatRoomViewModel.kt:159-189 | a stored message is always shown under its own sender id, with its room, content and time; the current user's avatar and name when they sent it, otherwise the counterpart's name and avatar, or "/default-avatar.png" while the room is unknown |
| ChatRoomViewModel.History | app/src/main/java/basostudio/basospark/features/chat/chat_room/ChatRoomViewModel.kt:158-190 | one display message per stored message, in the same order |
| ChatRoomViewModel.HistoryAppend | app/src/main/java/basostudio/basospark/features/chat/chat_room/ChatRoomViewModel.kt:158-190 | attributing a concatenated history is concatenating the attributed parts |
| ChatRoomViewModel.NoUserAllCounterpart | app/src/main/java/basostudio/basospark/features/chat/chat_room/ChatRoomViewModel.kt:159-180 | with nobody signed in every stored message is attributed to the counterpart |
| ChatRoomViewModel.PayloadMessage | app/src/main/java/basostudio/basospark/features/chat/chat_room/ChatRoomViewModel.kt:61-108 | a socket event contributes a message exactly when its first argument is a JSON object that parses, and then under the payload's sender, avatar and name with its room and text; strings, other types and empty argument lists contribute nothing |
| ChatRoomViewModel.EchoMessage | app/src/main/java/basostudio/basospark/features/chat/chat_room/ChatRoomViewModel.kt:115-125 | the local echo is under the signed-in user's id and avatar (empty when null), in this room, with the typed text |
| ChatRoomViewModel.HistoryState | app/src/main/java/basostudio/basospark/features/chat/chat_room/ChatRoomViewModel.kt:149-206 | Success exactly for a 2xx reply with a body, showing its attributed history; otherwise "Failed to load messages: " with the error body or "Unknown error"; an exception gives "Network error: " and its message |
| ChatRoomViewModel.ChatRoomViewModel.constructor | app/src/main/java/basostudio/basospark/features/chat/chat_room/ChatRoomViewModel.kt:56-111 | the room details are requested and then the history, whose state is `HistoryState` |
| ChatRoomViewModel.ChatRoomViewModel.FetchChatRooms | app/src/main/java/basostudio/basospark/features/chat/chat_room/ChatRoomViewModel.kt:208-221 | the room details change only on a 2xx reply with a body |
| ChatRoomViewModel.ChatRoomViewModel.FetchMessages | app/src/main/java/basostudio/basospark/features/chat/chat_room/ChatRoomViewModel.kt:149-206 | Loading is shown first, then `HistoryState`; a loaded history replaces the list, any failure keeps it |
| ChatRoomViewModel.ChatRoomViewModel.Append | app/src/main/java/basostudio/basospark/features/chat/chat_room/ChatRoomViewModel.kt:135-140 | the list gains the message at its end and the state is `Refreshed` |
| ChatRoomViewModel.ChatRoomViewModel.SendMessage | app/src/main/java/basostudio/basospark/features/chat/chat_room/ChatRoomViewModel.kt:113-141 | with nobody signed in nothing changes; otherwise exactly the local echo is appended at the end, the state is `Refreshed`, and a new state is emitted exactly when the list was being shown |
| ChatRoomViewModel.ChatRoomViewModel.OnSocketMessage | app/src/main/java/basostudio/basospark/features/chat/chat_room/ChatRoomViewModel.kt:61-108 | the list gains exactly the payload's message at its end when there is one, with a new state emitted exactly when the list was being shown; otherwise nothing changes |
| OtherProfileViewModel.AuthoredBy | app/src/main/java/basostudio/basospark/features/profile/OtherProfileViewModel.kt:51 | the kept posts are exactly those written by the viewed user |
| OtherProfileViewModel.AuthoredByAppend | app/src/main/java/basostudio/basospark/features/profile/OtherProfileViewModel.kt:51 | filtering a concatenation is concatenating the filtered parts, so the kept posts stay in their original order |
| OtherProfileViewModel.Thrown | app/src/main/java/basostudio/basospark/features/profile/OtherProfileViewModel.kt:42-58 | nothing is thrown exactly when all three calls return and no all-2xx load lacks a body; the first call that threw is the one reported; a missing body throws with no message |
| OtherProfileViewModel.LoadedState | app/src/main/java/basostudio/basospark/features/profile/OtherProfileViewModel.kt:39-60 | Success exactly when all three replies are 2xx with bodies, with the profile, the follow flag and the viewed user's posts; a non-2xx reply gives "Failed to load profile"; an exception gives its message or "Error" |
| OtherProfileViewModel.LoadRequests | app/src/main/java/basostudio/basospark/features/profile/OtherProfileViewModel.kt:43-46 | profile, follow state and posts are requested in that order, stopping after a request that throws |
| OtherProfileViewModel.FollowRequest | app/src/main/java/basostudio/basospark/features/profile/OtherProfileViewModel.kt:66-70 | unfollow exactly when following, follow otherwise, for the viewed user |
| OtherProfileViewModel.FollowTwiceRestores | app/src/main/java/basostudio/basospark/features/profile/OtherProfileViewModel.kt:66-74 | two confirmed toggles send one follow and one unfollow and restore the state |
| OtherProfileViewModel.OtherProfileViewModel.constructor | app/src/main/java/basostudio/basospark/features/profile/OtherProfileViewModel.kt:35-37 | the screen opens by loading the profile |
| OtherProfileViewModel.OtherProfileViewModel.LoadProfileData | app/src/main/java/basostudio/basospark/features/profile/OtherProfileViewModel.kt:39-60 | Loading is shown first, then `LoadedState`; the requests are `LoadRequests` |
| OtherProfileViewModel.OtherProfileViewModel.ToggleFollow | app/src/main/java/basostudio/basospark/features/profile/OtherProfileViewModel.kt:62-77 | outside Success nothing happens; in Success one follow/unfollow request is sent and only a successful reply negates isFollowing, keeping the user and posts |
| CreatePostViewModel.DefaultTopic | app/src/main/java/basostudio/basospark/features/create_post/CreatePostViewModel.kt:56-60 | a non-empty topic list selects its first topic; an empty one keeps the selection |
| CreatePostViewModel.UploadedUrl | app/src/main/java/basostudio/basospark/features/create_post/CreatePostViewModel.kt:109-139 | a URL comes back exactly when the file is readable and the upload reply is a 2xx with a body; every failure becomes a missing URL |
| CreatePostViewModel.ImageUrl | app/src/main/java/basostudio/basospark/features/create_post/CreatePostViewModel.kt:80-84 | without an image the request's image field is null; with one it is the uploaded URL |
| CreatePostViewModel.CreatedState | app/src/main/java/basostudio/basospark/features/create_post/CreatePostViewModel.kt:76-107 | an image without a URL gives "Tải ảnh thất bại."; otherwise Success exactly for a 2xx reply, "Tạo bài viết thất bại: " with the status message for any other reply, and the exception's message or the default for an exception |
| CreatePostViewModel.CreateRequests | app/src/main/java/basostudio/basospark/features/create_post/CreatePostViewModel.kt:80-92 | at most two requests: the upload first, sent exactly for a readable image, and the create request last, sent exactly when the image is ready, with the content, the image URL and the topic id |
| CreatePostViewModel.NoImagePost | app/src/main/java/basostudio/basospark/features/create_post/CreatePostViewModel.kt:80-91 | a post without an image sends one create request with a null image, and its outcome depends only on that reply |
| CreatePostViewModel.CreatePostViewModel.constructor | app/src/main/java/basostudio/basospark/features/create_post/CreatePostViewModel.kt:47-50 | the screen opens by loading the topics |
| CreatePostViewModel.CreatePostViewModel.FetchTopics | app/src/main/java/basostudio/basospark/features/create_post/CreatePostViewModel.kt:52-68 | through `safeApiCall`: a loaded list replaces the topics and selects its first entry when non-empty; an error shows "Không tải được chủ đề: " with its message and keeps the topics |
| CreatePostViewModel.CreatePostViewModel.OnTopicSelected | app/src/main/java/basostudio/basospark/features/create_post/CreatePostViewModel.kt:70-72 | the given topic becomes the selected one |
| CreatePostViewModel.CreatePostViewModel.CreatePost | app/src/main/java/basostudio/basospark/features/create_post/CreatePostViewModel.kt:76-107 | Loading is shown first, then `CreatedState`; the requests are `CreateRequests` |
| CreatePostViewModel.CreatePostViewModel.UploadImageAndGetUrl | app/src/main/java/basostudio/basospark/features/create_post/CreatePostViewModel.kt:109-139 | the result is `UploadedUrl`; the upload is sent only for a readable file |
| RegisterViewModel.Utf16Length | app/src/main/java/basostudio/basospark/features/auth/register/RegisterViewModel.kt:38 | Kotlin's `length` counts UTF-16 units: at least the number of characters and at most twice that |
| RegisterViewModel.Utf16LengthBmp | app/src/main/java/basostudio/basospark/features/auth/register/RegisterViewModel.kt:38 | on Basic Multilingual Plane text `length` is the number of characters |
| RegisterViewModel.RegisteredState | app/src/main/java/basostudio/basospark/features/auth/register/RegisterViewModel.kt:35-55 | a password shorter than 6 gives the length error; otherwise Success with no token exactly for a 2xx reply, the fixed "Registration failed…" message for any other reply, and the exception's message or the default for an exception |
| RegisterViewModel.LengthCheckByCharacters | app/src/main/java/basostudio/basospark/features/auth/register/RegisterViewModel.kt:38 | six characters always pass the length check, and a password that fails it has fewer than six characters |
| RegisterViewModel.RegisterViewModel.constructor | app/src/main/java/basostudio/basospark/features/auth/register/RegisterViewModel.kt:32 | the screen starts Idle with nothing sent |
| RegisterViewModel.RegisterViewModel.Register | app/src/main/java/basostudio/basospark/features/auth/register/RegisterViewModel.kt:35-55 | Loading is shown first, then `RegisteredState`; the registration is sent exactly when the password passes the length check |

## Left out

- Compose screens, image loading, navigation hosting and every view-model not
  listed above. They render or copy replies into state.
- Coroutine interleavings.
  - Each launched block runs atomically.
  - In the chat room, the app starts the room-details load and the history
    load concurrently. The model runs them in launch order.
  - A live message arriving while the history loads is not modelled.
- The state flow's conflation of equal values. `emitted` records every write.
- Socket emits (`joinRoom`, `privateMessage`), logging and `println` are I/O
  with no effect on state. Socket event delivery becomes `OnSocketMessage`
  with its arguments as input.
- The session store is reduced to two pieces:
  - the signed-in user the chat room reads, as a constructor argument;
  - the users a profile save hands over, as the `savedUsers` log.
- An unreadable image file is a `fileReadable` flag on the create-post screen.
  On the edit-profile screen it is the upload outcome `UnreadableFile`: it
  fails with the repository's "Cannot read file from Uri" message and no
  request is sent. File bytes, the content resolver and the multipart body are
  left out.
- JSON and Gson decoding. A parsed payload is an input, and a parse failure is
  an absent value. A field declared non-null that Gson leaves null is not
  modelled.
- Exceptions thrown by the like, save and follow requests on the post-details
  and other-profile screens. The source does not catch them, so they reach the
  thread's uncaught-exception handler and the app crashes. Those toggles take a
  reply, never an exception.
- `postComment` in PostDetailsViewModel.kt. It reloads only after a successful
  comment and is outside the modelled core.
- The feed's `postsStream` pager (FeedViewModel.kt lines 24-26). The repository
  forwards its page requests to `PostPagingSource`, which is modelled.
- `IsWhitespace` covers the ASCII white space characters (tab, line feed,
  vertical tab, form feed, carriage return and space), the information
  separators U+001C to U+001F and the no-break space U+00A0. Kotlin's
  `isWhitespace` also accepts the other Unicode space separators and the line
  and paragraph separators U+2028 and U+2029; those are left out.
- `User.websiteUrl`: the `User` data class (data/model/User.kt) has no such
  field, yet EditProfileViewModel.kt line 122 reads one. The model gives `User`
  an optional `websiteUrl`.
- `CreatePostRequest` is not part of this model. Its three fields are taken
  from the constructor call at CreatePostViewModel.kt line 91.
- core/util/Result is not part of this model. Its two cases are taken from
  BaseRepository.kt.
- Strings are sequences of Unicode scalar values. Kotlin `length` is modelled
  as a UTF-16 unit count (`Utf16Length`), and there is no other encoding.
