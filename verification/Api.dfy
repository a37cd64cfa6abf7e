/** The requests the core sends to the HTTP API, as values. The endpoint list
    itself is declarative; the model keeps only which request was sent and
    with which arguments, so that the view-models can be held to what they
    ask the server for. */
module Api {
  import opened Common

  /** An image the user picked (a content URI). */
  type ImageUri = string

  /** What the file repository's `uploadImage` yields: the uploaded URL, or
      the failure it carries. `sent` says whether the upload request reached
      the server: a file that cannot be read fails before anything is sent. */
  datatype UploadResult = Uploaded(url: string) | UploadFailed(message: Option<string>, sent: bool)
  {
    /** Whether an upload request went out. */
    predicate Sent() {
      Uploaded? || sent
    }
  }

  /** The failure of a picked file that cannot be read. */
  const UnreadableFile: UploadResult := UploadFailed(Some("Cannot read file from Uri"), false)

  /** The body of a profile update; every field is optional. */
  datatype UserUpdateDto = UserUpdateDto(
    firstName: Option<string>,
    lastName: Option<string>,
    username: Option<string>,
    bio: Option<string>,
    link: Option<string>,
    avatar: Option<string>,
    cover: Option<string>
  )

  datatype CreatePostRequest = CreatePostRequest(content: string, image: Option<string>, topicId: string)

  datatype RegisterRequest = RegisterRequest(username: string, email: string, firstName: string, lastName: string, password: string)

  datatype Request =
    | LikePost(postId: string)
    | UnlikePost(postId: string)
    | SavePost(postId: string)
    | UnsavePost(postId: string)
    | GetPostById(postId: string)
    | GetComments(postId: string, page: int, limit: int)
    | GetPosts(page: int, limit: int)
    | GetProfile(userId: string)
    | HasFollowed(userId: string)
    | FollowUser(userId: string)
    | UnfollowUser(userId: string)
    | GetMyProfile
    | UpdateProfile(update: UserUpdateDto)
    | UploadImage(image: ImageUri)
    | GetTopics
    | CreatePost(createPost: CreatePostRequest)
    | Register(register: RegisterRequest)
    | GetChatRoom(roomId: string)
    | GetChatMessages(roomId: string)

  /** The like toggle's request: unlike exactly when the post is known to be liked. */
  function LikeRequest(post: Post): (q: Request)
    ensures q.UnlikePost? <==> post.hasLiked == Some(true)
    ensures q.LikePost? <==> post.hasLiked != Some(true)
    ensures q.postId == post.id
  {
    if post.hasLiked == Some(true) then UnlikePost(post.id) else LikePost(post.id)
  }

  /** The save toggle's request: unsave exactly when the post is known to be saved. */
  function SaveRequest(post: Post): (q: Request)
    ensures q.UnsavePost? <==> post.hasSaved == Some(true)
    ensures q.SavePost? <==> post.hasSaved != Some(true)
    ensures q.postId == post.id
  {
    if post.hasSaved == Some(true) then UnsavePost(post.id) else SavePost(post.id)
  }
}
