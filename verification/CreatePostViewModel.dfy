/** The create-post screen's view-model: loads the topics (selecting the
    first as default), lets the user pick one, and creates a post,
    uploading its image first when there is one. */
module CreatePostViewModel {
  import opened Common
  import opened Api
  import BaseRepository

  datatype UiState = Idle | Loading | Success | Error(message: string)

  const TopicsFailedPrefix: string := "Không tải được chủ đề: "
  const UploadFailedMessage: string := "Tải ảnh thất bại."
  const CreateFailedPrefix: string := "Tạo bài viết thất bại: "
  const UnexpectedError: string := "Đã xảy ra lỗi không mong muốn"

  /** The topic selected once a topic list arrives: its first entry, or the
      previous selection when the list is empty. */
  function DefaultTopic(selected: Option<Topic>, topics: seq<Topic>): (r: Option<Topic>)
    ensures topics != [] ==> r == Some(topics[0])
    ensures topics == [] ==> r == selected
  {
    if |topics| > 0 then Some(topics[0]) else selected
  }

  /** What `uploadImageAndGetUrl` yields. Every failure is swallowed into a
      missing URL: an unreadable file (no request is sent), an exception,
      a non-2xx reply or a reply without a body. */
  function UploadedUrl(fileReadable: bool, uploadCall: Call<string>): (url: Option<string>)
    ensures url.Some? <==>
      (fileReadable && uploadCall.Returned? && uploadCall.response.IsSuccessful() && uploadCall.response.body.Some?)
    ensures url.Some? ==> url.value == uploadCall.response.body.value
  {
    if !fileReadable then None
    else match uploadCall
      case Threw(_) => None
      case Returned(response) => if response.IsSuccessful() then response.body else None
  }

  /** The URL the create request carries: none without an image. */
  function ImageUrl(imageUri: Option<ImageUri>, fileReadable: bool, uploadCall: Call<string>): (url: Option<string>)
    ensures imageUri.None? ==> url.None?
    ensures imageUri.Some? ==> url == UploadedUrl(fileReadable, uploadCall)
  {
    if imageUri.Some? then UploadedUrl(fileReadable, uploadCall) else None
  }

  /** Whether the post goes out: always without an image, and with one only once its upload gave a URL. */
  predicate ImageReady(imageUri: Option<ImageUri>, fileReadable: bool, uploadCall: Call<string>) {
    imageUri.None? || UploadedUrl(fileReadable, uploadCall).Some?
  }

  /** The state `createPost` settles in. */
  function CreatedState(imageUri: Option<ImageUri>, fileReadable: bool, uploadCall: Call<string>, createCall: Call<string>): (s: UiState)
    ensures s != Loading && s != Idle
    ensures !ImageReady(imageUri, fileReadable, uploadCall) ==> s == Error(UploadFailedMessage)
    ensures s == Success <==>
      (ImageReady(imageUri, fileReadable, uploadCall) && createCall.Returned? && createCall.response.IsSuccessful())
    ensures ImageReady(imageUri, fileReadable, uploadCall) && createCall.Returned? && !createCall.response.IsSuccessful() ==>
      s == Error(CreateFailedPrefix + createCall.response.message)
    ensures ImageReady(imageUri, fileReadable, uploadCall) && createCall.Threw? ==>
      s == Error(createCall.failure.message.OrElse(UnexpectedError))
  {
    if !ImageReady(imageUri, fileReadable, uploadCall) then Error(UploadFailedMessage)
    else match createCall
      case Threw(e) => Error(e.message.OrElse(UnexpectedError))
      case Returned(response) =>
        if response.IsSuccessful() then Success else Error(CreateFailedPrefix + response.message)
  }

  /** The requests `createPost` sends: the upload when there is a readable
      image, then the create request only if the image is ready. */
  function CreateRequests(content: string, topicId: string, imageUri: Option<ImageUri>, fileReadable: bool, uploadCall: Call<string>): (qs: seq<Request>)
    ensures forall q :: q in qs ==> q.UploadImage? || q.CreatePost?
    ensures (exists q :: q in qs && q.CreatePost?) <==> ImageReady(imageUri, fileReadable, uploadCall)
    ensures forall q :: q in qs && q.CreatePost? ==>
      q.createPost == CreatePostRequest(content, ImageUrl(imageUri, fileReadable, uploadCall), topicId)
    ensures (exists q :: q in qs && q.UploadImage?) <==> imageUri.Some? && fileReadable
    // at most one upload, then at most one create request, in that order
    ensures |qs| == (if imageUri.Some? && fileReadable then 1 else 0) + (if ImageReady(imageUri, fileReadable, uploadCall) then 1 else 0)
    ensures imageUri.Some? && fileReadable ==> qs[0] == UploadImage(imageUri.value)
    ensures ImageReady(imageUri, fileReadable, uploadCall) ==>
      qs[|qs| - 1] == CreatePost(CreatePostRequest(content, ImageUrl(imageUri, fileReadable, uploadCall), topicId))
  {
    var upload := if imageUri.Some? && fileReadable then [UploadImage(imageUri.value)] else [];
    assert imageUri.Some? && fileReadable ==> upload[0] in upload;
    if ImageReady(imageUri, fileReadable, uploadCall) then
      var create := CreatePost(CreatePostRequest(content, ImageUrl(imageUri, fileReadable, uploadCall), topicId));
      assert create in upload + [create];
      assert imageUri.Some? && fileReadable ==> upload[0] in upload + [create];
      upload + [create]
    else
      upload
  }

  /** A post without an image is sent with a null image field, and its outcome is the create reply's alone. */
  lemma NoImagePost(content: string, topicId: string, fileReadable: bool, uploadCall: Call<string>, createCall: Call<string>)
    ensures CreateRequests(content, topicId, None, fileReadable, uploadCall) == [CreatePost(CreatePostRequest(content, None, topicId))]
    ensures CreatedState(None, fileReadable, uploadCall, createCall) == CreatedState(None, true, Returned(Response(200, "", None)), createCall)
  {
  }

  class CreatePostViewModel {
    /** The current value of the screen's state flow. */
    var uiState: UiState
    /** Every value written to the state flow, oldest first. */
    var emitted: seq<UiState>
    var topics: seq<Topic>
    var selectedTopic: Option<Topic>
    /** Every request sent, oldest first. */
    var requests: seq<Request>

    predicate Valid()
      reads this
    {
      emitted != [] && emitted[|emitted| - 1] == uiState
    }

    /** The `init` block loads the topics. */
    constructor(topicsCall: Call<seq<Topic>>)
      ensures Valid()
      ensures requests == [GetTopics]
      ensures BaseRepository.SafeApiCall(topicsCall).Success? ==>
        var loaded := BaseRepository.SafeApiCall(topicsCall).data;
        topics == loaded && selectedTopic == DefaultTopic(None, loaded) && uiState == Idle && emitted == [Idle]
      ensures BaseRepository.SafeApiCall(topicsCall).Error? ==>
        topics == [] && selectedTopic == None
        && uiState == Error(TopicsFailedPrefix + BaseRepository.SafeApiCall(topicsCall).message)
        && emitted == [Idle, uiState]
    {
      uiState := Idle;
      emitted := [Idle];
      topics := [];
      selectedTopic := None;
      requests := [];
      new;
      FetchTopics(topicsCall);
    }

    method Emit(s: UiState)
      modifies this`uiState, this`emitted
      ensures uiState == s && emitted == old(emitted) + [s]
    {
      uiState := s;
      emitted := emitted + [s];
    }

    /** `fetchTopics`: through the repository's `safeApiCall`; a loaded list
        replaces the topics and selects its first entry. */
    method FetchTopics(topicsCall: Call<seq<Topic>>)
      modifies this`uiState, this`emitted, this`topics, this`selectedTopic, this`requests
      ensures requests == old(requests) + [GetTopics]
      ensures BaseRepository.SafeApiCall(topicsCall).Success? ==>
        var loaded := BaseRepository.SafeApiCall(topicsCall).data;
        topics == loaded && selectedTopic == DefaultTopic(old(selectedTopic), loaded)
        && uiState == old(uiState) && emitted == old(emitted)
      ensures BaseRepository.SafeApiCall(topicsCall).Error? ==>
        topics == old(topics) && selectedTopic == old(selectedTopic)
        && uiState == Error(TopicsFailedPrefix + BaseRepository.SafeApiCall(topicsCall).message)
        && emitted == old(emitted) + [uiState]
    {
      requests := requests + [GetTopics];
      var result := BaseRepository.SafeApiCall(topicsCall);
      match result {
        case Success(data) =>
          topics := data;
          if |data| > 0 {
            selectedTopic := Some(data[0]);
          }
        case Error(message) =>
          Emit(Error(TopicsFailedPrefix + message));
      }
    }

    /** `onTopicSelected`. */
    method OnTopicSelected(topic: Topic)
      modifies this`selectedTopic
      ensures selectedTopic == Some(topic)
    {
      selectedTopic := Some(topic);
    }

    /** `createPost`: Loading first; an image whose upload gives no URL stops
        the post before it is sent. */
    method CreatePost(content: string, topicId: string, imageUri: Option<ImageUri>,
                      fileReadable: bool, uploadCall: Call<string>, createCall: Call<string>)
      modifies this`uiState, this`emitted, this`requests
      ensures uiState == CreatedState(imageUri, fileReadable, uploadCall, createCall)
      ensures emitted == old(emitted) + [Loading, uiState]
      ensures requests == old(requests) + CreateRequests(content, topicId, imageUri, fileReadable, uploadCall)
    {
      Emit(Loading);
      var imageUrl: Option<string> := None;
      if imageUri.Some? {
        imageUrl := UploadImageAndGetUrl(imageUri.value, fileReadable, uploadCall);
      }
      if imageUri.Some? && imageUrl.None? {
        Emit(Error(UploadFailedMessage));
        return;
      }
      var request := CreatePostRequest(content, imageUrl, topicId);
      requests := requests + [Api.CreatePost(request)];
      match createCall {
        case Threw(e) =>
          Emit(Error(e.message.OrElse(UnexpectedError)));
        case Returned(response) =>
          if response.IsSuccessful() {
            Emit(Success);
          } else {
            Emit(Error(CreateFailedPrefix + response.message));
          }
      }
    }

    /** `uploadImageAndGetUrl`: sends the upload only for a readable file. */
    method UploadImageAndGetUrl(imageUri: ImageUri, fileReadable: bool, uploadCall: Call<string>) returns (url: Option<string>)
      modifies this`requests
      ensures url == UploadedUrl(fileReadable, uploadCall)
      ensures requests == old(requests) + (if fileReadable then [UploadImage(imageUri)] else [])
    {
      if !fileReadable {
        return None;
      }
      requests := requests + [UploadImage(imageUri)];
      match uploadCall {
        case Threw(_) => url := None;
        case Returned(response) =>
          url := if response.IsSuccessful() then response.body else None;
      }
    }
  }
}
