/** The edit-profile screen's view-model: a form held in the Success state,
    edited one field per event, and saved by uploading any picked images
    and sending one profile update. */
module EditProfileViewModel {
  import opened Common
  import opened Api

  datatype UiState =
    | Loading
    | Success(
        firstName: string,
        lastName: string,
        username: string,
        bio: string,
        link: string,
        avatarUrl: Option<string>,
        coverUrl: Option<string>,
        newAvatarUri: Option<ImageUri>,
        newCoverUri: Option<ImageUri>,
        isSaving: bool,
        saveComplete: bool,
        error: Option<string>)

  datatype Event =
    | OnFirstNameChange(value: string)
    | OnLastNameChange(value: string)
    | OnUsernameChange(value: string)
    | OnBioChange(value: string)
    | OnLinkChange(value: string)
    | OnAvatarSelect(uri: ImageUri)
    | OnCoverSelect(uri: ImageUri)
    | OnSaveClick
    | OnErrorShown

  const UnknownError: string := "Lỗi không xác định"
  const SaveFailedPrefix: string := "Lưu thất bại: "

  /** `Success(error = ...)` with every other field at its default. */
  function EmptyForm(error: Option<string>): (s: UiState)
    ensures s.Success? && s.error == error
    ensures s.firstName == s.lastName == s.username == s.bio == s.link == ""
    ensures s.avatarUrl.None? && s.coverUrl.None? && s.newAvatarUri.None? && s.newCoverUri.None?
    ensures !s.isSaving && !s.saveComplete
  {
    Success("", "", "", "", "", None, None, None, None, false, false, error)
  }

  /** The form field an editing event writes. */
  datatype Field = FirstName | LastName | Username | Bio | Link | NewAvatar | NewCover

  predicate IsEdit(e: Event) {
    !e.OnSaveClick? && !e.OnErrorShown?
  }

  function FieldOf(e: Event): Field
    requires IsEdit(e)
  {
    match e
    case OnFirstNameChange(_) => FirstName
    case OnLastNameChange(_) => LastName
    case OnUsernameChange(_) => Username
    case OnBioChange(_) => Bio
    case OnLinkChange(_) => Link
    case OnAvatarSelect(_) => NewAvatar
    case OnCoverSelect(_) => NewCover
  }

  /** Whether `r` and `s` agree on every field except possibly `f`. */
  predicate AgreeExcept(r: UiState, s: UiState, f: Field)
    requires r.Success? && s.Success?
  {
    (f != FirstName ==> r.firstName == s.firstName)
    && (f != LastName ==> r.lastName == s.lastName)
    && (f != Username ==> r.username == s.username)
    && (f != Bio ==> r.bio == s.bio)
    && (f != Link ==> r.link == s.link)
    && (f != NewAvatar ==> r.newAvatarUri == s.newAvatarUri)
    && (f != NewCover ==> r.newCoverUri == s.newCoverUri)
    && r.avatarUrl == s.avatarUrl && r.coverUrl == s.coverUrl
    && r.isSaving == s.isSaving && r.saveComplete == s.saveComplete && r.error == s.error
  }

  /** `reduce`: an editing event writes its own field and nothing else;
      the two non-editing events leave the form as it is. */
  function Reduce(s: UiState, e: Event): (r: UiState)
    requires s.Success?
    ensures r.Success?
    ensures !IsEdit(e) ==> r == s
    ensures IsEdit(e) ==> AgreeExcept(r, s, FieldOf(e))
    ensures e.OnFirstNameChange? ==> r.firstName == e.value
    ensures e.OnLastNameChange? ==> r.lastName == e.value
    ensures e.OnUsernameChange? ==> r.username == e.value
    ensures e.OnBioChange? ==> r.bio == e.value
    ensures e.OnLinkChange? ==> r.link == e.value
    ensures e.OnAvatarSelect? ==> r.newAvatarUri == Some(e.uri)
    ensures e.OnCoverSelect? ==> r.newCoverUri == Some(e.uri)
  {
    match e
    case OnFirstNameChange(v) => s.(firstName := v)
    case OnLastNameChange(v) => s.(lastName := v)
    case OnUsernameChange(v) => s.(username := v)
    case OnBioChange(v) => s.(bio := v)
    case OnLinkChange(v) => s.(link := v)
    case OnAvatarSelect(u) => s.(newAvatarUri := Some(u))
    case OnCoverSelect(u) => s.(newCoverUri := Some(u))
    case _ => s
  }

  /** Applying the same edit twice is the same as applying it once. */
  lemma ReduceIdempotent(s: UiState, e: Event)
    requires s.Success?
    ensures Reduce(Reduce(s, e), e) == Reduce(s, e)
  {
  }

  /** Edits of two different fields can be applied in either order. */
  lemma EditsCommute(s: UiState, e1: Event, e2: Event)
    requires s.Success? && IsEdit(e1) && IsEdit(e2) && FieldOf(e1) != FieldOf(e2)
    ensures Reduce(Reduce(s, e1), e2) == Reduce(Reduce(s, e2), e1)
  {
  }

  /** The state `onEvent` leaves for every event but OnSaveClick. */
  function Handled(s: UiState, e: Event): (r: UiState)
    requires !e.OnSaveClick?
    ensures !s.Success? ==> r == s
    ensures s.Success? && e.OnErrorShown? ==> r == s.(error := None)
    ensures s.Success? && IsEdit(e) ==> r == Reduce(s, e)
  {
    if !s.Success? then s
    else if e.OnErrorShown? then s.(error := None)
    else Reduce(s, e)
  }

  /** The form a loaded profile fills in; a failed load still shows a form,
      empty, carrying the error. */
  function LoadedProfile(profileCall: Call<User>): (s: UiState)
    ensures s.Success? && !s.isSaving && !s.saveComplete
    ensures s.newAvatarUri.None? && s.newCoverUri.None?
    ensures s.error.None? <==> profileCall.Returned? && profileCall.response.body.Some?
    ensures profileCall.Returned? && profileCall.response.body.Some? ==>
      var user := profileCall.response.body.value;
      s.firstName == user.firstName && s.lastName == user.lastName && s.username == user.username
      && s.bio == user.bio.OrElse("") && s.link == user.websiteUrl.OrElse("")
      && s.avatarUrl == user.avatar && s.coverUrl == user.cover
    ensures profileCall.Threw? ==> s == EmptyForm(Some(profileCall.failure.message.OrElse(UnknownError)))
    // `body()!!` on a missing body throws an exception with no message
    ensures profileCall.Returned? && profileCall.response.body.None? ==> s == EmptyForm(Some(UnknownError))
  {
    match profileCall
    case Threw(e) => EmptyForm(Some(e.message.OrElse(UnknownError)))
    case Returned(response) =>
      match response.body
      case None => EmptyForm(Some(UnknownError))
      case Some(user) =>
        Success(user.firstName, user.lastName, user.username, user.bio.OrElse(""),
                user.websiteUrl.OrElse(""), user.avatar, user.cover, None, None, false, false, None)
  }

  /** The profile update sent for a form, given the URLs of any freshly uploaded images. */
  function UpdateRequest(s: UiState, newAvatarUrl: Option<string>, newCoverUrl: Option<string>): (dto: UserUpdateDto)
    requires s.Success?
    ensures dto.username.None?
    ensures dto.firstName == Some(s.firstName) && dto.lastName == Some(s.lastName)
    ensures dto.bio == Some(s.bio) && dto.link == Some(s.link)
    ensures newAvatarUrl.Some? ==> dto.avatar == newAvatarUrl
    ensures newAvatarUrl.None? ==> dto.avatar == s.avatarUrl
    ensures newCoverUrl.Some? ==> dto.cover == newCoverUrl
    ensures newCoverUrl.None? ==> dto.cover == s.coverUrl
  {
    UserUpdateDto(Some(s.firstName), Some(s.lastName), None, Some(s.bio), Some(s.link),
                  Elvis(newAvatarUrl, s.avatarUrl), Elvis(newCoverUrl, s.coverUrl))
  }

  /** The URL an optional upload contributes: nothing when no image was
      picked, its URL when it succeeded. */
  function UploadedUrl(picked: Option<ImageUri>, upload: UploadResult): Option<string> {
    if picked.Some? && upload.Uploaded? then Some(upload.url) else None
  }

  predicate UploadOk(picked: Option<ImageUri>, upload: UploadResult) {
    picked.None? || upload.Uploaded?
  }

  /** How a save ends: the user the server returned, or the message of the
      exception that stopped it (which may be null). */
  datatype SaveResult = Saved(user: User) | SaveFailed(message: Option<string>)

  function SaveResultOf(s: UiState, avatarUpload: UploadResult, coverUpload: UploadResult, updateCall: Call<User>): (r: SaveResult)
    requires s.Success?
    ensures r.Saved? <==>
      UploadOk(s.newAvatarUri, avatarUpload) && UploadOk(s.newCoverUri, coverUpload)
      && updateCall.Returned? && updateCall.response.IsSuccessful() && updateCall.response.body.Some?
    ensures r.Saved? ==> r.user == updateCall.response.body.value
    // the avatar upload runs first, so its failure is the one reported
    ensures !UploadOk(s.newAvatarUri, avatarUpload) ==> r == SaveFailed(avatarUpload.message)
    ensures UploadOk(s.newAvatarUri, avatarUpload) && !UploadOk(s.newCoverUri, coverUpload) ==>
      r == SaveFailed(coverUpload.message)
    ensures UploadOk(s.newAvatarUri, avatarUpload) && UploadOk(s.newCoverUri, coverUpload) ==>
      match updateCall
      case Threw(e) => r == SaveFailed(e.message)
      case Returned(response) =>
        (!response.IsSuccessful() ==> r == SaveFailed(Some(SaveFailedPrefix + response.message)))
        // a 2xx reply without a body fails on `body()!!`, whose exception has no message
        && (response.IsSuccessful() && response.body.None? ==> r == SaveFailed(None))
  {
    if !UploadOk(s.newAvatarUri, avatarUpload) then SaveFailed(avatarUpload.message)
    else if !UploadOk(s.newCoverUri, coverUpload) then SaveFailed(coverUpload.message)
    else UpdateResult(updateCall)
  }

  /** How the update request ends the save. */
  function UpdateResult(updateCall: Call<User>): SaveResult {
    match updateCall
    case Threw(e) => SaveFailed(e.message)
    case Returned(response) =>
      if !response.IsSuccessful() then SaveFailed(Some(SaveFailedPrefix + response.message))
      else if response.body.None? then SaveFailed(None)
      else Saved(response.body.value)
  }

  /** How many upload requests a picked image sends: one, unless nothing
      was picked or the file could not be read. */
  function Sends(picked: Option<ImageUri>, upload: UploadResult): nat {
    if picked.Some? && upload.Sent() then 1 else 0
  }

  /** The upload request a picked image sends, if it sends one. */
  function UploadRequests(picked: Option<ImageUri>, upload: UploadResult): seq<Request> {
    if picked.Some? && upload.Sent() then [UploadImage(picked.value)] else []
  }

  /** The requests a save sends: one upload per picked image whose file
      could be read, avatar first, stopping at the first failed upload, then
      the update only if every upload worked. */
  function SaveRequests(s: UiState, avatarUpload: UploadResult, coverUpload: UploadResult): (qs: seq<Request>)
    requires s.Success?
    ensures forall q :: q in qs ==> q.UploadImage? || q.UpdateProfile?
    ensures forall q :: q in qs && q.UploadImage? ==> Some(q.image) == s.newAvatarUri || Some(q.image) == s.newCoverUri
    // how many: the uploads that went out, then at most the one update
    ensures |qs| == Sends(s.newAvatarUri, avatarUpload)
                    + (if UploadOk(s.newAvatarUri, avatarUpload) then Sends(s.newCoverUri, coverUpload) else 0)
                    + (if UploadOk(s.newAvatarUri, avatarUpload) && UploadOk(s.newCoverUri, coverUpload) then 1 else 0)
    // the avatar upload goes first, and its failure ends the save
    ensures Sends(s.newAvatarUri, avatarUpload) == 1 ==> qs[0] == UploadImage(s.newAvatarUri.value)
    ensures !UploadOk(s.newAvatarUri, avatarUpload) ==>
      qs == (if avatarUpload.Sent() then [UploadImage(s.newAvatarUri.value)] else [])
    // the cover upload comes next, only once the avatar is uploaded
    ensures UploadOk(s.newAvatarUri, avatarUpload) && Sends(s.newCoverUri, coverUpload) == 1 ==>
      qs[Sends(s.newAvatarUri, avatarUpload)] == UploadImage(s.newCoverUri.value)
    // the update is sent last, exactly when every upload worked
    ensures (UpdateProfile(UpdateRequest(s, UploadedUrl(s.newAvatarUri, avatarUpload), UploadedUrl(s.newCoverUri, coverUpload))) in qs)
      <==> UploadOk(s.newAvatarUri, avatarUpload) && UploadOk(s.newCoverUri, coverUpload)
    ensures UploadOk(s.newAvatarUri, avatarUpload) && UploadOk(s.newCoverUri, coverUpload) ==>
      qs[|qs| - 1] == UpdateProfile(UpdateRequest(s, UploadedUrl(s.newAvatarUri, avatarUpload), UploadedUrl(s.newCoverUri, coverUpload)))
  {
    var avatar := UploadRequests(s.newAvatarUri, avatarUpload);
    if !UploadOk(s.newAvatarUri, avatarUpload) then avatar
    else
      var cover := UploadRequests(s.newCoverUri, coverUpload);
      if !UploadOk(s.newCoverUri, coverUpload) then avatar + cover
      else avatar + cover + [UpdateProfile(UpdateRequest(s, UploadedUrl(s.newAvatarUri, avatarUpload), UploadedUrl(s.newCoverUri, coverUpload)))]
  }

  /** The requests of a save, appended to those sent before, step by step. */
  lemma SaveRequestsAfter(before: seq<Request>, s: UiState, avatarUpload: UploadResult, coverUpload: UploadResult)
    requires s.Success?
    ensures before + SaveRequests(s, avatarUpload, coverUpload) ==
      if !UploadOk(s.newAvatarUri, avatarUpload) then before + UploadRequests(s.newAvatarUri, avatarUpload)
      else if !UploadOk(s.newCoverUri, coverUpload) then
        before + UploadRequests(s.newAvatarUri, avatarUpload) + UploadRequests(s.newCoverUri, coverUpload)
      else
        before + UploadRequests(s.newAvatarUri, avatarUpload) + UploadRequests(s.newCoverUri, coverUpload)
        + [UpdateProfile(UpdateRequest(s, UploadedUrl(s.newAvatarUri, avatarUpload), UploadedUrl(s.newCoverUri, coverUpload)))]
  {
  }

  /** A save never sends a username. */
  lemma UsernameNeverSent(s: UiState, avatarUpload: UploadResult, coverUpload: UploadResult)
    requires s.Success?
    ensures forall q :: q in SaveRequests(s, avatarUpload, coverUpload) && q.UpdateProfile? ==> q.update.username.None?
  {
  }

  /** The state a save settles in: the form as it was when Save was
      clicked, no longer saving, marked complete or carrying the error. */
  function AfterSave(s: UiState, result: SaveResult): (r: UiState)
    requires s.Success?
    ensures r.Success? && !r.isSaving
    ensures r.(isSaving := s.isSaving, saveComplete := s.saveComplete, error := s.error) == s
    ensures result.Saved? ==> r.saveComplete && r.error == s.error
    ensures result.SaveFailed? ==> r.saveComplete == s.saveComplete && r.error == result.message
  {
    match result
    case Saved(_) => s.(isSaving := false, saveComplete := true)
    case SaveFailed(m) => s.(isSaving := false, error := m)
  }

  /** A failed save whose error has been shown gives back the form the
      user had typed, ready to be saved again. */
  lemma FailedSaveKeepsInput(s: UiState, message: Option<string>)
    requires s.Success? && !s.isSaving
    ensures Handled(AfterSave(s, SaveFailed(message)), OnErrorShown) == s.(error := None)
  {
  }

  class EditProfileViewModel {
    /** The current value of the screen's state flow. */
    var uiState: UiState
    /** Every value written to the state flow, oldest first. */
    var emitted: seq<UiState>
    /** Every request sent, oldest first. */
    var requests: seq<Request>
    /** Every user handed to the session store, oldest first. */
    var savedUsers: seq<User>

    predicate Valid()
      reads this
    {
      emitted != [] && emitted[|emitted| - 1] == uiState
    }

    /** The `init` block loads the current user's profile. */
    constructor(profileCall: Call<User>)
      ensures Valid()
      ensures uiState == LoadedProfile(profileCall) && emitted == [Loading, Loading, uiState]
      ensures requests == [GetMyProfile] && savedUsers == []
    {
      uiState := Loading;
      emitted := [Loading];
      requests := [];
      savedUsers := [];
      new;
      LoadInitialProfile(profileCall);
    }

    method Emit(s: UiState)
      modifies this`uiState, this`emitted
      ensures uiState == s && emitted == old(emitted) + [s]
    {
      uiState := s;
      emitted := emitted + [s];
    }

    /** `loadInitialProfile`: Loading first, then the form. */
    method LoadInitialProfile(profileCall: Call<User>)
      modifies this`uiState, this`emitted, this`requests
      ensures uiState == LoadedProfile(profileCall)
      ensures emitted == old(emitted) + [Loading, uiState]
      ensures requests == old(requests) + [GetMyProfile]
    {
      Emit(Loading);
      requests := requests + [GetMyProfile];
      match profileCall {
        case Threw(e) =>
          Emit(EmptyForm(Some(e.message.OrElse(UnknownError))));
        case Returned(response) =>
          if response.body.None? {
            Emit(EmptyForm(Some(UnknownError)));
          } else {
            var user := response.body.value;
            Emit(Success(user.firstName, user.lastName, user.username, user.bio.OrElse(""),
                         user.websiteUrl.OrElse(""), user.avatar, user.cover, None, None, false, false, None));
          }
      }
    }

    /** `onEvent`: Save only starts from a loaded form; every other event
        changes only a loaded form. The upload and update outcomes are
        consulted only by a save. */
    method OnEvent(e: Event, avatarUpload: UploadResult, coverUpload: UploadResult, updateCall: Call<User>)
      modifies this`uiState, this`emitted, this`requests, this`savedUsers
      ensures e.OnSaveClick? && !old(uiState).Success? ==>
        uiState == old(uiState) && emitted == old(emitted) && requests == old(requests) && savedUsers == old(savedUsers)
      ensures e.OnSaveClick? && old(uiState).Success? ==>
        var result := SaveResultOf(old(uiState), avatarUpload, coverUpload, updateCall);
        uiState == AfterSave(old(uiState), result)
        && emitted == old(emitted) + [old(uiState).(isSaving := true, error := None), uiState]
        && requests == old(requests) + SaveRequests(old(uiState), avatarUpload, coverUpload)
        && savedUsers == old(savedUsers) + (if result.Saved? then [result.user] else [])
      ensures !e.OnSaveClick? ==>
        uiState == Handled(old(uiState), e) && emitted == old(emitted) + [uiState]
        && requests == old(requests) && savedUsers == old(savedUsers)
    {
      if e.OnSaveClick? {
        var currentState := uiState;
        if currentState.Success? {
          HandleSaveChanges(currentState, avatarUpload, coverUpload, updateCall);
        }
      } else if e.OnErrorShown? {
        Emit(if uiState.Success? then uiState.(error := None) else uiState);
      } else {
        Emit(if uiState.Success? then Reduce(uiState, e) else uiState);
      }
    }

    /** `handleSaveChanges`: mark the form as saving, upload the picked
        images, send the update, and settle on the outcome. */
    method HandleSaveChanges(currentState: UiState, avatarUpload: UploadResult, coverUpload: UploadResult, updateCall: Call<User>)
      requires currentState.Success?
      modifies this`uiState, this`emitted, this`requests, this`savedUsers
      ensures var result := SaveResultOf(currentState, avatarUpload, coverUpload, updateCall);
        uiState == AfterSave(currentState, result)
        && emitted == old(emitted) + [currentState.(isSaving := true, error := None), uiState]
        && requests == old(requests) + SaveRequests(currentState, avatarUpload, coverUpload)
        && savedUsers == old(savedUsers) + (if result.Saved? then [result.user] else [])
    {
      Emit(currentState.(isSaving := true, error := None));
      // `thrown` holds the message of the exception that ends the save, if one does
      var newAvatarUrl, thrown := UploadPicked(currentState.newAvatarUri, avatarUpload);
      var newCoverUrl: Option<string> := None;
      if thrown.None? {
        newCoverUrl, thrown := UploadPicked(currentState.newCoverUri, coverUpload);
      }
      if thrown.None? {
        thrown := SendUpdate(currentState, newAvatarUrl, newCoverUrl, updateCall);
      }
      SaveRequestsAfter(old(requests), currentState, avatarUpload, coverUpload);
      if thrown.None? {
        Emit(currentState.(isSaving := false, saveComplete := true));
      } else {
        Emit(currentState.(isSaving := false, error := thrown.value));
      }
    }

    /** Sends the update built from the form and the uploaded URLs, and
        hands the returned user to the session store; the result is the
        message of the exception that ends the save, if one does. */
    method SendUpdate(currentState: UiState, newAvatarUrl: Option<string>, newCoverUrl: Option<string>, updateCall: Call<User>)
      returns (thrown: Option<Option<string>>)
      requires currentState.Success?
      modifies this`requests, this`savedUsers
      ensures requests == old(requests) + [UpdateProfile(UpdateRequest(currentState, newAvatarUrl, newCoverUrl))]
      ensures var result := UpdateResult(updateCall);
        (thrown.None? <==> result.Saved?)
        && (result.SaveFailed? ==> thrown == Some(result.message))
        && savedUsers == old(savedUsers) + (if result.Saved? then [result.user] else [])
    {
      var updateRequest := UserUpdateDto(Some(currentState.firstName), Some(currentState.lastName), None,
                                         Some(currentState.bio), Some(currentState.link),
                                         Elvis(newAvatarUrl, currentState.avatarUrl), Elvis(newCoverUrl, currentState.coverUrl));
      requests := requests + [UpdateProfile(updateRequest)];
      thrown := None;
      match updateCall {
        case Threw(e) => thrown := Some(e.message);
        case Returned(response) =>
          if !response.IsSuccessful() {
            thrown := Some(Some(SaveFailedPrefix + response.message));
          } else if response.body.None? {
            thrown := Some(None);
          } else {
            savedUsers := savedUsers + [response.body.value];
          }
      }
    }

    /** `uri?.let { fileRepository.uploadImage(it).getOrThrow() }`: nothing
        without a picked image, otherwise its URL, or the message of the
        failure `getOrThrow` rethrows. */
    method UploadPicked(picked: Option<ImageUri>, upload: UploadResult) returns (url: Option<string>, thrown: Option<Option<string>>)
      modifies this`requests
      ensures requests == old(requests) + UploadRequests(picked, upload)
      ensures url == UploadedUrl(picked, upload)
      ensures thrown.None? <==> UploadOk(picked, upload)
      ensures thrown.Some? ==> thrown.value == upload.message
    {
      url, thrown := None, None;
      if picked.Some? {
        if upload.Sent() {
          requests := requests + [UploadImage(picked.value)];
        }
        match upload {
          case Uploaded(u) => url := Some(u);
          case UploadFailed(m, _) => thrown := Some(m);
        }
      }
    }
  }
}
