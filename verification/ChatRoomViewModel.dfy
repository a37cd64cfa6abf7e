/** The chat-room screen's view-model: a list of display messages that
    sends and live socket payloads append to, and that the history load
    replaces, attributing each stored message to its sender. */
module ChatRoomViewModel {
  import opened Common
  import opened Api

  /** The other participant of a room, as the room endpoint describes it. */
  datatype Messager = Messager(id: string, username: string, firstName: string, lastName: string, avatar: string, online: bool)

  /** A stored message, as the history endpoint returns it. */
  datatype ChatMessage = ChatMessage(id: string, roomId: string, senderId: string, content: string, createdAt: string)

  datatype ChatRoom = ChatRoom(id: string, creatorId: string, receiverId: string, roomType: string, status: string, messager: Messager, lastMessage: Option<ChatMessage>)

  /** The sender shown beside a message. */
  datatype UserM = UserM(id: string, avatarUrl: string, name: string)

  /** A message as the screen displays it. */
  datatype IMessage = IMessage(user: UserM, roomId: string, content: string, imageUrl: string, time: string)

  /** A live message as the socket's "message" event carries it. */
  datatype OnMessage = OnMessage(name: string, avatar: string, roomId: string, sender: string, receiverId: string, message: string)

  /** The first argument of a socket event: a string, a JSON object (with
      its parse into a live message, absent when the parse throws), or
      something else. */
  datatype SocketArg = StringArg(text: string) | JsonArg(parsed: Option<OnMessage>) | OtherArg

  datatype MessageUiState = Loading | Success(messages: seq<IMessage>) | Error(message: string)

  const DefaultAvatar: string := "/default-avatar.png"
  const UnknownError: string := "Unknown error"
  const FailedToLoadPrefix: string := "Failed to load messages: "
  const NetworkErrorPrefix: string := "Network error: "

  /** After an append, the state shows the new list only if it already showed a list. */
  function Refreshed(s: MessageUiState, messages: seq<IMessage>): (r: MessageUiState)
    ensures s.Success? ==> r == Success(messages)
    ensures !s.Success? ==> r == s
  {
    if s.Success? then Success(messages) else s
  }

  // ---------------------------------------------------------------------------
  // Sender attribution of the history

  predicate SenderIsMe(raw: ChatMessage, myUser: Option<User>) {
    myUser.Some? && raw.senderId == myUser.value.id
  }

  /** The current user as the history names them: last name, then first name. */
  function MyName(me: User): (name: string)
    // no name is shown exactly when both names are blank
    ensures name == [] <==> IsBlank(me.lastName) && IsBlank(me.firstName)
  {
    BlankJoin(me.lastName, me.firstName);
    Trim(me.lastName + " " + me.firstName)
  }

  /** Two names joined by a space are blank exactly when both are. */
  lemma BlankJoin(a: string, b: string)
    ensures IsBlank(a + " " + b) <==> IsBlank(a) && IsBlank(b)
  {
    var s := a + " " + b;
    assert forall i :: 0 <= i < |a| ==> s[i] == a[i];
    assert forall i :: 0 <= i < |b| ==> s[|a| + 1 + i] == b[i];
    assert s[|a|] == ' ';
  }

  /** The room counterpart as the history names them; nobody while the room is unknown. */
  function CounterpartName(chatRoom: Option<ChatRoom>): (name: string)
    ensures chatRoom.None? ==> name == ""
    ensures chatRoom.Some? ==> name == Trim(chatRoom.value.messager.lastName + " " + chatRoom.value.messager.firstName)
  {
    var lastName := if chatRoom.Some? then chatRoom.value.messager.lastName else "";
    var firstName := if chatRoom.Some? then chatRoom.value.messager.firstName else "";
    var spaced := lastName + " " + firstName;
    if chatRoom.None? then
      assert spaced == " " && IsBlank(spaced) by {
        assert spaced[0] == ' ';
      }
      Trim(spaced)
    else
      Trim(spaced)
  }

  /** One stored message as displayed: always under its own sender id, with
      the current user's details when they sent it, the counterpart's otherwise. */
  function Attributed(raw: ChatMessage, myUser: Option<User>, chatRoom: Option<ChatRoom>): (m: IMessage)
    ensures m.user.id == raw.senderId
    ensures m.roomId == raw.roomId && m.content == raw.content && m.time == raw.createdAt && m.imageUrl == ""
    ensures SenderIsMe(raw, myUser) ==>
      m.user.avatarUrl == myUser.value.avatar.OrElse("") && m.user.name == MyName(myUser.value)
    ensures !SenderIsMe(raw, myUser) ==> m.user.name == CounterpartName(chatRoom)
    ensures !SenderIsMe(raw, myUser) && chatRoom.Some? ==> m.user.avatarUrl == chatRoom.value.messager.avatar
    ensures !SenderIsMe(raw, myUser) && chatRoom.None? ==> m.user.avatarUrl == DefaultAvatar
  {
    var messageUser :=
      if SenderIsMe(raw, myUser) then
        UserM(myUser.value.id, myUser.value.avatar.OrElse(""), MyName(myUser.value))
      else
        UserM(raw.senderId, if chatRoom.Some? then chatRoom.value.messager.avatar else DefaultAvatar, CounterpartName(chatRoom));
    IMessage(messageUser, raw.roomId, raw.content, "", raw.createdAt)
  }

  /** The history as displayed: one message per stored message, in order. */
  function History(raws: seq<ChatMessage>, myUser: Option<User>, chatRoom: Option<ChatRoom>): (r: seq<IMessage>)
    ensures |r| == |raws|
    ensures forall i :: 0 <= i < |raws| ==> r[i] == Attributed(raws[i], myUser, chatRoom)
  {
    if raws == [] then []
    else History(raws[..|raws| - 1], myUser, chatRoom) + [Attributed(raws[|raws| - 1], myUser, chatRoom)]
  }

  /** Displaying two stretches of history one after the other is displaying their concatenation. */
  lemma {:induction false} HistoryAppend(a: seq<ChatMessage>, b: seq<ChatMessage>, myUser: Option<User>, chatRoom: Option<ChatRoom>)
    ensures History(a + b, myUser, chatRoom) == History(a, myUser, chatRoom) + History(b, myUser, chatRoom)
  {
    if b != [] {
      calc {
        History(a + b, myUser, chatRoom);
        { assert (a + b)[..|a + b| - 1] == a + b[..|b| - 1]; assert (a + b)[|a + b| - 1] == b[|b| - 1]; }
        History(a + b[..|b| - 1], myUser, chatRoom) + [Attributed(b[|b| - 1], myUser, chatRoom)];
        { HistoryAppend(a, b[..|b| - 1], myUser, chatRoom); }
        History(a, myUser, chatRoom) + History(b[..|b| - 1], myUser, chatRoom) + [Attributed(b[|b| - 1], myUser, chatRoom)];
      }
    } else {
      assert a + b == a;
    }
  }

  /** Without a signed-in user every stored message goes to the counterpart. */
  lemma NoUserAllCounterpart(raws: seq<ChatMessage>, chatRoom: Option<ChatRoom>)
    ensures forall m :: m in History(raws, None, chatRoom) ==> m.user.name == CounterpartName(chatRoom)
  {
    var h := History(raws, None, chatRoom);
    forall m | m in h
      ensures m.user.name == CounterpartName(chatRoom)
    {
      var i :| 0 <= i < |h| && h[i] == m;
      assert !SenderIsMe(raws[i], None);
    }
  }

  // ---------------------------------------------------------------------------
  // Live messages

  /** The message a socket "message" event contributes: only a JSON object
      that parses does; a string is parsed and dropped, anything else and an
      empty argument list are dropped. */
  function PayloadMessage(args: seq<SocketArg>): (m: Option<IMessage>)
    ensures m.Some? <==> |args| > 0 && args[0].JsonArg? && args[0].parsed.Some?
    ensures m.Some? ==>
      var payload := args[0].parsed.value;
      m.value == IMessage(UserM(payload.sender, payload.avatar, payload.name), payload.roomId, payload.message, "", "")
  {
    if |args| > 0 && args[0].JsonArg? && args[0].parsed.Some? then
      var response := args[0].parsed.value;
      Some(IMessage(UserM(response.sender, response.avatar, response.name), response.roomId, response.message, "", ""))
    else
      None
  }

  /** The message `sendMessage` shows at once for the signed-in user. */
  function EchoMessage(me: User, roomId: string, messageContent: string): (m: IMessage)
    ensures m.user.id == me.id && m.roomId == roomId && m.content == messageContent
    ensures m.user.avatarUrl == me.avatar.OrElse("")
    ensures m.user.name == me.firstName + me.lastName
  {
    IMessage(UserM(me.id, me.avatar.OrElse(""), me.firstName + me.lastName), roomId, messageContent, "", "")
  }

  /** The state the history load settles in. */
  function HistoryState(messagesCall: Call<seq<ChatMessage>>, errorBody: Option<string>, myUser: Option<User>, chatRoom: Option<ChatRoom>): (s: MessageUiState)
    ensures s != Loading
    ensures s.Success? <==> messagesCall.Returned? && messagesCall.response.IsSuccessful() && messagesCall.response.body.Some?
    ensures s.Success? ==> s.messages == History(messagesCall.response.body.value, myUser, chatRoom)
    ensures messagesCall.Returned? && !messagesCall.response.IsSuccessful() ==>
      s == Error(FailedToLoadPrefix + errorBody.OrElse(UnknownError))
    ensures messagesCall.Returned? && messagesCall.response.IsSuccessful() && messagesCall.response.body.None? ==>
      s == Error(FailedToLoadPrefix + UnknownError)
    ensures messagesCall.Threw? ==> s == Error(NetworkErrorPrefix + Show(messagesCall.failure.message))
  {
    match messagesCall
    case Threw(e) => Error(NetworkErrorPrefix + Show(e.message))
    case Returned(response) =>
      if response.IsSuccessful() && response.body.Some? then
        Success(History(response.body.value, myUser, chatRoom))
      else
        // a successful reply has no error body
        var errorMessage := if response.IsSuccessful() then UnknownError else errorBody.OrElse(UnknownError);
        Error(FailedToLoadPrefix + errorMessage)
  }

  class ChatRoomViewModel {
    /** The signed-in user as the session store had it when the screen opened. */
    const myUser: Option<User>
    const roomId: string
    /** The current value of the screen's state flow. */
    var uiState: MessageUiState
    /** Every value written to the state flow, oldest first. */
    var emitted: seq<MessageUiState>
    /** The displayed messages. */
    var messages: seq<IMessage>
    /** The room details, once loaded. */
    var chatRoom: Option<ChatRoom>
    /** Every request sent, oldest first. */
    var requests: seq<Request>

    predicate Valid()
      reads this
    {
      emitted != [] && emitted[|emitted| - 1] == uiState
    }

    /** The `init` block: load the room details, then the history. The two
        loads run concurrently in the app; here the room details land first. */
    constructor(myUser: Option<User>, roomId: string, chatRoomCall: Call<ChatRoom>,
                messagesCall: Call<seq<ChatMessage>>, errorBody: Option<string>)
      ensures Valid() && this.myUser == myUser && this.roomId == roomId
      ensures chatRoom == (if chatRoomCall.Returned? && chatRoomCall.response.IsSuccessful() then chatRoomCall.response.body else None)
      ensures uiState == HistoryState(messagesCall, errorBody, myUser, chatRoom)
      ensures emitted == [Loading, Loading, uiState]
      ensures messages == (if uiState.Success? then uiState.messages else [])
      ensures requests == [GetChatRoom(roomId), GetChatMessages(roomId)]
    {
      this.myUser := myUser;
      this.roomId := roomId;
      uiState := Loading;
      emitted := [Loading];
      messages := [];
      chatRoom := None;
      requests := [];
      new;
      FetchChatRooms(chatRoomCall);
      FetchMessages(messagesCall, errorBody);
    }

    method Emit(s: MessageUiState)
      modifies this`uiState, this`emitted
      ensures uiState == s && emitted == old(emitted) + [s]
    {
      uiState := s;
      emitted := emitted + [s];
    }

    /** `fetchChatRooms`: keeps the room details only from a successful reply with a body. */
    method FetchChatRooms(chatRoomCall: Call<ChatRoom>)
      modifies this`chatRoom, this`requests
      ensures chatRoomCall.Returned? && chatRoomCall.response.IsSuccessful() && chatRoomCall.response.body.Some? ==>
        chatRoom == chatRoomCall.response.body
      ensures !(chatRoomCall.Returned? && chatRoomCall.response.IsSuccessful() && chatRoomCall.response.body.Some?) ==>
        chatRoom == old(chatRoom)
      ensures requests == old(requests) + [GetChatRoom(roomId)]
    {
      requests := requests + [GetChatRoom(roomId)];
      if chatRoomCall.Returned? {
        var response := chatRoomCall.response;
        if response.IsSuccessful() && response.body.Some? {
          chatRoom := response.body;
        }
      }
    }

    /** `fetchMessages`: Loading first; a loaded history replaces the list. */
    method FetchMessages(messagesCall: Call<seq<ChatMessage>>, errorBody: Option<string>)
      modifies this`uiState, this`emitted, this`messages, this`requests
      ensures uiState == HistoryState(messagesCall, errorBody, myUser, chatRoom)
      ensures emitted == old(emitted) + [Loading, uiState]
      ensures uiState.Success? ==> messages == uiState.messages
      ensures !uiState.Success? ==> messages == old(messages)
      ensures requests == old(requests) + [GetChatMessages(roomId)]
    {
      Emit(Loading);
      requests := requests + [GetChatMessages(roomId)];
      match messagesCall {
        case Threw(e) =>
          Emit(Error(NetworkErrorPrefix + Show(e.message)));
        case Returned(response) =>
          if response.IsSuccessful() && response.body.Some? {
            var rawMessages := response.body.value;
            var chatMessages := History(rawMessages, myUser, chatRoom);
            messages := chatMessages;
            Emit(Success(messages));
          } else {
            var errorMessage := if response.IsSuccessful() then UnknownError else errorBody.OrElse(UnknownError);
            Emit(Error(FailedToLoadPrefix + errorMessage));
          }
      }
    }

    /** Appends one message and refreshes a state that already shows the list. */
    method Append(m: IMessage)
      modifies this`uiState, this`emitted, this`messages
      ensures messages == old(messages) + [m]
      ensures uiState == Refreshed(old(uiState), messages)
      ensures emitted == old(emitted) + (if old(uiState).Success? then [uiState] else [])
    {
      messages := messages + [m];
      if uiState.Success? {
        Emit(Success(messages));
      }
    }

    /** `sendMessage`: nothing without a signed-in user; otherwise the
        message is shown at once at the end of the list. */
    method SendMessage(receiverId: string, messageContent: string)
      modifies this`uiState, this`emitted, this`messages
      ensures myUser.None? ==> messages == old(messages) && uiState == old(uiState) && emitted == old(emitted)
      ensures myUser.Some? ==> messages == old(messages) + [EchoMessage(myUser.value, roomId, messageContent)]
      ensures myUser.Some? ==> uiState == Refreshed(old(uiState), messages)
      ensures myUser.Some? ==> emitted == old(emitted) + (if old(uiState).Success? then [uiState] else [])
    {
      if myUser.None? {
        return;
      }
      var me := myUser.value;
      var message := IMessage(UserM(me.id, me.avatar.OrElse(""), me.firstName + me.lastName), roomId, messageContent, "", "");
      Append(message);
    }

    /** The socket's "message" handler. */
    method OnSocketMessage(args: seq<SocketArg>)
      modifies this`uiState, this`emitted, this`messages
      ensures PayloadMessage(args).None? ==> messages == old(messages) && uiState == old(uiState) && emitted == old(emitted)
      ensures PayloadMessage(args).Some? ==> messages == old(messages) + [PayloadMessage(args).value]
      ensures PayloadMessage(args).Some? ==> uiState == Refreshed(old(uiState), messages)
      ensures PayloadMessage(args).Some? ==> emitted == old(emitted) + (if old(uiState).Success? then [uiState] else [])
    {
      if |args| > 0 {
        var rawData := args[0];
        match rawData {
          case StringArg(_) =>
          case JsonArg(parsed) =>
            if parsed.Some? {
              var response := parsed.value;
              Append(IMessage(UserM(response.sender, response.avatar, response.name), response.roomId, response.message, "", ""));
            }
          case OtherArg =>
        }
      }
    }
  }
}
