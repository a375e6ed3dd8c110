/** The chat slice of the client store: the latest message of every
    conversation (`messageList`), the thread with one counterpart
    (`messageDetail`), that counterpart's profile (`userData`) and the last sent
    message, driven by four token-guarded thunks and by `reset`. */
module ChatSlice {
  import opened Common
  import AuthSlice

  /** A stored message with both parties' profiles. */
  datatype MessageData = MessageData(
    id: int,
    sender: int,
    sender_user: UserData,
    receiver: int,
    receiver_user: UserData,
    message: string,
    is_read: bool,
    created_at: string)

  /** The body of a send-message request, and what the endpoint echoes back. */
  datatype SendForm = SendForm(user: int, sender: int, receiver: int, message: string, is_read: bool)

  /** The request both chat pages build for a new message from `me`. */
  function Outgoing(me: int, receiver: int, text: string): SendForm
  {
    SendForm(me, me, receiver, text, false)
  }

  /** The slice state. `user` is the session read from local storage at
      start-up; no case ever writes it. The state has no message field. */
  datatype ChatState = ChatState(
    user: Option<Session>,
    userData: Option<UserData>,
    status: Status,
    messageList: seq<MessageData>,
    messageDetail: seq<MessageData>,
    sendMessage: Option<SendForm>)

  /** All flags down, both lists empty, no counterpart and nothing sent. */
  function Initial(persisted: Option<Session>): ChatState
  {
    ChatState(persisted, None, Idle, [], [], None)
  }

  datatype ChatThunk = FetchMessageList | FetchMessageDetail | FetchUserData | SendMessage

  /** The thunk calls a page can dispatch, with their arguments. */
  datatype ChatRequest =
    | RequestMessageList(userId: int)
    | RequestMessageDetail(userId: int, uidString: string)
    | RequestUserData(uidString: string)
    | RequestSend(form: SendForm)

  datatype ChatAction =
    | Reset
    | Pending(thunk: ChatThunk)
    | Rejected(thunk: ChatThunk)
    | MessageListFulfilled(list: seq<MessageData>)
    | MessageDetailFulfilled(detail: seq<MessageData>)
    | UserDataFulfilled(data: UserData)
    | SendMessageFulfilled(sent: SendForm)

  function PhaseOf(a: ChatAction): Phase
  {
    match a
    case Reset => Clear
    case Pending(_) => Start
    case Rejected(_) => Fail
    case _ => Succeed
  }

  /** The reducer: the case reducers of `chatSlice`. */
  function Reduce(s: ChatState, a: ChatAction): ChatState
  {
    match a
    case Reset => s.(status := Idle, messageList := [], messageDetail := [])
    case Pending(_) => s.(status := Next(s.status, Start))
    case Rejected(_) => s.(status := Next(s.status, Fail))
    case MessageListFulfilled(list) => s.(status := Next(s.status, Succeed), messageList := list)
    case MessageDetailFulfilled(detail) => s.(status := Next(s.status, Succeed), messageDetail := detail)
    case UserDataFulfilled(data) => s.(status := Next(s.status, Succeed), userData := Some(data))
    case SendMessageFulfilled(sent) => s.(status := Next(s.status, Succeed), sendMessage := Some(sent))
  }

  function Run(s: ChatState, actions: seq<ChatAction>): ChatState
    decreases |actions|
  {
    if actions == [] then s else Run(Reduce(s, actions[0]), actions[1..])
  }

  // ---------------------------------------------------------------------------
  // Thunks: each reads the token from the auth slice, `auth.user?.access`

  function FetchMessageListThunk(auth: AuthSlice.AuthState, userId: int,
                                 service: (string, int) -> Outcome<seq<MessageData>>): ThunkRun<seq<MessageData>>
  {
    Guarded(AccessToken(auth.user), token => service(token, userId))
  }

  function FetchMessageDetailThunk(auth: AuthSlice.AuthState, userId: int, uidString: string,
                                   service: (string, int, string) -> Outcome<seq<MessageData>>): ThunkRun<seq<MessageData>>
  {
    Guarded(AccessToken(auth.user), token => service(token, userId, uidString))
  }

  function FetchUserDataThunk(auth: AuthSlice.AuthState, uidString: string,
                              service: (string, string) -> Outcome<UserData>): ThunkRun<UserData>
  {
    Guarded(AccessToken(auth.user), token => service(token, uidString))
  }

  function SendMessageThunk(auth: AuthSlice.AuthState, form: SendForm,
                            service: (string, SendForm) -> Outcome<SendForm>): ThunkRun<SendForm>
  {
    Guarded(AccessToken(auth.user), token => service(token, form))
  }

  /** The settled action; the rejected cases ignore their payload. */
  function Completion<T>(t: ChatThunk, st: Settlement<T>, onFulfilled: T -> ChatAction): ChatAction
  {
    if st.Fulfilled? then onFulfilled(st.value) else Rejected(t)
  }

  /** Without a truthy token in the auth slice none of the four thunks calls
      its service; each rejects with the fixed message. */
  lemma NoAuthTokenNoCall(auth: AuthSlice.AuthState, userId: int, uid: string, form: SendForm,
                          list: (string, int) -> Outcome<seq<MessageData>>,
                          detail: (string, int, string) -> Outcome<seq<MessageData>>,
                          profile: (string, string) -> Outcome<UserData>,
                          send: (string, SendForm) -> Outcome<SendForm>)
    requires !Truthy(AccessToken(auth.user))
    ensures FetchMessageListThunk(auth, userId, list) == ThunkRun(None, RejectedWithValue(MissingTokenMessage))
    ensures FetchMessageDetailThunk(auth, userId, uid, detail) == ThunkRun(None, RejectedWithValue(MissingTokenMessage))
    ensures FetchUserDataThunk(auth, uid, profile) == ThunkRun(None, RejectedWithValue(MissingTokenMessage))
    ensures SendMessageThunk(auth, form, send) == ThunkRun(None, RejectedWithValue(MissingTokenMessage))
  {
  }

  /** The token is the auth slice's, not the chat slice's own `user`: after a
      logout in the auth slice no chat thunk reaches the service, whatever the
      chat slice still holds, and its rejection changes no chat payload. */
  lemma LogoutStopsChatCalls(auth: AuthSlice.AuthState, chat: ChatState, form: SendForm,
                             send: (string, SendForm) -> Outcome<SendForm>)
    ensures var out := AuthSlice.Reduce(auth, AuthSlice.LogoutFulfilled);
            SendMessageThunk(out, form, send).calledWith == None
    ensures var out := AuthSlice.Reduce(auth, AuthSlice.LogoutFulfilled);
            var r := Reduce(chat, Completion(SendMessage, SendMessageThunk(out, form, send).settlement, f => SendMessageFulfilled(f)));
            r.status.isError && r.sendMessage == chat.sendMessage && r.user == chat.user
  {
  }

  // ---------------------------------------------------------------------------
  // The frame of every case

  datatype ChatField = UserField | UserDataField | LoadingFlag | ErrorFlag | SuccessFlag
                     | MessageListField | MessageDetailField | SendMessageField

  function Writes(a: ChatAction): set<ChatField>
  {
    match a
    case Reset => {LoadingFlag, ErrorFlag, SuccessFlag, MessageListField, MessageDetailField}
    case Pending(_) => {LoadingFlag}
    case Rejected(_) => {LoadingFlag, SuccessFlag, ErrorFlag}
    case MessageListFulfilled(_) => {LoadingFlag, SuccessFlag, MessageListField}
    case MessageDetailFulfilled(_) => {LoadingFlag, SuccessFlag, MessageDetailField}
    case UserDataFulfilled(_) => {LoadingFlag, SuccessFlag, UserDataField}
    case SendMessageFulfilled(_) => {LoadingFlag, SuccessFlag, SendMessageField}
  }

  predicate Agree(s: ChatState, t: ChatState, f: ChatField)
  {
    match f
    case UserField => s.user == t.user
    case UserDataField => s.userData == t.userData
    case LoadingFlag => s.status.isLoading == t.status.isLoading
    case ErrorFlag => s.status.isError == t.status.isError
    case SuccessFlag => s.status.isSuccess == t.status.isSuccess
    case MessageListField => s.messageList == t.messageList
    case MessageDetailField => s.messageDetail == t.messageDetail
    case SendMessageField => s.sendMessage == t.sendMessage
  }

  /** No case changes a field it does not assign: each fulfilled case replaces
      exactly one payload and each rejected case none. */
  lemma ReduceWritesOnly(s: ChatState, a: ChatAction)
    ensures forall f :: f !in Writes(a) ==> Agree(s, Reduce(s, a), f)
  {
  }

  lemma ReduceStatus(s: ChatState, a: ChatAction)
    ensures Reduce(s, a).status == Next(s.status, PhaseOf(a))
  {
  }

  // ---------------------------------------------------------------------------
  // Properties of single cases

  /** `reset` lowers the flags and empties both lists, keeping the counterpart
      profile and the last sent message; it is idempotent. */
  lemma ResetClearsLists(s: ChatState)
    ensures Reduce(s, Reset).status == Idle
    ensures Reduce(s, Reset).messageList == [] && Reduce(s, Reset).messageDetail == []
    ensures Reduce(s, Reset).userData == s.userData && Reduce(s, Reset).sendMessage == s.sendMessage
    ensures Reduce(Reduce(s, Reset), Reset) == Reduce(s, Reset)
  {
  }

  /** `reset` brings back the initial state except for the counterpart's
      profile and the last sent message, which it keeps; the initial state is
      therefore one that `reset` leaves alone. */
  lemma ResetRestoresInitial(s: ChatState, persisted: Option<Session>)
    ensures Reduce(s, Reset) == Initial(s.user).(userData := s.userData, sendMessage := s.sendMessage)
    ensures Reduce(Initial(persisted), Reset) == Initial(persisted)
    ensures Initial(persisted).user == persisted
  {
  }

  /** Every pending case only raises isLoading. */
  lemma PendingOnlyStartsLoading(s: ChatState, t: ChatThunk)
    ensures Reduce(s, Pending(t)).status.isLoading
    ensures Reduce(s, Pending(t)).status == s.status.(isLoading := true)
    ensures Reduce(s, Pending(t)).(status := s.status) == s
  {
  }

  /** Each fulfilled case stores its payload wholesale, lowers isLoading, raises
      isSuccess and keeps isError. */
  lemma FulfilledReplacesPayload(s: ChatState, list: seq<MessageData>, data: UserData, sent: SendForm)
    ensures Reduce(s, MessageListFulfilled(list)).messageList == list
    ensures Reduce(s, MessageDetailFulfilled(list)).messageDetail == list
    ensures Reduce(s, UserDataFulfilled(data)).userData == Some(data)
    ensures Reduce(s, SendMessageFulfilled(sent)).sendMessage == Some(sent)
    ensures forall a :: PhaseOf(a) == Succeed ==>
              !Reduce(s, a).status.isLoading && Reduce(s, a).status.isSuccess &&
              Reduce(s, a).status.isError == s.status.isError
  {
  }

  /** Every rejected case sets the flags to "failed" and keeps every payload. */
  lemma RejectedKeepsPayloads(s: ChatState, t: ChatThunk)
    ensures Reduce(s, Rejected(t)) == s.(status := Status(false, true, false))
  {
  }

  // ---------------------------------------------------------------------------
  // Properties of runs

  /** The chat slice's `user` is fixed at start-up: no run changes it, which is
      why the thunks must read the token from the auth slice. */
  lemma {:induction false} RunKeepsUser(s: ChatState, actions: seq<ChatAction>)
    ensures Run(s, actions).user == s.user
    decreases |actions|
  {
    if actions != [] {
      RunKeepsUser(Reduce(s, actions[0]), actions[1..]);
    }
  }

  /** An action sequence meant to move the flags through the given phases. No
      case of this slice keeps the flags, so the lemma below admits only
      start, succeed and fail phases. */
  function Drive(ps: seq<Phase>): seq<ChatAction>
  {
    if ps == [] then []
    else
      [match ps[0]
       case Start => Pending(FetchMessageList)
       case Succeed => MessageListFulfilled([])
       case Fail => Rejected(FetchMessageList)
       case Clear => Reset
       case Keep => Pending(FetchMessageList)] + Drive(ps[1..])
  }

  lemma {:induction false} DriveFollowsPhases(s: ChatState, ps: seq<Phase>)
    requires forall i :: 0 <= i < |ps| ==> ps[i] in {Start, Succeed, Fail}
    ensures Run(s, Drive(ps)).status == NextAll(s.status, ps)
    decreases |ps|
  {
    if ps != [] {
      var a := Drive(ps)[0];
      assert Drive(ps)[1..] == Drive(ps[1..]);
      ReduceStatus(s, a);
      DriveFollowsPhases(Reduce(s, a), ps[1..]);
    }
  }

  /** All eight combinations of the three flags are reachable from the initial state. */
  lemma EveryStatusReachableInChat(persisted: Option<Session>, target: Status)
    ensures exists actions :: Run(Initial(persisted), actions).status == target
  {
    EveryStatusReachable(target);
    DriveFollowsPhases(Initial(persisted), PhasesTo(target));
  }

  // ---------------------------------------------------------------------------
  // The slice as the store holds it

  class ChatStore {
    var user: Option<Session>
    var userData: Option<UserData>
    var isError: bool
    var isSuccess: bool
    var isLoading: bool
    var messageList: seq<MessageData>
    var messageDetail: seq<MessageData>
    var sendMessage: Option<SendForm>

    function State(): ChatState
      reads this
    {
      ChatState(user, userData, Status(isLoading, isError, isSuccess), messageList, messageDetail, sendMessage)
    }

    constructor (persisted: Option<Session>)
      ensures State() == Initial(persisted)
    {
      user := persisted;
      userData := None;
      isError := false;
      isSuccess := false;
      isLoading := false;
      messageList := [];
      messageDetail := [];
      sendMessage := None;
    }

    method Dispatch(a: ChatAction)
      modifies this
      ensures State() == Reduce(old(State()), a)
    {
      match a {
        case Reset =>
          isLoading := false;
          isError := false;
          isSuccess := false;
          messageList := [];
          messageDetail := [];
        case Pending(_) =>
          isLoading := true;
        case Rejected(_) =>
          isLoading := false;
          isSuccess := false;
          isError := true;
        case MessageListFulfilled(list) =>
          isLoading := false;
          isSuccess := true;
          messageList := list;
        case MessageDetailFulfilled(detail) =>
          isLoading := false;
          isSuccess := true;
          messageDetail := detail;
        case UserDataFulfilled(data) =>
          userData := Some(data);
          isLoading := false;
          isSuccess := true;
        case SendMessageFulfilled(sent) =>
          sendMessage := Some(sent);
          isLoading := false;
          isSuccess := true;
      }
    }
  }
}
