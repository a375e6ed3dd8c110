/** The auth slice of the client store: the logged-in session (`user`), the
    fetched account (`userInfo`), the status flags and the last error message,
    driven by the pending/fulfilled/rejected actions of its eight async thunks
    and by `reset`. */
module AuthSlice {
  import opened Common

  datatype UserInfo = UserInfo(username: string, role: string, id: int, email: string)

  /** The slice state. `message` is None when a rejected action carried
      `undefined` (a rethrown non-Error value); it is a string otherwise. */
  datatype AuthState = AuthState(
    user: Option<Session>,
    userInfo: Option<UserInfo>,
    status: Status,
    message: Option<string>)

  /** The state at start-up: the session parsed from local storage, if any. */
  function Initial(persisted: Option<Session>): AuthState
  {
    AuthState(persisted, None, Idle, Some(""))
  }

  datatype AuthThunk =
    | Register | Login | Logout | Activate | ResetPassword | ResetPasswordConfirm
    | GetUserInfo | Update

  /** The thunks that are not gated by an access token. */
  predicate Unauthenticated(t: AuthThunk)
  {
    t in {Register, Login, Activate, ResetPassword, ResetPasswordConfirm}
  }

  /** The actions the slice's reducer receives. A `session` of None stands for
      a falsy response body. */
  datatype AuthAction =
    | Reset
    | Pending(thunk: AuthThunk)
    | Rejected(thunk: AuthThunk, reason: Option<string>)
    | RegisterFulfilled
    | LoginFulfilled(session: Option<Session>)
    | LogoutFulfilled
    | ActivateFulfilled(session: Option<Session>)
    | ResetPasswordFulfilled
    | ResetPasswordConfirmFulfilled
    | GetUserInfoFulfilled(info: UserInfo)
    | UpdateFulfilled(info: UserInfo)

  predicate IsFulfilled(a: AuthAction)
  {
    !(a.Reset? || a.Pending? || a.Rejected?)
  }

  /** How a case treats the flags; `logout` has only a fulfilled case, so its
      pending and rejected actions match no case. */
  function PhaseOf(a: AuthAction): Phase
  {
    match a
    case Reset => Clear
    case Pending(t) => if t == Logout then Keep else Start
    case Rejected(t, _) => if t == Logout then Keep else Fail
    case LogoutFulfilled => Keep
    case _ => Succeed
  }

  /** The reducer: the case reducers of `authSlice`, one action at a time. */
  function Reduce(s: AuthState, a: AuthAction): AuthState
  {
    match a
    case Reset => s.(status := Idle, message := Some(""))
    case Pending(t) => if t == Logout then s else s.(status := Next(s.status, Start))
    case Rejected(t, reason) =>
      if t == Logout then s
      else if Unauthenticated(t) then s.(status := Next(s.status, Fail), message := reason, user := None)
      else s.(status := Next(s.status, Fail), message := reason)
    case RegisterFulfilled => s.(status := Next(s.status, Succeed))
    case LoginFulfilled(session) => s.(status := Next(s.status, Succeed), user := session)
    case LogoutFulfilled => s.(user := None, userInfo := None)
    case ActivateFulfilled(session) => s.(status := Next(s.status, Succeed), user := session)
    case ResetPasswordFulfilled => s.(status := Next(s.status, Succeed))
    case ResetPasswordConfirmFulfilled => s.(status := Next(s.status, Succeed))
    case GetUserInfoFulfilled(info) => s.(status := Next(s.status, Succeed), userInfo := Some(info))
    case UpdateFulfilled(info) => s.(status := Next(s.status, Succeed), userInfo := Some(info))
  }

  function Run(s: AuthState, actions: seq<AuthAction>): AuthState
    decreases |actions|
  {
    if actions == [] then s else Run(Reduce(s, actions[0]), actions[1..])
  }

  // ---------------------------------------------------------------------------
  // Thunks

  /** `getUserInfo`: the token comes from the auth slice's own `user`. */
  function GetUserInfoThunk(auth: AuthState, service: string -> Outcome<UserInfo>): ThunkRun<UserInfo>
  {
    Guarded(AccessToken(auth.user), service)
  }

  /** The nested profile of an update; the profile-edit page sends `bio` too. */
  datatype ProfileFields = ProfileFields(affiliation: string, company: string, industry: string, bio: string, profile_image: Option<File>)
  datatype UpdateData = UpdateData(username: string, email: string, role: string, profile: ProfileFields)

  /** `update`: same guard; the service gets the form data, the token and the uid. */
  function UpdateThunk(auth: AuthState, userData: UpdateData, uidString: string,
                       service: (UpdateData, string, string) -> Outcome<UserInfo>): ThunkRun<UserInfo>
  {
    Guarded(AccessToken(auth.user), token => service(userData, token, uidString))
  }

  /** The settled action for a thunk whose fulfilled case is `onFulfilled`. */
  function Completion<T>(t: AuthThunk, st: Settlement<T>, onFulfilled: T -> AuthAction): AuthAction
  {
    match st
    case Fulfilled(v) => onFulfilled(v)
    case _ => Rejected(t, RejectionPayload(st))
  }

  // ---------------------------------------------------------------------------
  // The frame of every case

  datatype AuthField = UserField | UserInfoField | LoadingFlag | ErrorFlag | SuccessFlag | MessageField

  /** The fields a case assigns, read off the case reducers. */
  function Writes(a: AuthAction): set<AuthField>
  {
    match a
    case Reset => {LoadingFlag, ErrorFlag, SuccessFlag, MessageField}
    case Pending(t) => if t == Logout then {} else {LoadingFlag}
    case Rejected(t, _) =>
      if t == Logout then {}
      else if Unauthenticated(t) then {LoadingFlag, SuccessFlag, ErrorFlag, MessageField, UserField}
      else {LoadingFlag, SuccessFlag, ErrorFlag, MessageField}
    case LoginFulfilled(_) => {LoadingFlag, SuccessFlag, UserField}
    case ActivateFulfilled(_) => {LoadingFlag, SuccessFlag, UserField}
    case LogoutFulfilled => {UserField, UserInfoField}
    case GetUserInfoFulfilled(_) => {LoadingFlag, SuccessFlag, UserInfoField}
    case UpdateFulfilled(_) => {LoadingFlag, SuccessFlag, UserInfoField}
    case _ => {LoadingFlag, SuccessFlag}
  }

  predicate Agree(s: AuthState, t: AuthState, f: AuthField)
  {
    match f
    case UserField => s.user == t.user
    case UserInfoField => s.userInfo == t.userInfo
    case LoadingFlag => s.status.isLoading == t.status.isLoading
    case ErrorFlag => s.status.isError == t.status.isError
    case SuccessFlag => s.status.isSuccess == t.status.isSuccess
    case MessageField => s.message == t.message
  }

  /** No case changes a field it does not assign. */
  lemma ReduceWritesOnly(s: AuthState, a: AuthAction)
    ensures forall f :: f !in Writes(a) ==> Agree(s, Reduce(s, a), f)
  {
  }

  /** The flags move as the case's phase says. */
  lemma ReduceStatus(s: AuthState, a: AuthAction)
    ensures Reduce(s, a).status == Next(s.status, PhaseOf(a))
  {
  }

  // ---------------------------------------------------------------------------
  // Properties of single cases

  /** `reset` lowers the three flags, empties the message, keeps both payloads,
      and a second `reset` changes nothing. */
  lemma ResetClearsStatus(s: AuthState)
    ensures Reduce(s, Reset).status == Idle && Reduce(s, Reset).message == Some("")
    ensures Reduce(s, Reset).user == s.user && Reduce(s, Reset).userInfo == s.userInfo
    ensures Reduce(Reduce(s, Reset), Reset) == Reduce(s, Reset)
  {
  }

  /** Every pending case raises isLoading and touches nothing else, keeping
      isError, isSuccess and the message from before. */
  lemma PendingOnlyStartsLoading(s: AuthState, t: AuthThunk)
    requires t != Logout
    ensures Reduce(s, Pending(t)).status.isLoading
    ensures Reduce(s, Pending(t)).status.isError == s.status.isError
    ensures Reduce(s, Pending(t)).status.isSuccess == s.status.isSuccess
    ensures Reduce(s, Pending(t)).(status := s.status) == s
  {
  }

  /** Every fulfilled case lowers isLoading, raises isSuccess and leaves isError
      and the message as they were. */
  lemma FulfilledKeepsError(s: AuthState, a: AuthAction)
    requires IsFulfilled(a) && a != LogoutFulfilled
    ensures !Reduce(s, a).status.isLoading && Reduce(s, a).status.isSuccess
    ensures Reduce(s, a).status.isError == s.status.isError
    ensures Reduce(s, a).message == s.message
  {
  }

  /** Login and activate replace the session with their payload; getUserInfo
      and update replace only the account; the other three replace neither. */
  lemma FulfilledPayloads(s: AuthState, session: Option<Session>, info: UserInfo)
    ensures Reduce(s, LoginFulfilled(session)).user == session
    ensures Reduce(s, ActivateFulfilled(session)).user == session
    ensures Reduce(s, LoginFulfilled(session)).userInfo == s.userInfo
    ensures Reduce(s, ActivateFulfilled(session)).userInfo == s.userInfo
    ensures Reduce(s, GetUserInfoFulfilled(info)).userInfo == Some(info)
    ensures Reduce(s, UpdateFulfilled(info)).userInfo == Some(info)
    ensures Reduce(s, GetUserInfoFulfilled(info)).user == s.user
    ensures Reduce(s, UpdateFulfilled(info)).user == s.user
    ensures forall a :: a in {RegisterFulfilled, ResetPasswordFulfilled, ResetPasswordConfirmFulfilled} ==>
              Reduce(s, a).user == s.user && Reduce(s, a).userInfo == s.userInfo
  {
  }

  /** Every rejected case lowers isLoading and isSuccess, raises isError and
      stores the payload as the message; the five token-free thunks also drop
      the session, while getUserInfo and update keep it. */
  lemma RejectedSetsError(s: AuthState, t: AuthThunk, reason: Option<string>)
    requires t != Logout
    ensures Reduce(s, Rejected(t, reason)).status == Status(false, true, false)
    ensures Reduce(s, Rejected(t, reason)).message == reason
    ensures Reduce(s, Rejected(t, reason)).userInfo == s.userInfo
    ensures Reduce(s, Rejected(t, reason)).user == if Unauthenticated(t) then None else s.user
  {
  }

  /** After a rejected and then a fulfilled login both isError and isSuccess hold. */
  lemma ErrorSurvivesSuccess(s: AuthState, reason: Option<string>, session: Option<Session>)
    ensures var r := Run(s, [Rejected(Login, reason), LoginFulfilled(session)]);
            r.status.isError && r.status.isSuccess && !r.status.isLoading && r.message == reason
  {
    var s1 := Reduce(s, Rejected(Login, reason));
    assert [Rejected(Login, reason), LoginFulfilled(session)][1..] == [LoginFulfilled(session)];
    assert [LoginFulfilled(session)][1..] == [];
    assert Run(s1, [LoginFulfilled(session)]) == Reduce(s1, LoginFulfilled(session));
  }

  /** `logout` drops the session and the account, changes no flag and no
      message, and is idempotent. */
  lemma LogoutClearsSession(s: AuthState)
    ensures Reduce(s, LogoutFulfilled).user == None && Reduce(s, LogoutFulfilled).userInfo == None
    ensures Reduce(s, LogoutFulfilled).status == s.status && Reduce(s, LogoutFulfilled).message == s.message
    ensures Reduce(Reduce(s, LogoutFulfilled), LogoutFulfilled) == Reduce(s, LogoutFulfilled)
  {
  }

  /** Without a truthy access token in the auth slice, getUserInfo and update
      make no service call; their rejection leaves the session as it is and
      shows the fixed message. */
  lemma NoTokenRejects(s: AuthState, getInfo: string -> Outcome<UserInfo>,
                       userData: UpdateData, uid: string,
                       update: (UpdateData, string, string) -> Outcome<UserInfo>)
    requires !Truthy(AccessToken(s.user))
    ensures GetUserInfoThunk(s, getInfo).calledWith == None
    ensures UpdateThunk(s, userData, uid, update).calledWith == None
    ensures var r := Reduce(s, Completion(GetUserInfo, GetUserInfoThunk(s, getInfo).settlement, i => GetUserInfoFulfilled(i)));
            r.status.isError && r.message == Some(MissingTokenMessage) && r.user == s.user
    ensures var r := Reduce(s, Completion(Update, UpdateThunk(s, userData, uid, update).settlement, i => UpdateFulfilled(i)));
            r.status.isError && r.message == Some(MissingTokenMessage) && r.user == s.user
  {
  }

  /** A login whose service call throws an Error drops the session and shows
      the error's message. */
  lemma LoginErrorShowsMessage(s: AuthState, message: string, text: string)
    ensures var r := Reduce(s, Completion(Login, Settle<Option<Session>>(Err(ErrorInstance(message, text))), u => LoginFulfilled(u)));
            r.user == None && r.status.isError &&
            r.message == Some(if message != "" then message else text)
  {
  }

  // ---------------------------------------------------------------------------
  // Properties of runs

  /** The slice's message is empty whenever isError is false: only a rejected
      case stores a message, and only `reset` lowers isError, emptying it. */
  predicate Coherent(s: AuthState)
  {
    !s.status.isError ==> s.message == Some("")
  }

  lemma ReduceKeepsCoherent(s: AuthState, a: AuthAction)
    requires Coherent(s)
    ensures Coherent(Reduce(s, a))
  {
  }

  lemma {:induction false} RunKeepsCoherent(s: AuthState, actions: seq<AuthAction>)
    requires Coherent(s)
    ensures Coherent(Run(s, actions))
    decreases |actions|
  {
    if actions != [] {
      ReduceKeepsCoherent(s, actions[0]);
      RunKeepsCoherent(Reduce(s, actions[0]), actions[1..]);
    }
  }

  /** From the initial state, any run shows a non-empty message only with isError set. */
  lemma ReachableCoherent(persisted: Option<Session>, actions: seq<AuthAction>)
    ensures var r := Run(Initial(persisted), actions);
            r.message != Some("") ==> r.status.isError
  {
    RunKeepsCoherent(Initial(persisted), actions);
  }

  /** The action sequence that drives the flags through the given phases,
      using the register thunk. */
  function Drive(ps: seq<Phase>): seq<AuthAction>
  {
    if ps == [] then []
    else
      [match ps[0]
       case Start => Pending(Register)
       case Succeed => RegisterFulfilled
       case Fail => Rejected(Register, Some(""))
       case Clear => Reset
       case Keep => LogoutFulfilled] + Drive(ps[1..])
  }

  lemma {:induction false} DriveFollowsPhases(s: AuthState, ps: seq<Phase>)
    ensures Run(s, Drive(ps)).status == NextAll(s.status, ps)
    decreases |ps|
  {
    if ps != [] {
      var a := Drive(ps)[0];
      assert Drive(ps)[1..] == Drive(ps[1..]);
      ReduceStatus(s, a);
      DriveFollowsPhases(Reduce(s, a), ps[1..]);
    }
  }

  /** All eight combinations of the three flags are reachable from the initial state. */
  lemma EveryStatusReachableInAuth(persisted: Option<Session>, target: Status)
    ensures exists actions :: Run(Initial(persisted), actions).status == target
  {
    EveryStatusReachable(target);
    DriveFollowsPhases(Initial(persisted), PhasesTo(target));
  }

  // ---------------------------------------------------------------------------
  // The slice as the store holds it: fields updated in place

  class AuthStore {
    var user: Option<Session>
    var userInfo: Option<UserInfo>
    var isError: bool
    var isSuccess: bool
    var isLoading: bool
    var message: Option<string>

    function State(): AuthState
      reads this
    {
      AuthState(user, userInfo, Status(isLoading, isError, isSuccess), message)
    }

    constructor (persisted: Option<Session>)
      ensures State() == Initial(persisted)
    {
      user := persisted;
      userInfo := None;
      isError := false;
      isSuccess := false;
      isLoading := false;
      message := Some("");
    }

    /** The slice reducer applied to the draft state, one assignment at a time. */
    method Dispatch(a: AuthAction)
      modifies this
      ensures State() == Reduce(old(State()), a)
    {
      match a {
        case Reset =>
          isLoading := false;
          isError := false;
          isSuccess := false;
          message := Some("");
        case Pending(t) =>
          if t != Logout {
            isLoading := true;
          }
        case Rejected(t, reason) =>
          if t != Logout {
            isLoading := false;
            isSuccess := false;
            isError := true;
            message := reason;
            if Unauthenticated(t) {
              user := None;
            }
          }
        case LoginFulfilled(session) =>
          isLoading := false;
          isSuccess := true;
          user := session;
        case ActivateFulfilled(session) =>
          isLoading := false;
          isSuccess := true;
          user := session;
        case LogoutFulfilled =>
          user := None;
          userInfo := None;
        case GetUserInfoFulfilled(info) =>
          isLoading := false;
          isSuccess := true;
          userInfo := Some(info);
        case UpdateFulfilled(info) =>
          isLoading := false;
          isSuccess := true;
          userInfo := Some(info);
        case RegisterFulfilled =>
          isLoading := false;
          isSuccess := true;
        case ResetPasswordFulfilled =>
          isLoading := false;
          isSuccess := true;
        case ResetPasswordConfirmFulfilled =>
          isLoading := false;
          isSuccess := true;
      }
    }
  }
}
