/** Values and rules shared by the three store slices: the persisted session
    record, the abstract outcome of a service call, how every async thunk turns
    that outcome into a settlement, the client-side access-token guard, and the
    three status flags every slice carries. */
module Common {

  datatype Option<+T> = None | Some(value: T)

  /** An uploaded file, known only by its identity. */
  datatype File = File(id: nat)

  /** A user's public profile as the profile endpoints return it. */
  datatype ProfileData = ProfileData(affiliation: string, company: string, industry: string, bio: string, profile_image: string)
  datatype UserData = UserData(username: string, email: string, role: string, profile: Option<ProfileData>)

  /** The credential record the login endpoint returns and the client keeps in
      local storage under the key "user". Either token may be missing. */
  datatype Session = Session(access: Option<string>, refresh: Option<string>)

  /** JavaScript truthiness of a possibly-undefined string. */
  predicate Truthy(s: Option<string>)
  {
    s.Some? && s.value != ""
  }

  /** `user?.access` */
  function AccessToken(user: Option<Session>): Option<string>
  {
    match user
    case None => None
    case Some(u) => u.access
  }

  /** The fixed rejection value of every token guard. */
  const MissingTokenMessage: string := "アクセストークンがありません。"

  /** What a service call can throw: an `Error` instance, given by its
      `message` and by what its `toString()` yields, or any other value. */
  datatype Thrown = ErrorInstance(message: string, text: string) | OtherValue

  /** The abstract result of one call into a service module. */
  datatype Outcome<+T> = Ok(value: T) | Err(thrown: Thrown)

  /** How a thunk's payload creator ends: it returns a value, it returns
      `rejectWithValue(reason)`, or it rethrows what the service threw. */
  datatype Settlement<+T> = Fulfilled(value: T) | RejectedWithValue(reason: string) | Rethrown

  /** One run of a token-guarded thunk: the token the service was called with
      (None when no service call was made) and how the run settled. */
  datatype ThunkRun<+T> = ThunkRun(calledWith: Option<string>, settlement: Settlement<T>)

  /** The try/catch every thunk wraps around its service call. */
  function Settle<T>(o: Outcome<T>): Settlement<T>
  {
    match o
    case Ok(v) => Fulfilled(v)
    case Err(ErrorInstance(message, text)) => RejectedWithValue(if message != "" then message else text)
    case Err(OtherValue) => Rethrown
  }

  /** The payload of the `rejected` action a settlement leads to; None is
      `undefined`, which Redux Toolkit puts there when the creator rethrew. */
  function RejectionPayload<T>(st: Settlement<T>): Option<string>
    requires !st.Fulfilled?
  {
    if st.RejectedWithValue? then Some(st.reason) else None
  }

  /** A thrown Error is rejected with its message, or with its string form when
      the message is empty; an Ok fulfils with its value; anything else is
      rethrown. */
  lemma SettleMapsErrors<T>(o: Outcome<T>)
    ensures o.Ok? ==> Settle(o) == Fulfilled(o.value)
    ensures o.Err? && o.thrown.ErrorInstance? && o.thrown.message != "" ==>
              Settle(o) == RejectedWithValue(o.thrown.message)
    ensures o.Err? && o.thrown.ErrorInstance? && o.thrown.message == "" ==>
              Settle(o) == RejectedWithValue(o.thrown.text)
    ensures o == Err(OtherValue) <==> Settle(o) == Rethrown
  {
  }

  /** A thunk that reads an access token first: without a truthy token it
      rejects with the fixed message and calls nothing; otherwise it calls the
      service once, with that very token. */
  function Guarded<T>(token: Option<string>, service: string -> Outcome<T>): (r: ThunkRun<T>)
    ensures r.calledWith.Some? <==> Truthy(token)
    ensures r.calledWith.Some? ==> r.calledWith == token && r.settlement == Settle(service(token.value))
    ensures r.calledWith.None? ==> r.settlement == RejectedWithValue(MissingTokenMessage)
  {
    if Truthy(token) then ThunkRun(token, Settle(service(token.value)))
    else ThunkRun(None, RejectedWithValue(MissingTokenMessage))
  }

  // ---------------------------------------------------------------------------
  // What a page does with a change of slice state

  /** A toast (error or success), a navigation, or a dispatched `reset`;
      `M` is whatever the error toast is handed. */
  datatype Effect<+M> = ToastError(message: M) | ToastSuccess(text: string) | Navigate(path: string) | DispatchReset

  // ---------------------------------------------------------------------------
  // The status flags

  /** The three flags every slice carries. */
  datatype Status = Status(isLoading: bool, isError: bool, isSuccess: bool)

  const Idle: Status := Status(false, false, false)

  /** How one reducer case treats the flags. */
  datatype Phase = Start | Succeed | Fail | Clear | Keep

  /** The flags after a case of the given phase: `pending` only raises
      isLoading, `fulfilled` lowers isLoading and raises isSuccess, `rejected`
      lowers isLoading and isSuccess and raises isError, `reset` lowers all. */
  function Next(s: Status, p: Phase): Status
  {
    match p
    case Start => s.(isLoading := true)
    case Succeed => s.(isLoading := false, isSuccess := true)
    case Fail => Status(false, true, false)
    case Clear => Idle
    case Keep => s
  }

  function NextAll(s: Status, ps: seq<Phase>): Status
    decreases |ps|
  {
    if ps == [] then s else NextAll(Next(s, ps[0]), ps[1..])
  }

  /** A phase sequence that leads from Idle to the given flags. */
  function PhasesTo(target: Status): seq<Phase>
  {
    (if target.isError then [Fail] else [])
    + (if target.isSuccess then [Succeed] else [])
    + (if target.isLoading then [Start] else [])
  }

  lemma {:induction false} NextAllAppend(s: Status, ps: seq<Phase>, qs: seq<Phase>)
    ensures NextAll(s, ps + qs) == NextAll(NextAll(s, ps), qs)
    decreases |ps|
  {
    if ps == [] {
      assert ps + qs == qs;
    } else {
      assert (ps + qs)[1..] == ps[1..] + qs;
      NextAllAppend(Next(s, ps[0]), ps[1..], qs);
    }
  }

  /** Every one of the eight flag combinations is reached from Idle, so the
      flags are not a one-hot status: after a failure and then a success both
      isError and isSuccess hold. */
  lemma EveryStatusReachable(target: Status)
    ensures NextAll(Idle, PhasesTo(target)) == target
    ensures forall i :: 0 <= i < |PhasesTo(target)| ==> PhasesTo(target)[i] in {Start, Succeed, Fail}
  {
    var e: seq<Phase> := if target.isError then [Fail] else [];
    var s: seq<Phase> := if target.isSuccess then [Succeed] else [];
    var l: seq<Phase> := if target.isLoading then [Start] else [];
    NextAllAppend(Idle, e + s, l);
    NextAllAppend(Idle, e, s);
  }
}
