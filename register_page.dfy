/** The registration page: four text inputs, a student/recruiter toggle, a
    submit handler that validates before dispatching `register`, and an effect
    that reacts to the auth slice. */
module RegisterPage {
  import opened Common
  import AuthSlice

  datatype Role = Student | Recruiter

  datatype RegisterForm = RegisterForm(username: string, email: string, password: string, re_password: string, role: Role)

  const InitialForm: RegisterForm := RegisterForm("", "", "", "", Student)

  /** The `name` attributes of the page's inputs; none of them is `role`. */
  datatype FieldName = Username | Email | Password | RePassword

  function FieldValue(f: RegisterForm, n: FieldName): string
  {
    match n
    case Username => f.username
    case Email => f.email
    case Password => f.password
    case RePassword => f.re_password
  }

  /** `handleChange`: `{ ...formData, [name]: value }`. */
  function HandleChange(f: RegisterForm, n: FieldName, value: string): RegisterForm
  {
    match n
    case Username => f.(username := value)
    case Email => f.(email := value)
    case Password => f.(password := value)
    case RePassword => f.(re_password := value)
  }

  /** A change writes the named field and leaves the other fields and the role alone. */
  lemma ChangeWritesOnlyThatField(f: RegisterForm, n: FieldName, value: string)
    ensures FieldValue(HandleChange(f, n, value), n) == value
    ensures forall m :: m != n ==> FieldValue(HandleChange(f, n, value), m) == FieldValue(f, m)
    ensures HandleChange(f, n, value).role == f.role
  {
  }

  const EmptyFieldsMessage: string := "すべてのフィールドを入力してください"
  const MismatchMessage: string := "パスワードが一致しません"

  /** What a submit does: show an error toast, or dispatch `register` once. */
  datatype SubmitOutcome = ShowError(text: string) | DispatchRegister(userData: RegisterForm)

  /** Every input holds something. */
  predicate AllFilled(f: RegisterForm)
  {
    forall n: FieldName :: FieldValue(f, n) != ""
  }

  function RoleFor(isStudent: bool): Role
  {
    if isStudent then Student else Recruiter
  }

  /** `handleSubmit`: the empty-field check runs first, then the password
      match; a valid form is dispatched with its four fields as typed and the
      role taken from the toggle, never from `formData.role`. */
  function HandleSubmit(f: RegisterForm, isStudent: bool): (r: SubmitOutcome)
    ensures r.DispatchRegister? <==> AllFilled(f) && f.password == f.re_password
    ensures !AllFilled(f) ==> r == ShowError(EmptyFieldsMessage)
    ensures AllFilled(f) && f.password != f.re_password ==> r == ShowError(MismatchMessage)
    ensures r.DispatchRegister? ==>
              (forall n :: FieldValue(r.userData, n) == FieldValue(f, n)) &&
              (r.userData.role == Student <==> isStudent)
  {
    if f.username == "" || f.email == "" || f.password == "" || f.re_password == "" then
      assert FieldValue(f, Username) == "" || FieldValue(f, Email) == "" ||
             FieldValue(f, Password) == "" || FieldValue(f, RePassword) == "";
      ShowError(EmptyFieldsMessage)
    else if f.password != f.re_password then
      ShowError(MismatchMessage)
    else
      DispatchRegister(RegisterForm(f.username, f.email, f.password, f.re_password, RoleFor(isStudent)))
  }

  /** The role a user picked in the form never reaches the request. */
  lemma SubmitIgnoresFormRole(f: RegisterForm, role: Role, isStudent: bool)
    ensures HandleSubmit(f, isStudent) == HandleSubmit(f.(role := role), isStudent)
  {
    assert forall n :: FieldValue(f, n) == FieldValue(f.(role := role), n);
  }

  /** From the initial form, typing a password and a different confirmation is
      refused as empty while any other input is still blank. */
  lemma EmptinessWinsOverMismatch(p: string, q: string, isStudent: bool)
    requires p != q
    ensures HandleSubmit(HandleChange(HandleChange(InitialForm, Password, p), RePassword, q), isStudent)
            == ShowError(EmptyFieldsMessage)
  {
  }

  // ---------------------------------------------------------------------------
  // The effect on the auth slice

  const SentMailMessage: string := "確認メールを送信しました。認証を完了してください。"

  /** The effect: toast the slice's message on error; on success or with a
      session present, go home, reset the slice and toast. */
  function Reaction(auth: AuthSlice.AuthState): seq<Effect<Option<string>>>
  {
    (if auth.status.isError then [ToastError(auth.message)] else [])
    + (if auth.status.isSuccess || auth.user.Some? then [Navigate("/"), DispatchReset, ToastSuccess(SentMailMessage)] else [])
  }

  /** A rejected registration only toasts its reason: it drops the session and
      lowers isSuccess, so the page stays. */
  lemma RejectedRegistrationStays(s: AuthSlice.AuthState, reason: Option<string>)
    ensures Reaction(AuthSlice.Reduce(s, AuthSlice.Rejected(AuthSlice.Register, reason))) == [ToastError(reason)]
  {
  }

  /** A fulfilled registration leaves the page and resets the slice; after the
      reset, with no session and no error, the effect does nothing more. */
  lemma FulfilledRegistrationLeaves(s: AuthSlice.AuthState)
    requires !s.status.isError
    ensures Reaction(AuthSlice.Reduce(s, AuthSlice.RegisterFulfilled)) == [Navigate("/"), DispatchReset, ToastSuccess(SentMailMessage)]
    ensures s.user.None? ==>
              Reaction(AuthSlice.Reduce(AuthSlice.Reduce(s, AuthSlice.RegisterFulfilled), AuthSlice.Reset)) == []
  {
  }

  /** A visitor who already has a session is sent home even with every flag down. */
  lemma SessionAloneNavigates(s: AuthSlice.AuthState)
    requires s.user.Some? && s.status == Idle
    ensures Reaction(s) == [Navigate("/"), DispatchReset, ToastSuccess(SentMailMessage)]
  {
  }
}
