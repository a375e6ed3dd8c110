/** The profile edit page: a form over the account fields and a nested
    profile, a change handler that routes each input either to the top level
    or into the profile, and a submit handler that dispatches `update`. */
module ProfileEdit {
  import opened Common
  import opened AuthSlice

  // ---------------------------------------------------------------------------
  // The form as a value, as the change handler rebuilds it

  /** The initial form: every string empty, no image. */
  const InitialForm: UpdateData := UpdateData("", "", "", ProfileFields("", "", "", "", None))

  /** The text-valued keys of the form, top-level or inside `profile`. */
  datatype Field = Username | Email | Role | Affiliation | Company | Industry | Bio

  /** The input `name` that addresses each field. */
  function Key(f: Field): string
  {
    match f
    case Username => "username"
    case Email => "email"
    case Role => "role"
    case Affiliation => "affiliation"
    case Company => "company"
    case Industry => "industry"
    case Bio => "bio"
  }

  /** The keys of the form object itself; `name in formData` tests these. */
  const TopLevelKeys: set<string> := {"username", "email", "role", "profile"}

  function Get(form: UpdateData, f: Field): string
  {
    match f
    case Username => form.username
    case Email => form.email
    case Role => form.role
    case Affiliation => form.profile.affiliation
    case Company => form.profile.company
    case Industry => form.profile.industry
    case Bio => form.profile.bio
  }

  /** The spread `{ ...formData, [name]: value }`. */
  function SetTop(form: UpdateData, f: Field, value: string): UpdateData
    requires Key(f) in TopLevelKeys
  {
    match f
    case Username => form.(username := value)
    case Email => form.(email := value)
    case Role => form.(role := value)
  }

  /** The nested spread `{ ...formData, profile: { ...formData.profile, [name]: value } }`. */
  function SetNested(form: UpdateData, f: Field, value: string): UpdateData
    requires Key(f) !in TopLevelKeys
  {
    match f
    case Affiliation => form.(profile := form.profile.(affiliation := value))
    case Company => form.(profile := form.profile.(company := value))
    case Industry => form.(profile := form.profile.(industry := value))
    case Bio => form.(profile := form.profile.(bio := value))
  }

  /** What a change event carries: the file list of the image input, or a text input's name and value. */
  datatype ChangeEvent = FileChange(files: seq<File>) | TextChange(field: Field, value: string)

  /** The page's local state touched by changes: the form and the picked image. */
  datatype EditState = EditState(form: UpdateData, profileImage: Option<File>)

  /** `handleChange`. A file input with files puts the first into the form and
      into `profileImage`; an emptied file input clears only `profileImage`.
      A text input goes to the top level when its name is a key of the form,
      and into the profile otherwise. */
  function HandleChange(st: EditState, e: ChangeEvent): EditState
  {
    match e
    case FileChange(files) =>
      if |files| > 0 then EditState(st.form.(profile := st.form.profile.(profile_image := Some(files[0]))), Some(files[0]))
      else st.(profileImage := None)
    case TextChange(f, value) =>
      if Key(f) in TopLevelKeys then st.(form := SetTop(st.form, f, value))
      else st.(form := SetNested(st.form, f, value))
  }

  /** The routing: exactly username, email and role are top-level. */
  lemma RoutingByKey(f: Field)
    ensures Key(f) in TopLevelKeys <==> f in {Username, Email, Role}
  {
  }

  /** A text change writes the named field, leaves every other field, the image
      in the form and the picked image alone; a nested change leaves all
      top-level fields alone and a top-level change leaves the whole profile. */
  lemma TextChangeWritesOnlyThatField(st: EditState, f: Field, value: string)
    ensures var after := HandleChange(st, TextChange(f, value));
            && Get(after.form, f) == value
            && (forall g :: g != f ==> Get(after.form, g) == Get(st.form, g))
            && after.form.profile.profile_image == st.form.profile.profile_image
            && after.profileImage == st.profileImage
            && (Key(f) in TopLevelKeys ==> after.form.profile == st.form.profile)
            && (Key(f) !in TopLevelKeys ==>
                  after.form.username == st.form.username && after.form.email == st.form.email && after.form.role == st.form.role)
  {
  }

  /** A file input with files sets the form's image to the first file and
      changes no text field; one with no files leaves the form as it was. */
  lemma FileChangeRules(st: EditState, files: seq<File>)
    ensures var after := HandleChange(st, FileChange(files));
            && (forall g :: Get(after.form, g) == Get(st.form, g))
            && (|files| > 0 ==> after.form.profile.profile_image == Some(files[0]) && after.profileImage == Some(files[0]))
            && (|files| == 0 ==> after.form == st.form && after.profileImage == None)
  {
  }

  /** Cancelling the file dialog after picking an image leaves that image in
      the form, so it is still submitted, although `profileImage` is cleared. */
  lemma CancelKeepsPickedImage(st: EditState, picked: File)
    ensures var after := HandleChange(HandleChange(st, FileChange([picked])), FileChange([]));
            after.form.profile.profile_image == Some(picked) && after.profileImage == None
  {
  }

  /** The affiliation input is drawn for role "student", the company input for "recruiter". */
  predicate ShowsAffiliation(form: UpdateData) { form.role == "student" }

  predicate ShowsCompany(form: UpdateData) { form.role == "recruiter" }

  /** Never both; neither for any other role, the empty role of the initial form included. */
  lemma RoleFieldsExclusive(form: UpdateData)
    ensures !(ShowsAffiliation(form) && ShowsCompany(form))
    ensures form.role !in {"student", "recruiter"} <==> !ShowsAffiliation(form) && !ShowsCompany(form)
    ensures !ShowsAffiliation(InitialForm) && !ShowsCompany(InitialForm)
  {
  }

  // ---------------------------------------------------------------------------
  // The form as objects, as the submit handler writes through them

  /** The nested profile object of the form state. */
  class ProfileObject {
    var affiliation: string
    var company: string
    var industry: string
    var bio: string
    var profileImage: Option<File>

    constructor (v: ProfileFields)
      ensures Value() == v
    {
      affiliation, company, industry, bio, profileImage := v.affiliation, v.company, v.industry, v.bio, v.profile_image;
    }

    function Value(): ProfileFields
      reads this
    {
      ProfileFields(affiliation, company, industry, bio, profileImage)
    }
  }

  /** `formData` itself, or any record built over the same profile object. */
  class FormObject {
    var username: string
    var email: string
    var role: string
    var profile: ProfileObject

    constructor (username: string, email: string, role: string, profile: ProfileObject)
      ensures this.username == username && this.email == email && this.role == role && this.profile == profile
    {
      this.username, this.email, this.role, this.profile := username, email, role, profile;
    }

    function Value(): UpdateData
      reads this, profile
    {
      UpdateData(username, email, role, profile.Value())
    }
  }

  /** `handleSubmit`. The request record shares `formData`'s profile object;
      when a preview exists the image is written through that alias, which
      stores the value it already holds. `update` is dispatched only for a
      truthy route id, with the form as it stands. */
  method HandleSubmit(formData: FormObject, profileImagePreview: string, uidString: Option<string>)
      returns (dispatched: Option<(UpdateData, string)>)
    modifies formData.profile
    ensures formData.Value() == old(formData.Value())
    ensures dispatched.Some? <==> Truthy(uidString)
    ensures dispatched.Some? ==> dispatched.value == (old(formData.Value()), uidString.value)
  {
    var userData := new FormObject(formData.username, formData.email, formData.role, formData.profile);
    if profileImagePreview != "" {
      userData.profile.profileImage := formData.profile.profileImage;
    }
    if uidString.Some? && uidString.value != "" {
      dispatched := Some((userData.Value(), uidString.value));
    } else {
      dispatched := None;
    }
  }

  // ---------------------------------------------------------------------------
  // The effect on the auth slice

  const UpdatedMessage: string := "ユーザー情報を更新しました。"
  const MyPagePath: string := "/mypage"

  /** The effect: toast the slice's message on error; on success toast, go to
      the profile page and reset the slice. */
  function Reaction(auth: AuthState): seq<Effect<Option<string>>>
  {
    (if auth.status.isError then [ToastError(auth.message)] else [])
    + (if auth.status.isSuccess then [ToastSuccess(UpdatedMessage), Navigate(MyPagePath), DispatchReset] else [])
  }

  /** A fulfilled update on a clean slice leaves for "/mypage" and resets; the
      reset leaves nothing for the effect to do. */
  lemma FulfilledUpdateLeaves(s: AuthState, info: UserInfo)
    requires !s.status.isError
    ensures Reaction(Reduce(s, UpdateFulfilled(info))) == [ToastSuccess(UpdatedMessage), Navigate(MyPagePath), DispatchReset]
    ensures Reaction(Reduce(Reduce(s, UpdateFulfilled(info)), Reset)) == []
  {
  }

  /** Submitting without an access token toasts the missing-token message and
      the page stays, the service never being called. */
  lemma NoTokenToastsMissingToken(s: AuthState, userData: UpdateData, uid: string,
                                  service: (UpdateData, string, string) -> Outcome<UserInfo>)
    requires !Truthy(AccessToken(s.user))
    ensures UpdateThunk(s, userData, uid, service).calledWith == None
    ensures Reaction(Reduce(s, Completion(Update, UpdateThunk(s, userData, uid, service).settlement, i => UpdateFulfilled(i))))
            == [ToastError(Some(MissingTokenMessage))]
  {
  }
}
