/** The new-product page: three text inputs and a thumbnail picker over one
    form, a submit that dispatches `post` with the form as it stands, and an
    effect that reacts to the product slice. */
module ProductPost {
  import opened Common
  import opened ProductSlice

  const InitialForm: PostData := PostData("", "", None, "")

  /** The text inputs, by `name`. */
  datatype PostField = Title | Detail | DetailUrl

  function Get(form: PostData, f: PostField): string
  {
    match f
    case Title => form.title
    case Detail => form.detail
    case DetailUrl => form.detail_url
  }

  datatype ChangeEvent = FileChange(files: seq<File>) | TextChange(field: PostField, value: string)

  /** The form and the separately kept `thumbnail` state. */
  datatype PostState = PostState(form: PostData, thumbnail: Option<File>)

  /** `handleChange`: a file input with files stores the first one, both in the
      form and in `thumbnail`; one with no files clears only `thumbnail`; a
      text input sets the field its name addresses. */
  function HandleChange(st: PostState, e: ChangeEvent): PostState
  {
    match e
    case FileChange(files) =>
      if |files| > 0 then PostState(st.form.(thumbnail := Some(files[0])), Some(files[0]))
      else st.(thumbnail := None)
    case TextChange(f, value) =>
      match f
      case Title => st.(form := st.form.(title := value))
      case Detail => st.(form := st.form.(detail := value))
      case DetailUrl => st.(form := st.form.(detail_url := value))
  }

  /** A text change sets its field and nothing else, neither the form's
      thumbnail nor the picked one. */
  lemma TextChangeWritesOnlyThatField(st: PostState, f: PostField, value: string)
    ensures var after := HandleChange(st, TextChange(f, value));
            && Get(after.form, f) == value
            && (forall g :: g != f ==> Get(after.form, g) == Get(st.form, g))
            && after.form.thumbnail == st.form.thumbnail && after.thumbnail == st.thumbnail
  {
  }

  /** A file change touches no text field; with files it sets the form's
      thumbnail to the first one, without files it leaves the form as it was. */
  lemma FileChangeRules(st: PostState, files: seq<File>)
    ensures var after := HandleChange(st, FileChange(files));
            && (forall g :: Get(after.form, g) == Get(st.form, g))
            && (|files| > 0 ==> after.form.thumbnail == Some(files[0]) && after.thumbnail == Some(files[0]))
            && (|files| == 0 ==> after.form == st.form && after.thumbnail == None)
  {
  }

  /** `handleSubmit`: no validation; the request carries the form copied field by field. */
  function HandleSubmit(form: PostData): (r: ProductRequest)
    ensures r.RequestPost?
    ensures r.postData.title == form.title && r.postData.detail == form.detail
    ensures r.postData.thumbnail == form.thumbnail && r.postData.detail_url == form.detail_url
  {
    RequestPost(PostData(form.title, form.detail, form.thumbnail, form.detail_url))
  }

  /** Submitting an untouched form still posts, with empty texts and no thumbnail. */
  lemma EmptyFormIsPosted()
    ensures HandleSubmit(InitialForm) == RequestPost(PostData("", "", None, ""))
  {
  }

  // ---------------------------------------------------------------------------
  // The effect on the product slice

  const PostedMessage: string := "投稿が完了しました！"
  const HomePath: string := "/"

  /** The effect: toast the slice's `message` on error; on success go home,
      toast and reset the slice. */
  function Reaction(s: ProductState): seq<Effect<Message>>
  {
    (if s.status.isError then [ToastError(s.message)] else [])
    + (if s.status.isSuccess then [Navigate(HomePath), ToastSuccess(PostedMessage), DispatchReset] else [])
  }

  /** In every state the slice can reach, the error toast is handed the empty
      string or a `post` response, never a reason for the failure. */
  lemma ErrorToastCarriesNoReason(persisted: Option<Session>, actions: seq<ProductAction>)
    ensures forall e :: e in Reaction(Run(Initial(persisted), actions)) && e.ToastError? ==>
              e.message == Text("") || e.message.Created?
  {
    ReachableMessageShape(persisted, actions);
  }

  /** A post refused for want of a stored token toasts whatever `message`
      held before, not the missing-token text, and the page stays. */
  lemma NoTokenToastsOldMessage(s: ProductState, storage: map<string, Session>, postData: PostData,
                                service: (PostData, string) -> Outcome<Product>)
    requires !Truthy(StoredToken(storage))
    ensures Reaction(Reduce(s, Completion(Post, PostThunk(storage, postData, service).settlement, p => PostFulfilled(p))))
            == [ToastError(s.message)]
  {
    OnlyPostNeedsStoredToken(s, storage, postData, service, Ok([]), (id: int) => Err(OtherValue),
                             (uid: string) => Err(OtherValue), 0, "");
  }

  /** A successful post from a clean slice goes home and resets; once reset,
      the effect does nothing. After a failure, success also raises an error
      toast that is handed the created product. */
  lemma FulfilledPostLeaves(s: ProductState, response: Product)
    ensures !s.status.isError ==>
              Reaction(Reduce(s, PostFulfilled(response))) == [Navigate(HomePath), ToastSuccess(PostedMessage), DispatchReset]
    ensures Reaction(Reduce(Reduce(s, PostFulfilled(response)), Reset)) == []
    ensures Reaction(Reduce(Reduce(s, Rejected(Post)), PostFulfilled(response)))
            == [ToastError(Created(response)), Navigate(HomePath), ToastSuccess(PostedMessage), DispatchReset]
  {
  }
}
