/** The product page: it fetches the product named by the route, then its
    owner's profile, and lets a recruiter send the owner a scout message
    through the chat slice. */
module ProductDetail {
  import opened Common
  import ChatSlice
  import ProductSlice

  /** A thunk call the page dispatches, to the chat slice or the product slice. */
  datatype PageEvent = ToChat(chat: ChatSlice.ChatRequest) | ToProduct(product: ProductSlice.ProductRequest)

  /** The effect on the product slice's `productData`: whenever it holds a
      product, fetch that product's owner. */
  function ProductDataPlan(productData: Option<ProductSlice.Product>): seq<PageEvent>
  {
    if productData.Some? then [ToProduct(ProductSlice.RequestUser(productData.value.user))] else []
  }

  /** The fetch effects on mount, in declaration order: the product when the
      route id is truthy; the owner of whatever product the slice already
      holds; my own profile, for the role check. */
  function MountPlan(myUserId: int, uidString: Option<string>, productData: Option<ProductSlice.Product>): seq<PageEvent>
  {
    (if Truthy(uidString) then [ToProduct(ProductSlice.RequestProduct(uidString.value))] else [])
    + ProductDataPlan(productData)
    + [ToProduct(ProductSlice.RequestMyData(myUserId))]
  }

  /** `!receiverId` is false for a defined id other than 0. */
  predicate ScoutAllowed(receiverId: Option<int>)
  {
    receiverId.Some? && receiverId.value != 0
  }

  /** `handleSendScout`'s dispatch: none for a falsy receiver, else one send
      from me to the receiver with the typed text, unread. */
  function ScoutPlan(myUserId: int, receiverId: Option<int>, input: string): seq<PageEvent>
  {
    if ScoutAllowed(receiverId) then [ToChat(ChatSlice.RequestSend(ChatSlice.Outgoing(myUserId, receiverId.value, input)))]
    else []
  }

  /** The route id decides whether the product is fetched; my profile is fetched on every mount. */
  lemma MountFetches(myUserId: int, uidString: Option<string>, productData: Option<ProductSlice.Product>)
    ensures var plan := MountPlan(myUserId, uidString, productData);
            && plan[|plan| - 1] == ToProduct(ProductSlice.RequestMyData(myUserId))
            && (Truthy(uidString) ==> plan[0] == ToProduct(ProductSlice.RequestProduct(uidString.value)))
            && (forall i :: 0 <= i < |plan| && plan[i].product.RequestProduct? ==> Truthy(uidString))
            && (productData.Some? ==> plan[|plan| - 2] == ToProduct(ProductSlice.RequestUser(productData.value.user)))
            && |plan| == (if Truthy(uidString) then 1 else 0) + (if productData.Some? then 1 else 0) + 1
  {
  }

  /** No scout leaves for an undefined receiver or receiver 0; any other
      receiver gets exactly one message with my id as user and sender, the
      input as text and `is_read` false. */
  lemma ScoutGuard(myUserId: int, receiverId: Option<int>, input: string)
    ensures ScoutPlan(myUserId, receiverId, input) == [] <==> receiverId == None || receiverId == Some(0)
    ensures ScoutPlan(myUserId, receiverId, input) != [] ==>
              ScoutPlan(myUserId, receiverId, input)
              == [ToChat(ChatSlice.RequestSend(ChatSlice.SendForm(myUserId, myUserId, receiverId.value, input, false)))]
  {
  }

  /** The scout goes to the owner whose profile the page fetched for the product. */
  lemma ScoutReachesOwner(myUserId: int, p: ProductSlice.Product, input: string)
    ensures var scout := ScoutPlan(myUserId, Some(p.user), input);
            scout != [] ==> scout[0].chat.form.receiver == ProductDataPlan(Some(p))[0].product.userId
    ensures ScoutPlan(myUserId, Some(p.user), input) == [] <==> p.user == 0
  {
  }

  /** The scout button is drawn inside the owner card, which exists only once
      the owner's profile `productUser` is loaded, and only when my own
      profile has role "recruiter". The page's `user` and `myData` are copies
      of the slice's `productUser` and `myInfo`, kept by two effects. */
  predicate ShowsScoutButton(s: ProductSlice.ProductState)
  {
    s.productUser.Some? && s.myInfo.Some? && s.myInfo.value.role == "recruiter"
  }

  /** After the `fetchMyData` answer the button is drawn exactly when the
      owner is loaded and I am a recruiter; the owner's answer draws it for a
      recruiter; no other case changes what either field holds, so reset and
      failures leave the button as it was. */
  lemma ScoutButtonFollowsMyData(s: ProductSlice.ProductState, mine: UserData, owner: UserData, t: ProductSlice.ProductThunk)
    ensures ShowsScoutButton(ProductSlice.Reduce(s, ProductSlice.MyDataFulfilled(mine)))
            <==> s.productUser.Some? && mine.role == "recruiter"
    ensures ShowsScoutButton(ProductSlice.Reduce(s, ProductSlice.UserFulfilled(owner)))
            <==> s.myInfo.Some? && s.myInfo.value.role == "recruiter"
    ensures ShowsScoutButton(ProductSlice.Reduce(s, ProductSlice.Reset)) == ShowsScoutButton(s)
    ensures ShowsScoutButton(ProductSlice.Reduce(s, ProductSlice.Rejected(t))) == ShowsScoutButton(s)
  {
  }

  // ---------------------------------------------------------------------------
  // Toasts on the chat slice

  const ScoutFailedMessage: string := "スカウトの送信に失敗しました。"
  const ScoutSentMessage: string := "スカウトを送信しました。"

  /** The toast effect's body, run on the chat slice's flags. */
  function Reaction(chat: Status): (r: seq<Effect<string>>)
  {
    (if chat.isError then [ToastError(ScoutFailedMessage)] else [])
    + (if chat.isSuccess then [ToastSuccess(ScoutSentMessage)] else [])
  }

  /** The effect runs on mount, `before` being None, and then whenever
      isError or isSuccess changes. */
  function Toasts(before: Option<Status>, after: Status): seq<Effect<string>>
  {
    if before.Some? && before.value.isError == after.isError && before.value.isSuccess == after.isSuccess then []
    else Reaction(after)
  }

  /** On mount the effect toasts whatever flags the chat slice already holds;
      no page dispatches the chat slice's `reset`, so they may be left over
      from another page. A conversation list fetched earlier toasts a scout
      success, and any earlier failure a scout failure, with no scout sent. */
  lemma MountToastsStaleFlags(chat: Status, persisted: Option<Session>,
                              list: seq<ChatSlice.MessageData>, t: ChatSlice.ChatThunk)
    ensures Toasts(None, chat) == Reaction(chat)
    ensures Toasts(None, ChatSlice.Reduce(ChatSlice.Initial(persisted), ChatSlice.MessageListFulfilled(list)).status)
            == [ToastSuccess(ScoutSentMessage)]
    ensures Toasts(None, ChatSlice.Reduce(ChatSlice.Initial(persisted), ChatSlice.Rejected(t)).status)
            == [ToastError(ScoutFailedMessage)]
    ensures Toasts(None, ChatSlice.Initial(persisted).status) == []
  {
  }

  /** A failed chat thunk of any kind, not only the scout send, toasts the
      scout failure when it raises isError. */
  lemma AnyChatFailureToastsScoutFailure(s: ChatSlice.ChatState, t: ChatSlice.ChatThunk)
    requires !s.status.isError
    ensures Toasts(Some(s.status), ChatSlice.Reduce(s, ChatSlice.Rejected(t)).status) == [ToastError(ScoutFailedMessage)]
  {
  }

  /** A second failure in a row changes neither flag and shows no toast. */
  lemma RepeatedFailureIsSilent(s: ChatSlice.ChatState)
    requires s.status.isError && !s.status.isSuccess
    ensures Toasts(Some(s.status), ChatSlice.Reduce(s, ChatSlice.Rejected(ChatSlice.SendMessage)).status) == []
  {
  }

  /** After a failure, a successful send shows both toasts, the failure first,
      because fulfilled cases leave isError raised. */
  lemma SuccessAfterFailureShowsBoth(s: ChatSlice.ChatState, sent: ChatSlice.SendForm)
    ensures var failed := ChatSlice.Reduce(s, ChatSlice.Rejected(ChatSlice.SendMessage));
            Toasts(Some(failed.status), ChatSlice.Reduce(failed, ChatSlice.SendMessageFulfilled(sent)).status)
            == [ToastError(ScoutFailedMessage), ToastSuccess(ScoutSentMessage)]
  {
  }

  /** A pending case changes neither flag, so it never toasts. */
  lemma PendingIsSilent(s: ChatSlice.ChatState, t: ChatSlice.ChatThunk)
    ensures Toasts(Some(s.status), ChatSlice.Reduce(s, ChatSlice.Pending(t)).status) == []
  {
  }

  // ---------------------------------------------------------------------------
  // The page's local state

  class Page {
    const myUserId: int
    var product: Option<ProductSlice.Product>
    var receiverId: Option<int>
    var newMessage: string
    var isModalOpen: bool
    /** Every thunk call the page has dispatched, in order. */
    var events: seq<PageEvent>

    /** Mounting runs the effects against the slice's current `productData`,
        which may still hold the product a previous visit loaded. */
    constructor (myUserId: int, uidString: Option<string>, productData: Option<ProductSlice.Product>)
      ensures this.myUserId == myUserId && newMessage == "" && !isModalOpen
      ensures events == MountPlan(myUserId, uidString, productData)
      ensures product == productData
      ensures receiverId == if productData.Some? then Some(productData.value.user) else None
    {
      this.myUserId := myUserId;
      product := None;
      receiverId := None;
      newMessage := "";
      isModalOpen := false;
      events := [];
      if uidString.Some? && uidString.value != "" {
        events := events + [ToProduct(ProductSlice.RequestProduct(uidString.value))];
      }
      if productData.Some? {
        product := productData;
        events := events + [ToProduct(ProductSlice.RequestUser(productData.value.user))];
        receiverId := Some(productData.value.user);
      }
      events := events + [ToProduct(ProductSlice.RequestMyData(myUserId))];
    }

    /** The effect on a new `productData`. */
    method OnProductData(productData: Option<ProductSlice.Product>)
      modifies this
      ensures events == old(events) + ProductDataPlan(productData)
      ensures product == if productData.Some? then productData else old(product)
      ensures receiverId == if productData.Some? then Some(productData.value.user) else old(receiverId)
      ensures newMessage == old(newMessage) && isModalOpen == old(isModalOpen)
    {
      if productData.Some? {
        product := productData;
        events := events + [ToProduct(ProductSlice.RequestUser(productData.value.user))];
        receiverId := Some(productData.value.user);
      }
    }

    method HandleChange(value: string)
      modifies this
      ensures newMessage == value
      ensures events == old(events) && receiverId == old(receiverId) && isModalOpen == old(isModalOpen)
      ensures product == old(product)
    {
      newMessage := value;
    }

    method ToggleModal()
      modifies this
      ensures isModalOpen == !old(isModalOpen)
      ensures events == old(events) && receiverId == old(receiverId) && newMessage == old(newMessage)
      ensures product == old(product)
    {
      isModalOpen := !isModalOpen;
    }

    /** The send is dispatched without awaiting it; the input is cleared and
        the modal flipped at once, whatever the send's fate. */
    method HandleSendScout()
      modifies this
      ensures events == old(events) + ScoutPlan(myUserId, old(receiverId), old(newMessage))
      ensures newMessage == if ScoutAllowed(old(receiverId)) then "" else old(newMessage)
      ensures isModalOpen == if ScoutAllowed(old(receiverId)) then !old(isModalOpen) else old(isModalOpen)
      ensures receiverId == old(receiverId) && product == old(product)
    {
      if receiverId.None? || receiverId.value == 0 {
        return;
      }
      var formData := ChatSlice.SendForm(myUserId, myUserId, receiverId.value, newMessage, false);
      events := events + [ToChat(ChatSlice.RequestSend(formData))];
      newMessage := "";
      ToggleModal();
    }
  }
}
