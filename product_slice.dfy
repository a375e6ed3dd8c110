/** The product slice of the client store: the product feed, one product, its
    owner's profile and the viewer's own profile, driven by the token-guarded
    `post` thunk, four unguarded fetch thunks and `reset`. */
module ProductSlice {
  import opened Common

  datatype Product = Product(
    id: int,
    title: string,
    detail: string,
    thumbnail: string,
    detail_url: string,
    created_at: string,
    updated_at: string,
    user: int)

  /** The body of a new-product request. */
  datatype PostData = PostData(title: string, detail: string, thumbnail: Option<File>, detail_url: string)

  /** What `message` holds: a string, or the response of `post`, which the
      fulfilled case stores there although the field is declared a string. */
  datatype Message = Text(text: string) | Created(created: Product)

  /** What `user` holds: the session parsed from local storage at start-up, or
      the response of `post`, which the fulfilled case stores there too. */
  datatype Holder = StoredSession(session: Session) | PostResponse(response: Product)

  datatype ProductState = ProductState(
    user: Option<Holder>,
    status: Status,
    message: Message,
    myInfo: Option<UserData>,
    productList: seq<Product>,
    productUser: Option<UserData>,
    productData: Option<Product>)

  function Initial(persisted: Option<Session>): ProductState
  {
    ProductState(if persisted.Some? then Some(StoredSession(persisted.value)) else None,
                 Idle, Text(""), None, [], None, None)
  }

  datatype ProductThunk = Post | FetchProductList | FetchUser | FetchMyData | FetchProduct

  /** The thunk calls a page can dispatch, with their arguments. */
  datatype ProductRequest =
    | RequestPost(postData: PostData)
    | RequestProductList
    | RequestUser(userId: int)
    | RequestMyData(userId: int)
    | RequestProduct(uidString: string)

  datatype ProductAction =
    | Reset
    | Pending(thunk: ProductThunk)
    | Rejected(thunk: ProductThunk)
    | PostFulfilled(response: Product)
    | ProductListFulfilled(list: seq<Product>)
    | UserFulfilled(owner: UserData)
    | MyDataFulfilled(mine: UserData)
    | ProductFulfilled(product: Product)

  function PhaseOf(a: ProductAction): Phase
  {
    match a
    case Reset => Clear
    case Pending(_) => Start
    case Rejected(_) => Fail
    case _ => Succeed
  }

  /** The reducer: the case reducers of `productSlice`. */
  function Reduce(s: ProductState, a: ProductAction): ProductState
  {
    match a
    case Reset => s.(status := Idle, message := Text(""))
    case Pending(_) => s.(status := Next(s.status, Start))
    case Rejected(_) => s.(status := Next(s.status, Fail))
    case PostFulfilled(response) =>
      s.(status := Next(s.status, Succeed), user := Some(PostResponse(response)), message := Created(response))
    case ProductListFulfilled(list) => s.(status := Next(s.status, Succeed), productList := list)
    case UserFulfilled(owner) => s.(status := Next(s.status, Succeed), productUser := Some(owner))
    case MyDataFulfilled(mine) => s.(status := Next(s.status, Succeed), myInfo := Some(mine))
    case ProductFulfilled(product) => s.(status := Next(s.status, Succeed), productData := Some(product))
  }

  function Run(s: ProductState, actions: seq<ProductAction>): ProductState
    decreases |actions|
  {
    if actions == [] then s else Run(Reduce(s, actions[0]), actions[1..])
  }

  // ---------------------------------------------------------------------------
  // Thunks

  /** The local-storage key of the persisted session. */
  const SessionKey: string := "user"

  /** The token `post` reads: `access` of the record stored under "user" (the
      stored text is taken as already parsed). */
  function StoredToken(storage: map<string, Session>): Option<string>
  {
    if SessionKey in storage then storage[SessionKey].access else None
  }

  /** `post`: the only guarded thunk of this slice; it reads the token from
      local storage, not from any slice of the store. */
  function PostThunk(storage: map<string, Session>, postData: PostData,
                     service: (PostData, string) -> Outcome<Product>): ThunkRun<Product>
  {
    Guarded(StoredToken(storage), token => service(postData, token))
  }

  /** `fetchProductList`: the service call with no argument and no token. */
  function FetchProductListThunk(service: Outcome<seq<Product>>): Settlement<seq<Product>>
  {
    Settle(service)
  }

  /** `fetchUser`: the owner's profile by user id, with no token. */
  function FetchUserThunk(userId: int, service: int -> Outcome<UserData>): Settlement<UserData>
  {
    Settle(service(userId))
  }

  /** `fetchMyData`: the viewer's own profile by user id, with no token. */
  function FetchMyDataThunk(userId: int, service: int -> Outcome<UserData>): Settlement<UserData>
  {
    Settle(service(userId))
  }

  /** `fetchProduct`: one product by the route id, with no token. */
  function FetchProductThunk(uidString: string, service: string -> Outcome<Product>): Settlement<Product>
  {
    Settle(service(uidString))
  }

  function Completion<T>(t: ProductThunk, st: Settlement<T>, onFulfilled: T -> ProductAction): ProductAction
  {
    if st.Fulfilled? then onFulfilled(st.value) else Rejected(t)
  }

  /** Without a stored token `post` calls nothing and ends in a rejection that
      changes no payload. The four fetch thunks read no token, so under the
      same storage each one calls its service and ends in its fulfilled case
      exactly when that call succeeds, and in a rejection only when it fails. */
  lemma OnlyPostNeedsStoredToken(s: ProductState, storage: map<string, Session>, postData: PostData,
                                 service: (PostData, string) -> Outcome<Product>,
                                 listService: Outcome<seq<Product>>, userService: int -> Outcome<UserData>,
                                 productService: string -> Outcome<Product>, userId: int, uidString: string)
    requires !Truthy(StoredToken(storage))
    ensures PostThunk(storage, postData, service).calledWith == None
    ensures var r := Reduce(s, Completion(Post, PostThunk(storage, postData, service).settlement, p => PostFulfilled(p)));
            r == s.(status := Status(false, true, false))
    ensures Completion(FetchProductList, FetchProductListThunk(listService), l => ProductListFulfilled(l))
            == if listService.Ok? then ProductListFulfilled(listService.value) else Rejected(FetchProductList)
    ensures Completion(FetchUser, FetchUserThunk(userId, userService), u => UserFulfilled(u))
            == if userService(userId).Ok? then UserFulfilled(userService(userId).value) else Rejected(FetchUser)
    ensures Completion(FetchMyData, FetchMyDataThunk(userId, userService), u => MyDataFulfilled(u))
            == if userService(userId).Ok? then MyDataFulfilled(userService(userId).value) else Rejected(FetchMyData)
    ensures Completion(FetchProduct, FetchProductThunk(uidString, productService), p => ProductFulfilled(p))
            == if productService(uidString).Ok? then ProductFulfilled(productService(uidString).value) else Rejected(FetchProduct)
  {
  }

  // ---------------------------------------------------------------------------
  // The frame of every case

  datatype ProductField = UserField | LoadingFlag | ErrorFlag | SuccessFlag | MessageField
                        | MyInfoField | ProductListField | ProductUserField | ProductDataField

  function Writes(a: ProductAction): set<ProductField>
  {
    match a
    case Reset => {LoadingFlag, ErrorFlag, SuccessFlag, MessageField}
    case Pending(_) => {LoadingFlag}
    case Rejected(_) => {LoadingFlag, SuccessFlag, ErrorFlag}
    case PostFulfilled(_) => {LoadingFlag, SuccessFlag, UserField, MessageField}
    case ProductListFulfilled(_) => {LoadingFlag, SuccessFlag, ProductListField}
    case UserFulfilled(_) => {LoadingFlag, SuccessFlag, ProductUserField}
    case MyDataFulfilled(_) => {LoadingFlag, SuccessFlag, MyInfoField}
    case ProductFulfilled(_) => {LoadingFlag, SuccessFlag, ProductDataField}
  }

  predicate Agree(s: ProductState, t: ProductState, f: ProductField)
  {
    match f
    case UserField => s.user == t.user
    case LoadingFlag => s.status.isLoading == t.status.isLoading
    case ErrorFlag => s.status.isError == t.status.isError
    case SuccessFlag => s.status.isSuccess == t.status.isSuccess
    case MessageField => s.message == t.message
    case MyInfoField => s.myInfo == t.myInfo
    case ProductListField => s.productList == t.productList
    case ProductUserField => s.productUser == t.productUser
    case ProductDataField => s.productData == t.productData
  }

  /** No case changes a field it does not assign: each fetch fulfilled case
      replaces exactly one field besides the flags. */
  lemma ReduceWritesOnly(s: ProductState, a: ProductAction)
    ensures forall f :: f !in Writes(a) ==> Agree(s, Reduce(s, a), f)
  {
  }

  lemma ReduceStatus(s: ProductState, a: ProductAction)
    ensures Reduce(s, a).status == Next(s.status, PhaseOf(a))
  {
  }

  // ---------------------------------------------------------------------------
  // Properties of single cases

  /** `reset` lowers the flags and empties the message, keeping every payload;
      it is idempotent. */
  lemma ResetKeepsPayloads(s: ProductState)
    ensures Reduce(s, Reset) == s.(status := Idle, message := Text(""))
    ensures Reduce(Reduce(s, Reset), Reset) == Reduce(s, Reset)
  {
  }

  /** Every pending case only raises isLoading. */
  lemma PendingOnlyStartsLoading(s: ProductState, t: ProductThunk)
    ensures Reduce(s, Pending(t)).status.isLoading
    ensures Reduce(s, Pending(t)).status == s.status.(isLoading := true)
    ensures Reduce(s, Pending(t)).(status := s.status) == s
  {
  }

  /** A fulfilled `post` stores its response both as `user` and as `message`. */
  lemma PostFulfilledStoresResponse(s: ProductState, response: Product)
    ensures Reduce(s, PostFulfilled(response)).user == Some(PostResponse(response))
    ensures Reduce(s, PostFulfilled(response)).message == Created(response)
    ensures !Reduce(s, PostFulfilled(response)).status.isLoading && Reduce(s, PostFulfilled(response)).status.isSuccess
  {
  }

  /** Every rejected case sets the flags to "failed" but stores no message: the
      message from before survives. */
  lemma RejectedKeepsMessage(s: ProductState, t: ProductThunk)
    ensures Reduce(s, Rejected(t)).status == Status(false, true, false)
    ensures Reduce(s, Rejected(t)).message == s.message
  {
  }

  // ---------------------------------------------------------------------------
  // Properties of runs

  /** The message is either empty or the response of a `post`, and the latter
      only while isError or isSuccess holds: no case ever stores a rejection
      reason. */
  predicate MessageShape(s: ProductState)
  {
    s.message == Text("") || (s.message.Created? && (s.status.isError || s.status.isSuccess))
  }

  lemma {:induction false} RunKeepsMessageShape(s: ProductState, actions: seq<ProductAction>)
    requires MessageShape(s)
    ensures MessageShape(Run(s, actions))
    decreases |actions|
  {
    if actions != [] {
      assert MessageShape(Reduce(s, actions[0]));
      RunKeepsMessageShape(Reduce(s, actions[0]), actions[1..]);
    }
  }

  /** From the initial state the message is never a string other than "". */
  lemma ReachableMessageShape(persisted: Option<Session>, actions: seq<ProductAction>)
    ensures MessageShape(Run(Initial(persisted), actions))
  {
    RunKeepsMessageShape(Initial(persisted), actions);
  }

  /** An action sequence meant to move the flags through the given phases. No
      case of this slice keeps the flags, so the lemma below admits only
      start, succeed and fail phases. */
  function Drive(ps: seq<Phase>): seq<ProductAction>
  {
    if ps == [] then []
    else
      [match ps[0]
       case Start => Pending(FetchProductList)
       case Succeed => ProductListFulfilled([])
       case Fail => Rejected(FetchProductList)
       case Clear => Reset
       case Keep => Pending(FetchProductList)] + Drive(ps[1..])
  }

  lemma {:induction false} DriveFollowsPhases(s: ProductState, ps: seq<Phase>)
    requires forall i :: 0 <= i < |ps| ==> ps[i] in {Start, Succeed, Fail}
    ensures Run(s, Drive(ps)).status == NextAll(s.status, ps)
    decreases |ps|
  {
    if ps != [] {
      var a := Drive(ps)[0];
      assert Drive(ps)[1..] == Drive(ps[1..]);
      ReduceStatus(s, a);
      DriveFollowsPhases(Reduce(s, a), ps[1..]);
    }
  }

  /** All eight combinations of the three flags are reachable from the initial state. */
  lemma EveryStatusReachableInProduct(persisted: Option<Session>, target: Status)
    ensures exists actions :: Run(Initial(persisted), actions).status == target
  {
    EveryStatusReachable(target);
    DriveFollowsPhases(Initial(persisted), PhasesTo(target));
  }

  // ---------------------------------------------------------------------------
  // The slice as the store holds it

  class ProductStore {
    var user: Option<Holder>
    var isError: bool
    var isSuccess: bool
    var isLoading: bool
    var message: Message
    var myInfo: Option<UserData>
    var productList: seq<Product>
    var productUser: Option<UserData>
    var productData: Option<Product>

    function State(): ProductState
      reads this
    {
      ProductState(user, Status(isLoading, isError, isSuccess), message, myInfo, productList, productUser, productData)
    }

    constructor (persisted: Option<Session>)
      ensures State() == Initial(persisted)
    {
      user := if persisted.Some? then Some(StoredSession(persisted.value)) else None;
      isError := false;
      isSuccess := false;
      isLoading := false;
      message := Text("");
      myInfo := None;
      productList := [];
      productUser := None;
      productData := None;
    }

    method Dispatch(a: ProductAction)
      modifies this
      ensures State() == Reduce(old(State()), a)
    {
      match a {
        case Reset =>
          isLoading := false;
          isError := false;
          isSuccess := false;
          message := Text("");
        case Pending(_) =>
          isLoading := true;
        case Rejected(_) =>
          isLoading := false;
          isSuccess := false;
          isError := true;
        case PostFulfilled(response) =>
          isLoading := false;
          isSuccess := true;
          user := Some(PostResponse(response));
          message := Created(response);
        case ProductListFulfilled(list) =>
          isLoading := false;
          isSuccess := true;
          productList := list;
        case UserFulfilled(owner) =>
          isLoading := false;
          isSuccess := true;
          productUser := Some(owner);
        case MyDataFulfilled(mine) =>
          isLoading := false;
          isSuccess := true;
          myInfo := Some(mine);
        case ProductFulfilled(product) =>
          isLoading := false;
          isSuccess := true;
          productData := Some(product);
      }
    }
  }
}
