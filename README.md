# matching-site-frontend, modelled in Dafny

The single-page client of a job-matching site. Students and recruiters register, log in, post products (portfolio items), browse them, exchange chat messages and edit their profiles. The logic of the client lives in three slices of its Redux store and in a few decision rules inside the page components:

- **auth**: the session, the account, three status flags and a message;
- **chat**: the conversation list, one thread, the counterpart's profile and the last sent message;
- **product**: the feed, one product, its owner, my own profile and the last post response.

This project models those slices and rules and proves what they guarantee.

How the model is organised:

- **Common** (`common.dfy`) holds the shared vocabulary.
  - Sessions and user profiles.
  - What a service call can end in. An `Ok` value, a thrown `Error` or some other thrown value stand for the abstract HTTP outcome.
  - The try/catch every thunk wraps around its call (`Settle`).
  - The access-token guard (`Guarded`).
  - The three flags and how a `pending`, `fulfilled`, `rejected` or `reset` case moves them.
- **AuthSlice**, **ChatSlice** and **ProductSlice** each model one slice in two forms.
  - The first is a pure reducer `Reduce(state, action)`, one case per `addCase`. It is the specification; all lemmas are about it.
  - The second is a class `*Store` whose `Dispatch` assigns the draft's fields one at a time, as the case reducers do. Its contract is `State() == Reduce(old(State()), a)`.
  - The lemmas cover:
    - which fields each case writes (`Writes`, `ReduceWritesOnly`: nothing else changes);
    - how it moves the flags;
    - idempotence of `reset` and `logout`;
    - invariants kept by every run of actions from the initial state;
    - that every one of the eight flag combinations is reachable.
- **PrivateLayout** is the redirect-or-render guard. It is related to the auth reducer: after which actions a user is sent to the login page, and that this lasts until a sign-in.
- **RegisterPage**, **MessageDetail**, **ProductDetail**, **ProfileEdit** and **ProductPost** are the page rules.
  - Field updates, validation and request payloads are pure functions.
  - Handlers that run a sequence of steps are class methods. These are `handleSendMessage`, `handleSendScout` and the profile submit that writes through an aliased object.
  - Each such method records the thunk calls it dispatches, in order, and is proved equal to a plan function with its own lemmas.
  - The effects that react to slice flags are functions from slice state to the toasts, navigations and resets they perform. They are composed with the reducers in lemmas.

Three behaviours of the code are worth knowing before reading the lemmas.

- **The flags are not one-hot.** Two things break it:
  - a `pending` case only raises `isLoading`, and leaves `isError` and `isSuccess` as they were;
  - a `fulfilled` case leaves `isError` as it was.

  All eight combinations are therefore reachable (`EveryStatusReachableInAuth` and its chat and product counterparts). Both error and success hold after a failed and then a successful login (`ErrorSurvivesSuccess`).
- **Chat and product failures carry no message.** The chat slice has no message field. The product slice's rejected cases leave `message` as it was (`RejectedKeepsMessage`, `ErrorToastCarriesNoReason`).
- **A sent chat message is always followed by a refetch.** Once a send is dispatched, the chat page refetches the list, and the thread when the route id is truthy, however the send settled (`SendPlan`).

## Model

| member | source | states |
|---|---|---|
| Common.Settle | app/src/features/auth/authSlice.ts:76-84 | the catch every thunk runs: an Ok outcome fulfils, a thrown Error rejects with its message or string form, anything else is rethrown |
| Common.SettleMapsErrors | app/src/features/auth/authSlice.ts:76-84 | Ok fulfils with its value; a thrown Error rejects with its message, or its string form when the message is empty; any other thrown value, and only that, is rethrown |
| Common.Guarded | app/src/features/auth/authSlice.ts:172-177 | the service is called iff the token is truthy, and then with that token and its outcome settled; otherwise the rejection carries the fixed missing-token message |
| Common.EveryStatusReachable | app/src/features/auth/authSlice.ts:231-244 | a sequence of fail, succeed and start phases leads from all flags down to any of the eight flag combinations |
| AuthSlice.Reduce | app/src/features/auth/authSlice.ts:221-334 | the slice's case reducers: reset, and the pending, fulfilled and rejected case of each thunk |
| AuthSlice.GetUserInfoThunk | app/src/features/auth/authSlice.ts:163-188 | getUserInfo calls the service with the auth slice's access token, and only when it is truthy |
| AuthSlice.UpdateThunk | app/src/features/auth/authSlice.ts:190-215 | update calls the service with the form, the id and the access token, and only when the token is truthy |
| AuthSlice.ReduceWritesOnly | app/src/features/auth/authSlice.ts:221-334 | every field a case does not assign keeps its value |
| AuthSlice.ReduceStatus | app/src/features/auth/authSlice.ts:221-334 | each case moves the flags as its phase says; logout and the cases the slice lacks leave them |
| AuthSlice.ResetClearsStatus | app/src/features/auth/authSlice.ts:221-226 | reset lowers all flags, sets the message to "", keeps user and userInfo, and is idempotent |
| AuthSlice.PendingOnlyStartsLoading | app/src/features/auth/authSlice.ts:231-323 | every pending case raises isLoading and changes nothing else, isError, isSuccess and message included |
| AuthSlice.FulfilledKeepsError | app/src/features/auth/authSlice.ts:234-328 | every fulfilled case but logout lowers isLoading, raises isSuccess and keeps isError and the message |
| AuthSlice.FulfilledPayloads | app/src/features/auth/authSlice.ts:234-328 | login and activate replace user with the payload and keep userInfo; getUserInfo and update replace userInfo and keep user; register and both password resets change neither |
| AuthSlice.RejectedSetsError | app/src/features/auth/authSlice.ts:238-334 | every rejected case sets the flags to (false, true, false) and the message to the payload; the five token-free thunks also drop user, getUserInfo and update keep it; userInfo is kept |
| AuthSlice.ErrorSurvivesSuccess | app/src/features/auth/authSlice.ts:248-259 | after a rejected and then a fulfilled login both isError and isSuccess hold, with the rejection's message |
| AuthSlice.LogoutClearsSession | app/src/features/auth/authSlice.ts:260-263 | logout sets user and userInfo to null, changes no flag or message, and is idempotent |
| AuthSlice.NoTokenRejects | app/src/features/auth/authSlice.ts:172-203 | without a truthy access token getUserInfo and update call nothing, and the slice ends in error with the missing-token message and the session kept |
| AuthSlice.LoginErrorShowsMessage | app/src/features/auth/authSlice.ts:93-100 | a login whose call throws an Error ends in error, with the Error's message (or string form) and no session |
| AuthSlice.ReduceKeepsCoherent | app/src/features/auth/authSlice.ts:221-334 | every case keeps "message is empty unless isError holds" |
| AuthSlice.RunKeepsCoherent | app/src/features/auth/authSlice.ts:221-334 | every run of actions keeps that invariant |
| AuthSlice.ReachableCoherent | app/src/features/auth/authSlice.ts:60-69 | from the initial state, a non-empty or undefined message is only ever seen with isError set |
| AuthSlice.DriveFollowsPhases | app/src/features/auth/authSlice.ts:231-244 | the register actions chosen per phase move the flags exactly as the phases say |
| AuthSlice.EveryStatusReachableInAuth | app/src/features/auth/authSlice.ts:221-334 | all eight flag combinations are reachable from the initial state |
| AuthSlice.AuthStore.constructor | app/src/features/auth/authSlice.ts:58-69 | the store starts as the initial state: persisted session, no account, flags down, empty message |
| AuthSlice.AuthStore.Dispatch | app/src/features/auth/authSlice.ts:221-334 | the in-place field assignments leave the store in the reducer's state for that action |
| ChatSlice.Reduce | app/src/features/chat/chatSlice.ts:183-245 | the slice's case reducers: reset, and the pending, fulfilled and rejected case of each of its four thunks |
| ChatSlice.FetchMessageListThunk | app/src/features/chat/chatSlice.ts:52-77 | the conversation list is fetched with the auth slice's access token, and only when it is truthy |
| ChatSlice.FetchMessageDetailThunk | app/src/features/chat/chatSlice.ts:80-105 | the thread is fetched with the auth slice's access token, and only when it is truthy |
| ChatSlice.FetchUserDataThunk | app/src/features/chat/chatSlice.ts:108-133 | the counterpart's profile is fetched with the auth slice's access token, and only when it is truthy |
| ChatSlice.SendMessageThunk | app/src/features/chat/chatSlice.ts:137-162 | a message is sent with the auth slice's access token, and only when it is truthy |
| ChatSlice.NoAuthTokenNoCall | app/src/features/chat/chatSlice.ts:61-151 | without a truthy token in the auth slice none of the four thunks calls its service, and each rejects with the missing-token message |
| ChatSlice.LogoutStopsChatCalls | app/src/features/chat/chatSlice.ts:146-151 | after an auth logout no send reaches the service, whatever the chat slice holds; the rejection keeps every chat payload |
| ChatSlice.ReduceWritesOnly | app/src/features/chat/chatSlice.ts:183-245 | every field a case does not assign keeps its value |
| ChatSlice.ReduceStatus | app/src/features/chat/chatSlice.ts:183-245 | each case moves the flags as its phase says |
| ChatSlice.ResetClearsLists | app/src/features/chat/chatSlice.ts:183-189 | reset lowers the flags, empties both lists, keeps userData and sendMessage, and is idempotent |
| ChatSlice.ResetRestoresInitial | app/src/features/chat/chatSlice.ts:166-189 | reset gives back the initial state (flags down, both lists empty) except for userData and sendMessage, which it keeps; the initial state holds the persisted session and reset leaves it alone |
| ChatSlice.PendingOnlyStartsLoading | app/src/features/chat/chatSlice.ts:194-235 | every pending case raises isLoading, keeps isError and isSuccess, and changes nothing else |
| ChatSlice.FulfilledReplacesPayload | app/src/features/chat/chatSlice.ts:197-240 | each fulfilled case stores its payload wholesale in its own field, lowers isLoading, raises isSuccess and keeps isError |
| ChatSlice.RejectedKeepsPayloads | app/src/features/chat/chatSlice.ts:202-245 | every rejected case sets the flags to (false, true, false) and keeps every payload |
| ChatSlice.RunKeepsUser | app/src/features/chat/chatSlice.ts:179-245 | no run of actions changes the chat slice's own user |
| ChatSlice.DriveFollowsPhases | app/src/features/chat/chatSlice.ts:194-206 | the list-fetch actions chosen per phase move the flags exactly as the phases say |
| ChatSlice.EveryStatusReachableInChat | app/src/features/chat/chatSlice.ts:183-245 | all eight flag combinations are reachable from the initial state |
| ChatSlice.ChatStore.constructor | app/src/features/chat/chatSlice.ts:166-177 | the store starts as the initial state |
| ChatSlice.ChatStore.Dispatch | app/src/features/chat/chatSlice.ts:183-245 | the in-place field assignments leave the store in the reducer's state for that action |
| ProductSlice.Reduce | app/src/features/product/productSlice.ts:178-253 | the slice's case reducers: reset, and the pending, fulfilled and rejected case of each of its five thunks |
| ProductSlice.StoredToken | app/src/features/product/productSlice.ts:85-87 | post reads its token from the record stored under "user" |
| ProductSlice.PostThunk | app/src/features/product/productSlice.ts:81-103 | post calls the service with the stored token, and only when it is truthy |
| ProductSlice.FetchProductListThunk | app/src/features/product/productSlice.ts:105-121 | the feed is fetched with no argument and no token |
| ProductSlice.FetchUserThunk | app/src/features/product/productSlice.ts:123-138 | a user's profile is fetched by id with no token |
| ProductSlice.FetchMyDataThunk | app/src/features/product/productSlice.ts:140-155 | my own profile is fetched by id with no token |
| ProductSlice.FetchProductThunk | app/src/features/product/productSlice.ts:157-172 | one product is fetched by the route id with no token |
| ProductSlice.OnlyPostNeedsStoredToken | app/src/features/product/productSlice.ts:81-172 | without a token stored under "user", post calls nothing and only raises the error flags; under the same storage each fetch thunk ends in its fulfilled case with the service's value exactly when its call succeeds, and is rejected otherwise |
| ProductSlice.ReduceWritesOnly | app/src/features/product/productSlice.ts:178-253 | every field a case does not assign keeps its value; each fetch fulfilled case writes one payload field besides the flags |
| ProductSlice.ReduceStatus | app/src/features/product/productSlice.ts:178-253 | each case moves the flags as its phase says |
| ProductSlice.ResetKeepsPayloads | app/src/features/product/productSlice.ts:178-183 | reset lowers the flags, empties the message, keeps every payload, and is idempotent |
| ProductSlice.PendingOnlyStartsLoading | app/src/features/product/productSlice.ts:188-243 | every pending case raises isLoading, keeps isError and isSuccess, and changes nothing else |
| ProductSlice.PostFulfilledStoresResponse | app/src/features/product/productSlice.ts:191-196 | a fulfilled post stores its response both as user and as message, lowers isLoading and raises isSuccess |
| ProductSlice.RejectedKeepsMessage | app/src/features/product/productSlice.ts:197-253 | every rejected case sets the flags to (false, true, false) and leaves the previous message |
| ProductSlice.RunKeepsMessageShape | app/src/features/product/productSlice.ts:178-253 | every run keeps "message is empty, or a post response while isError or isSuccess holds" |
| ProductSlice.ReachableMessageShape | app/src/features/product/productSlice.ts:67-79 | from the initial state the message is never a string other than "" |
| ProductSlice.DriveFollowsPhases | app/src/features/product/productSlice.ts:202-214 | the feed-fetch actions chosen per phase move the flags exactly as the phases say |
| ProductSlice.EveryStatusReachableInProduct | app/src/features/product/productSlice.ts:178-253 | all eight flag combinations are reachable from the initial state |
| ProductSlice.ProductStore.constructor | app/src/features/product/productSlice.ts:67-79 | the store starts as the initial state |
| ProductSlice.ProductStore.Dispatch | app/src/features/product/productSlice.ts:178-253 | the in-place field assignments leave the store in the reducer's state for that action |
| PrivateLayout.Guard | app/src/layout/privateLayout.tsx:6-11 | the layout redirects to the login page without a session and renders the page otherwise |
| PrivateLayout.GuardRedirectsIffNoSession | app/src/layout/privateLayout.tsx:8-11 | the guard redirects, to "/login", exactly when there is no session, and renders otherwise |
| PrivateLayout.GuardReadsOnlyUser | app/src/layout/privateLayout.tsx:6 | two auth states with the same session get the same decision, whatever their account, role, flags or message |
| PrivateLayout.GuardAfterActions | app/src/layout/privateLayout.tsx:8-11 | after logout or a rejection of a token-free thunk the guard redirects; after a login or activation fulfilled with a session it renders |
| PrivateLayout.GuardUnchangedBy | app/src/layout/privateLayout.tsx:8-11 | reset, every pending case, and a failing getUserInfo or update leave the decision as it was |
| PrivateLayout.StaysRedirected | app/src/layout/privateLayout.tsx:8-10 | a redirected user stays redirected through any actions until a login or activation is fulfilled with a session |
| PrivateLayout.StaysRendered | app/src/layout/privateLayout.tsx:11 | a user let in stays in through any actions until a logout, a token-free rejection, or a login or activation with a falsy body |
| RegisterPage.HandleChange | app/src/components/Auth/RegisterPage.tsx:35-38 | a change sets the form field its input names |
| RegisterPage.ChangeWritesOnlyThatField | app/src/components/Auth/RegisterPage.tsx:35-38 | a change sets the named field to the value and leaves every other field and the role |
| RegisterPage.HandleSubmit | app/src/components/Auth/RegisterPage.tsx:40-62 | register is dispatched iff every field is filled and the passwords match; otherwise the empty-field error comes first, then the mismatch error; a dispatched form copies the four fields, and its role is student iff isStudent |
| RegisterPage.SubmitIgnoresFormRole | app/src/components/Auth/RegisterPage.tsx:53-59 | the form's own role never affects the outcome |
| RegisterPage.EmptinessWinsOverMismatch | app/src/components/Auth/RegisterPage.tsx:44-51 | from the initial form, different passwords with the other fields blank give the empty-field error |
| RegisterPage.Reaction | app/src/components/Auth/RegisterPage.tsx:64-75 | the effect on the auth slice: toast the message on error; on success go home, reset and toast; go home whenever a session exists |
| RegisterPage.RejectedRegistrationStays | app/src/components/Auth/RegisterPage.tsx:64-75 | after a rejected registration the effect only toasts the rejection's message |
| RegisterPage.FulfilledRegistrationLeaves | app/src/components/Auth/RegisterPage.tsx:64-75 | after a fulfilled registration on a slice with no error the effect goes home, resets and toasts; after that reset, with no session, it does nothing |
| RegisterPage.SessionAloneNavigates | app/src/components/Auth/RegisterPage.tsx:69-73 | a visitor with a session is sent home even with every flag down |
| MessageDetail.ContactTarget | app/src/components/Chatroom/MessageDetail.tsx:158 | a list entry links to the receiver of a message I sent and to the sender otherwise |
| MessageDetail.ContactName | app/src/components/Chatroom/MessageDetail.tsx:174-176 | a list entry names the receiver of a message I sent and the sender otherwise |
| MessageDetail.RightAligned | app/src/components/Chatroom/MessageDetail.tsx:219 | a thread message is drawn on the right exactly when I sent it |
| MessageDetail.Avatar | app/src/components/Chatroom/MessageDetail.tsx:163-167 | the sender's image if the sender is not me and has one, else the receiver's if the receiver is not me and has one, else the default |
| MessageDetail.ContactIsTheOtherParty | app/src/components/Chatroom/MessageDetail.tsx:158 | in a message between me and someone else, the link targets one of the two parties, never me, and from that party it points back at me |
| MessageDetail.EntryDescribesOneParty | app/src/components/Chatroom/MessageDetail.tsx:158-176 | link, name and picture describe the same party: the profile shown is the receiver's exactly when the link targets the receiver, the name is that profile's, and the picture is its image or the default |
| MessageDetail.SelfMessageShowsDefault | app/src/components/Chatroom/MessageDetail.tsx:163-167 | a message from me to myself links to me and shows the default picture |
| MessageDetail.HeaderMatchesEntry | app/src/components/Chatroom/MessageDetail.tsx:163-198 | the thread header and the list entry of the same counterpart show the same picture |
| MessageDetail.HeaderFollowsUserData | app/src/components/Chatroom/MessageDetail.tsx:198-208 | the header's picture and subtitle change only with a fulfilled counterpart fetch, to that profile's; reset, every pending and rejected case and the other fetches leave them |
| MessageDetail.ReceiverId | app/src/components/Chatroom/MessageDetail.tsx:116-122 | the receiver is the route id converted by Number, an absent id being NaN |
| MessageDetail.MountPlan | app/src/components/Chatroom/MessageDetail.tsx:69-87 | the fetches the mount effects dispatch, in effect order |
| MessageDetail.SendPlan | app/src/components/Chatroom/MessageDetail.tsx:113-142 | the steps of the send handler, in order |
| MessageDetail.MountFetchGuard | app/src/components/Chatroom/MessageDetail.tsx:69-87 | the list is always fetched first; the thread and then the counterpart's profile, for that user_id and route id, follow iff both are truthy, and nothing else is dispatched |
| MessageDetail.SendAbortsOnNaN | app/src/components/Chatroom/MessageDetail.tsx:116-122 | a route id that is not a number dispatches nothing |
| MessageDetail.SendOrder | app/src/components/Chatroom/MessageDetail.tsx:124-138 | one send from me to the parsed id, with the input and is_read false, comes first; then the input is cleared; the thread is refetched iff the route id is truthy; the list is refetched last; no other step is taken |
| MessageDetail.EmptyRouteIdSendsToZero | app/src/components/Chatroom/MessageDetail.tsx:116-138 | when Number("") is 0, an empty route id sends to receiver 0 and refetches only the list |
| MessageDetail.SentMessageShowsAsMine | app/src/components/Chatroom/MessageDetail.tsx:124-130 | the sent message, once echoed, is right-aligned and its list entry links to the route's user |
| MessageDetail.Page.constructor | app/src/components/Chatroom/MessageDetail.tsx:69-87 | mounting dispatches the mount plan with an empty input |
| MessageDetail.Page.HandleChange | app/src/components/Chatroom/MessageDetail.tsx:107-110 | the input takes the typed value and nothing is dispatched |
| MessageDetail.Page.HandleSendMessage | app/src/components/Chatroom/MessageDetail.tsx:113-142 | the page dispatches the send plan; the input is cleared unless the send aborted |
| ProductDetail.MountPlan | app/src/components/Product/ProductDetail.tsx:81-110 | the fetches the mount effects dispatch, in effect order |
| ProductDetail.ScoutPlan | app/src/components/Product/ProductDetail.tsx:133-157 | the dispatch of the scout handler |
| ProductDetail.MountFetches | app/src/components/Product/ProductDetail.tsx:81-110 | on mount I fetch the product first and only for a truthy route id, then the owner of any product the slice already holds, and always my own profile, last; nothing else |
| ProductDetail.ScoutGuard | app/src/components/Product/ProductDetail.tsx:136-147 | no scout for an undefined or 0 receiver; otherwise exactly one send from me to the receiver, with the input and is_read false |
| ProductDetail.ScoutReachesOwner | app/src/components/Product/ProductDetail.tsx:91-96 | the scout goes to the product owner whose profile was fetched, unless that owner id is 0 |
| ProductDetail.ShowsScoutButton | app/src/components/Product/ProductDetail.tsx:199-216 | the scout button is drawn inside the owner card, only once the owner is loaded, and only for a recruiter; the page copies both profiles from the product slice by effects |
| ProductDetail.ScoutButtonFollowsMyData | app/src/components/Product/ProductDetail.tsx:199-216 | after my profile arrives the button shows iff the owner is loaded and my role is "recruiter"; after the owner arrives it shows iff I am a recruiter; reset and failures do not change it |
| ProductDetail.Toasts | app/src/components/Product/ProductDetail.tsx:164-173 | the toast effect runs on mount, and then whenever isError or isSuccess of the chat slice changes |
| ProductDetail.MountToastsStaleFlags | app/src/components/Product/ProductDetail.tsx:164-173 | on mount the effect toasts the chat slice's flags as they stand; after an earlier list fetch that is a scout success, after an earlier failure a scout failure, and from the initial state nothing |
| ProductDetail.AnyChatFailureToastsScoutFailure | app/src/components/Product/ProductDetail.tsx:164-173 | a failing chat thunk of any kind that raises isError toasts the scout failure |
| ProductDetail.RepeatedFailureIsSilent | app/src/components/Product/ProductDetail.tsx:164-173 | a second failure in a row changes no flag, so nothing is toasted |
| ProductDetail.SuccessAfterFailureShowsBoth | app/src/components/Product/ProductDetail.tsx:164-173 | a successful send after a failed one toasts the failure and then the success |
| ProductDetail.PendingIsSilent | app/src/components/Product/ProductDetail.tsx:164-173 | a pending case never toasts |
| ProductDetail.Page.constructor | app/src/components/Product/ProductDetail.tsx:81-110 | mounting dispatches the mount plan, and takes the receiver and product from the slice's current product |
| ProductDetail.Page.OnProductData | app/src/components/Product/ProductDetail.tsx:91-97 | a new product is kept, its owner becomes the receiver and the owner's profile is fetched |
| ProductDetail.Page.HandleChange | app/src/components/Product/ProductDetail.tsx:127-130 | the input takes the typed value and nothing else changes |
| ProductDetail.Page.ToggleModal | app/src/components/Product/ProductDetail.tsx:123-125 | the modal flag flips and nothing else changes |
| ProductDetail.Page.HandleSendScout | app/src/components/Product/ProductDetail.tsx:133-157 | the page dispatches the scout plan; when a send leaves, the input is cleared and the modal flipped, and otherwise nothing changes |
| ProfileEdit.HandleChange | app/src/components/Profile/ProfileEdit.tsx:86-124 | a change stores a picked file, or writes a text value at the top level or inside the profile |
| ProfileEdit.RoutingByKey | app/src/components/Profile/ProfileEdit.tsx:110-113 | a text change goes to the top level exactly for username, email and role |
| ProfileEdit.TextChangeWritesOnlyThatField | app/src/components/Profile/ProfileEdit.tsx:110-122 | a text change sets its field and leaves every other field and both images; a nested change leaves the top level, and a top-level change leaves the profile |
| ProfileEdit.FileChangeRules | app/src/components/Profile/ProfileEdit.tsx:88-108 | a file change touches no text field; with files, both the form's image and profileImage become the first file; without, the form is unchanged and profileImage is cleared |
| ProfileEdit.CancelKeepsPickedImage | app/src/components/Profile/ProfileEdit.tsx:91-107 | picking an image and then cancelling keeps the image in the form, although profileImage is cleared |
| ProfileEdit.RoleFieldsExclusive | app/src/components/Profile/ProfileEdit.tsx:169-184 | affiliation shows for "student" and company for "recruiter", never both, and neither for any other role or the initial form |
| ProfileEdit.ProfileObject.constructor | app/src/components/Profile/ProfileEdit.tsx:29-35 | the profile object holds the given values |
| ProfileEdit.FormObject.constructor | app/src/components/Profile/ProfileEdit.tsx:133-138 | the record holds the given fields and shares the given profile object |
| ProfileEdit.HandleSubmit | app/src/components/Profile/ProfileEdit.tsx:126-149 | the write through the shared profile leaves the form's value unchanged; update is dispatched iff the route id is truthy, with exactly the form's value and that id |
| ProfileEdit.Reaction | app/src/components/Profile/ProfileEdit.tsx:73-84 | the effect on the auth slice: toast the message on error; on success toast, go to the profile page and reset |
| ProfileEdit.FulfilledUpdateLeaves | app/src/components/Profile/ProfileEdit.tsx:73-84 | after a fulfilled update on a slice with no error the effect toasts, goes to "/mypage" and resets; after the reset it does nothing |
| ProfileEdit.NoTokenToastsMissingToken | app/src/components/Profile/ProfileEdit.tsx:73-76 | a submit without an access token calls nothing and toasts the missing-token message |
| ProductPost.HandleChange | app/src/components/Product/ProductPost.tsx:33-54 | a change stores a picked file, or writes the text field its input names |
| ProductPost.TextChangeWritesOnlyThatField | app/src/components/Product/ProductPost.tsx:52 | a text change sets its field and nothing else |
| ProductPost.FileChangeRules | app/src/components/Product/ProductPost.tsx:35-50 | a file change touches no text field; with files, both thumbnails become the first file; without, the form is unchanged and only the kept thumbnail is cleared |
| ProductPost.HandleSubmit | app/src/components/Product/ProductPost.tsx:56-67 | submit always dispatches post, with every field of the form copied |
| ProductPost.EmptyFormIsPosted | app/src/components/Product/ProductPost.tsx:56-67 | an untouched form is posted as it is: empty texts, no thumbnail |
| ProductPost.Reaction | app/src/components/Product/ProductPost.tsx:69-80 | the effect on the product slice: toast the message on error; on success go home, toast and reset |
| ProductPost.ErrorToastCarriesNoReason | app/src/components/Product/ProductPost.tsx:69-72 | in any reachable product state the error toast is handed "" or a post response, never a failure reason |
| ProductPost.NoTokenToastsOldMessage | app/src/components/Product/ProductPost.tsx:69-72 | a post refused for want of a stored token toasts the previous message, not the missing-token text |
| ProductPost.FulfilledPostLeaves | app/src/components/Product/ProductPost.tsx:69-80 | after a clean, successful post the effect goes home, toasts and resets, and after the reset it does nothing; after an earlier failure it also toasts the created product as an error |

## Left out

- The service modules and HTTP are not modelled. Each service call is an abstract function from its arguments to an outcome: `Ok` with a value, a thrown `Error` with its message and string form, or some other thrown value.
- Local storage, `JSON.parse` and `jwtDecode` are not modelled. The persisted session, the token record read by `post` and `user_id` are given inputs. When the stored record is missing, the page components crash on `authInfo.access`; the model does not capture that.
- JavaScript `Number()` is not modelled. The conversion is a parameter `toNumber: string -> Option<int>`, with None standing for NaN, and an absent route id converts to NaN. Its results are integers, so route ids such as "1.5" or "Infinity", which `Number()` turns into non-integer numbers, are not represented.
- Relative-time and date formatting, and `FileReader` previews, are not modelled. The preview string is an input of the profile submit.
- JSX rendering, toasts and navigation are not modelled. Each effect is the list of actions it takes for a given slice state. Only `ProductDetail.Toasts` models the dependency-change trigger of an effect; the other effects are modelled as their bodies.
- Concurrency is not modelled. Thunks that overlap and settle in any order are out of scope; actions reach a reducer one at a time.
- Messages.tsx, LoginPage, the password-reset and activation pages, ProductList, Nav, ProfileView, SearchStudent, Mypage, the route table and the store wiring are not part of this model.
- ProfileEdit's initial fetch (`fetchUserData` via axios) is not modelled. It replaces the whole form with the server's record, of whatever shape, and the model starts from the initial form.
- ProfileEdit.HandleChange models the change names that are keys of the form: username, email, role, and the four text keys of the profile. A change named "profile" would replace the nested profile with a string. Any other name would add a key to the profile. JavaScript's `in` also accepts inherited keys such as "toString". None of these is modelled.
- MessageDetail's header does not model the `?.` on a missing profile image separately. An undefined image and an empty image both show the default.
- Logout has only a fulfilled case in the slice. Its pending and rejected actions leave the state unchanged, and `logout` is not modelled as a thunk with a service.
