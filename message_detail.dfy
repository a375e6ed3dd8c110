/** The chat page: the list of conversations on the left (each entry linking
    to, naming and picturing the other party), the thread with one counterpart
    on the right, and the send handler. */
module MessageDetail {
  import opened Common
  import opened ChatSlice

  // ---------------------------------------------------------------------------
  // Choices made for each entry of the conversation list

  /** The id the entry links to: the receiver when I sent the message, else the sender. */
  function ContactTarget(m: MessageData, me: int): int
  {
    if m.sender == me then m.receiver else m.sender
  }

  /** The profile of the party the entry links to. */
  function ContactUser(m: MessageData, me: int): UserData
  {
    if m.sender == me then m.receiver_user else m.sender_user
  }

  /** The name the entry shows. */
  function ContactName(m: MessageData, me: int): string
  {
    if m.sender == me then m.receiver_user.username else m.sender_user.username
  }

  predicate HasImage(u: UserData)
  {
    u.profile.Some? && u.profile.value.profile_image != ""
  }

  function Image(u: UserData): string
    requires HasImage(u)
  {
    u.profile.value.profile_image
  }

  /** The picture the entry shows: the sender's if the sender is not me and
      has one, otherwise the receiver's if the receiver is not me and has one,
      otherwise the default picture. */
  function Avatar(m: MessageData, me: int, defaultAvatar: string): (r: string)
    ensures m.sender != me && HasImage(m.sender_user) ==> r == Image(m.sender_user)
    ensures !(m.sender != me && HasImage(m.sender_user)) && m.receiver != me && HasImage(m.receiver_user) ==>
              r == Image(m.receiver_user)
    ensures r == defaultAvatar || (m.sender != me && HasImage(m.sender_user) && r == Image(m.sender_user))
            || (m.receiver != me && HasImage(m.receiver_user) && r == Image(m.receiver_user))
  {
    if m.sender != me && HasImage(m.sender_user) then m.sender_user.profile.value.profile_image
    else if m.receiver != me && HasImage(m.receiver_user) then m.receiver_user.profile.value.profile_image
    else defaultAvatar
  }

  /** A thread message is drawn on the right exactly when I sent it. */
  predicate RightAligned(m: MessageData, me: int)
  {
    m.sender == me
  }

  /** I take part in the message, with someone other than myself. */
  predicate Between(m: MessageData, me: int)
  {
    (m.sender == me || m.receiver == me) && m.sender != m.receiver
  }

  /** The link names the other party: never me, and seen from that party the
      link points back at me. */
  lemma ContactIsTheOtherParty(m: MessageData, me: int)
    requires Between(m, me)
    ensures ContactTarget(m, me) != me
    ensures ContactTarget(m, me) in {m.sender, m.receiver}
    ensures ContactTarget(m, ContactTarget(m, me)) == me
  {
  }

  /** Link, name and picture all describe the same party: the name is that
      party's user name and the picture is theirs, or the default. */
  lemma EntryDescribesOneParty(m: MessageData, me: int, defaultAvatar: string)
    requires Between(m, me)
    ensures ContactName(m, me) == ContactUser(m, me).username
    ensures ContactUser(m, me) == (if ContactTarget(m, me) == m.receiver then m.receiver_user else m.sender_user)
    ensures Avatar(m, me, defaultAvatar) == if HasImage(ContactUser(m, me)) then Image(ContactUser(m, me)) else defaultAvatar
  {
  }

  /** Outside a proper conversation the choice of picture differs from the
      link: a message I sent to myself shows the default picture even when my
      profile has one. */
  lemma SelfMessageShowsDefault(m: MessageData, me: int, defaultAvatar: string)
    requires m.sender == me && m.receiver == me
    ensures Avatar(m, me, defaultAvatar) == defaultAvatar
    ensures ContactTarget(m, me) == me
  {
  }

  /** The thread header: the counterpart's picture, or the default when the
      profile is missing or its image is empty. */
  function HeaderAvatar(userData: Option<UserData>, defaultAvatar: string): string
  {
    if userData.Some? && userData.value.profile.Some? && userData.value.profile.value.profile_image != ""
    then userData.value.profile.value.profile_image
    else defaultAvatar
  }

  /** The line under the counterpart's name: the company of a recruiter, the
      affiliation of anyone else; nothing while the profile is absent. */
  function HeaderSubtitle(userData: Option<UserData>): Option<string>
  {
    if userData.None? || userData.value.profile.None? then None
    else if userData.value.role == "recruiter" then Some(userData.value.profile.value.company)
    else Some(userData.value.profile.value.affiliation)
  }

  /** The header and the list entry show the same picture of a counterpart. */
  lemma HeaderMatchesEntry(m: MessageData, me: int, defaultAvatar: string)
    requires Between(m, me)
    ensures HeaderAvatar(Some(ContactUser(m, me)), defaultAvatar) == Avatar(m, me, defaultAvatar)
  {
  }

  /** The header follows the chat slice's `userData`: the counterpart fetch
      alone replaces it, with the fetched profile; reset, pending and
      rejected cases and the other fetches keep the header as it was. */
  lemma HeaderFollowsUserData(s: ChatState, a: ChatAction, defaultAvatar: string)
    ensures a.UserDataFulfilled? ==>
              HeaderAvatar(Reduce(s, a).userData, defaultAvatar) == HeaderAvatar(Some(a.data), defaultAvatar) &&
              HeaderSubtitle(Reduce(s, a).userData) == HeaderSubtitle(Some(a.data))
    ensures !a.UserDataFulfilled? ==>
              HeaderAvatar(Reduce(s, a).userData, defaultAvatar) == HeaderAvatar(s.userData, defaultAvatar) &&
              HeaderSubtitle(Reduce(s, a).userData) == HeaderSubtitle(s.userData)
  {
  }

  // ---------------------------------------------------------------------------
  // Dispatches

  /** What the page does, in order: dispatch a chat thunk, or clear the input. */
  datatype PageEvent = Dispatch(request: ChatRequest) | ClearInput

  /** The route id as `Number(uidString)` reads it: `toNumber` is the
      conversion of a string, None standing for NaN; an absent id is NaN. */
  function ReceiverId(uidString: Option<string>, toNumber: string -> Option<int>): Option<int>
  {
    if uidString.Some? then toNumber(uidString.value) else None
  }

  /** The fetches the mount effects dispatch, in effect order: the
      conversation list always; the thread and the counterpart's profile only
      when both my id and the route id are truthy. */
  function MountPlan(userId: int, uidString: Option<string>): seq<PageEvent>
  {
    [Dispatch(RequestMessageList(userId))]
    + (if userId != 0 && Truthy(uidString)
       then [Dispatch(RequestMessageDetail(userId, uidString.value)), Dispatch(RequestUserData(uidString.value))]
       else [])
  }

  /** `handleSendMessage`: abort when the route id is NaN; otherwise send,
      clear the input, refetch the thread when the route id is truthy, and
      refetch the conversation list. Every dispatch is awaited, and none of
      them depends on how the send settled. */
  function SendPlan(userId: int, uidString: Option<string>, input: string, toNumber: string -> Option<int>): seq<PageEvent>
  {
    match ReceiverId(uidString, toNumber)
    case None => []
    case Some(receiver) =>
      [Dispatch(RequestSend(Outgoing(userId, receiver, input))), ClearInput]
      + (if Truthy(uidString) then [Dispatch(RequestMessageDetail(userId, uidString.value))] else [])
      + [Dispatch(RequestMessageList(userId))]
  }

  /** The mount-time thread and profile fetches happen iff both ids are truthy. */
  lemma MountFetchGuard(userId: int, uidString: Option<string>)
    ensures MountPlan(userId, uidString)[0] == Dispatch(RequestMessageList(userId))
    ensures |MountPlan(userId, uidString)| == 3 <==> userId != 0 && Truthy(uidString)
    ensures |MountPlan(userId, uidString)| in {1, 3}
    ensures userId != 0 && Truthy(uidString) ==>
              MountPlan(userId, uidString)[1..]
              == [Dispatch(RequestMessageDetail(userId, uidString.value)), Dispatch(RequestUserData(uidString.value))]
  {
  }

  /** A route id that is not a number sends nothing. */
  lemma SendAbortsOnNaN(userId: int, uidString: Option<string>, input: string, toNumber: string -> Option<int>)
    requires ReceiverId(uidString, toNumber) == None
    ensures SendPlan(userId, uidString, input, toNumber) == []
  {
  }

  /** Otherwise exactly one send is dispatched, first, with me as user and
      sender, the parsed id as receiver, the typed text and `is_read` false;
      the input is cleared next; the thread is refetched iff the route id is
      truthy; the conversation list is refetched last. */
  lemma SendOrder(userId: int, uidString: Option<string>, input: string, toNumber: string -> Option<int>)
    requires ReceiverId(uidString, toNumber).Some?
    ensures var plan := SendPlan(userId, uidString, input, toNumber);
            var n := ReceiverId(uidString, toNumber).value;
            && plan[0] == Dispatch(RequestSend(SendForm(userId, userId, n, input, false)))
            && plan[1] == ClearInput
            && |plan| == (if Truthy(uidString) then 4 else 3)
            && (|plan| == 4 ==> plan[2] == Dispatch(RequestMessageDetail(userId, uidString.value)))
            && plan[|plan| - 1] == Dispatch(RequestMessageList(userId))
            && (forall i :: 1 <= i < |plan| ==> !(plan[i].Dispatch? && plan[i].request.RequestSend?))
  {
  }

  /** `Number("")` is 0, not NaN: an empty route id sends to receiver 0 and
      refetches only the conversation list. */
  lemma EmptyRouteIdSendsToZero(userId: int, input: string, toNumber: string -> Option<int>)
    requires toNumber("") == Some(0)
    ensures SendPlan(userId, Some(""), input, toNumber)
            == [Dispatch(RequestSend(Outgoing(userId, 0, input))), ClearInput, Dispatch(RequestMessageList(userId))]
  {
  }

  /** Once the server echoes the sent message into the thread, it is drawn on
      my side and its list entry links to the person the route named. */
  lemma SentMessageShowsAsMine(userId: int, uidString: Option<string>, input: string,
                               toNumber: string -> Option<int>, echoed: MessageData)
    requires ReceiverId(uidString, toNumber).Some?
    requires var f := SendPlan(userId, uidString, input, toNumber)[0].request.form;
             echoed.sender == f.sender && echoed.receiver == f.receiver
    ensures RightAligned(echoed, userId)
    ensures ContactTarget(echoed, userId) == ReceiverId(uidString, toNumber).value
  {
  }

  // ---------------------------------------------------------------------------
  // The page's local state

  class Page {
    const userId: int
    const uidString: Option<string>
    var newMessage: string
    /** Everything the page has done so far, in order. */
    var events: seq<PageEvent>

    /** Mounting the page runs its fetch effects. */
    constructor (userId: int, uidString: Option<string>)
      ensures this.userId == userId && this.uidString == uidString
      ensures newMessage == "" && events == MountPlan(userId, uidString)
    {
      this.userId := userId;
      this.uidString := uidString;
      newMessage := "";
      events := [Dispatch(RequestMessageList(userId))];
      if userId != 0 && uidString.Some? && uidString.value != "" {
        events := events + [Dispatch(RequestMessageDetail(userId, uidString.value))];
        events := events + [Dispatch(RequestUserData(uidString.value))];
      }
    }

    method HandleChange(value: string)
      modifies this
      ensures newMessage == value && events == old(events)
    {
      newMessage := value;
    }

    method HandleSendMessage(toNumber: string -> Option<int>)
      modifies this
      ensures events == old(events) + SendPlan(userId, uidString, old(newMessage), toNumber)
      ensures newMessage == if ReceiverId(uidString, toNumber).None? then old(newMessage) else ""
    {
      var receiverId := if uidString.Some? then toNumber(uidString.value) else None;
      if receiverId.None? {
        return;
      }
      var formData := SendForm(userId, userId, receiverId.value, newMessage, false);
      events := events + [Dispatch(RequestSend(formData))];
      newMessage := "";
      events := events + [ClearInput];
      if uidString.Some? && uidString.value != "" {
        events := events + [Dispatch(RequestMessageDetail(userId, uidString.value))];
      }
      events := events + [Dispatch(RequestMessageList(userId))];
    }
  }
}
