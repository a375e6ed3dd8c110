/** The route guard in front of the logged-in pages: it redirects to the
    login page when the auth slice holds no session, and renders the nested
    route otherwise. */
module PrivateLayout {
  import opened Common
  import opened AuthSlice

  datatype View = RedirectTo(path: string) | RenderOutlet

  const LoginPath: string := "/login"

  /** `if (!user) redirect`: a session record is an object, hence truthy. */
  function Guard(auth: AuthState): View
  {
    if auth.user.None? then RedirectTo(LoginPath) else RenderOutlet
  }

  /** The guard redirects exactly when there is no session, and to "/login". */
  lemma GuardRedirectsIffNoSession(auth: AuthState)
    ensures Guard(auth).RedirectTo? <==> auth.user == None
    ensures Guard(auth).RedirectTo? ==> Guard(auth).path == "/login"
  {
  }

  /** The decision reads only the session: account, flags and message (and so
      any role) never change it. */
  lemma GuardReadsOnlyUser(a: AuthState, b: AuthState)
    requires a.user == b.user
    ensures Guard(a) == Guard(b)
  {
  }

  /** After a logout, or a rejection of any of the five token-free thunks, the
      guard redirects; after a login fulfilled with a session it renders. */
  lemma GuardAfterActions(s: AuthState, t: AuthThunk, reason: Option<string>, session: Session)
    ensures Guard(Reduce(s, LogoutFulfilled)) == RedirectTo(LoginPath)
    ensures Unauthenticated(t) ==> Guard(Reduce(s, Rejected(t, reason))) == RedirectTo(LoginPath)
    ensures Guard(Reduce(s, LoginFulfilled(Some(session)))) == RenderOutlet
    ensures Guard(Reduce(s, ActivateFulfilled(Some(session)))) == RenderOutlet
  {
  }

  /** A failing getUserInfo or update does not log the user out, and neither
      does `reset` nor any pending case. */
  lemma GuardUnchangedBy(s: AuthState, t: AuthThunk, reason: Option<string>)
    ensures !Unauthenticated(t) ==> Guard(Reduce(s, Rejected(t, reason))) == Guard(s)
    ensures Guard(Reduce(s, Reset)) == Guard(s)
    ensures Guard(Reduce(s, Pending(t))) == Guard(s)
  {
  }

  /** The actions that give the slice a session. */
  predicate SignsIn(a: AuthAction)
  {
    (a.LoginFulfilled? && a.session.Some?) || (a.ActivateFulfilled? && a.session.Some?)
  }

  /** Once redirected, the guard keeps redirecting until a login or an
      activation is fulfilled with a session. */
  lemma {:induction false} StaysRedirected(s: AuthState, actions: seq<AuthAction>)
    requires Guard(s).RedirectTo?
    requires forall i :: 0 <= i < |actions| ==> !SignsIn(actions[i])
    ensures Guard(Run(s, actions)) == RedirectTo(LoginPath)
    decreases |actions|
  {
    if actions != [] {
      assert !SignsIn(actions[0]);
      StaysRedirected(Reduce(s, actions[0]), actions[1..]);
    }
  }

  /** Conversely, a user once let in stays in until a logout or a rejection of
      a token-free thunk, or a fulfilled login or activation with a falsy body. */
  predicate SignsOut(a: AuthAction)
  {
    a.LogoutFulfilled? || (a.Rejected? && Unauthenticated(a.thunk))
    || (a.LoginFulfilled? && a.session.None?) || (a.ActivateFulfilled? && a.session.None?)
  }

  lemma {:induction false} StaysRendered(s: AuthState, actions: seq<AuthAction>)
    requires Guard(s) == RenderOutlet
    requires forall i :: 0 <= i < |actions| ==> !SignsOut(actions[i])
    ensures Guard(Run(s, actions)) == RenderOutlet
    decreases |actions|
  {
    if actions != [] {
      assert !SignsOut(actions[0]);
      StaysRendered(Reduce(s, actions[0]), actions[1..]);
    }
  }
}
