/** The route gate of the front end: a protected page is rendered only for a
    signed-in session, and every other visitor is sent to the login page. */
module PrivateRoute {
  import opened Wrappers
  import opened AuthContext

  /** What the gate renders: a redirect, or its child unchanged. */
  datatype Outcome<T> = Navigate(to: string, replace: bool) | Render(child: T)

  const LOGIN_PATH := "/login"

  /** A signed-in session: an admin and a non-empty token. */
  predicate SignedIn(s: Session) {
    s.admin.Some? && Truthy(s.token)
  }

  /** `ProtectedRoute`: a missing admin, or a missing or empty token, replaces
      the current history entry with the login page. */
  function ProtectedRoute<T>(s: Session, child: T): (o: Outcome<T>)
    ensures o.Render? <==> SignedIn(s)
    ensures o.Render? ==> o.child == child
    ensures o.Navigate? ==> o == Navigate(LOGIN_PATH, true)
  {
    if s.admin.None? || !Truthy(s.token) then Navigate(LOGIN_PATH, true) else Render(child)
  }

  /** The gate looks at the admin and the token only: two sessions with the
      same pair decide the same way, whatever the child. */
  lemma DecidedBySession<T>(s1: Session, s2: Session, c1: T, c2: T)
    requires s1.admin.Some? == s2.admin.Some? && s1.token == s2.token
    ensures ProtectedRoute(s1, c1).Render? == ProtectedRoute(s2, c2).Render?
  {
  }

  /** The signed-out session is always redirected. */
  lemma SignedOutRedirects<T>(child: T)
    ensures ProtectedRoute(SIGNED_OUT, child) == Navigate(LOGIN_PATH, true)
  {
  }

  /** A session restored from a stored record is let through exactly when the
      stored token is non-empty. */
  lemma StoredSessionRenders<T>(stored: StoredAuth, child: T)
    ensures ProtectedRoute(SessionOf(stored), child) == (if stored.token != "" then Render(child) else Navigate(LOGIN_PATH, true))
  {
  }

  /** After `login(a, t)` with a non-empty token the gate renders its child;
      an empty token still redirects. */
  method RouteAfterLogin<T>(p: AuthProvider, a: Admin, t: string, child: T) returns (o: Outcome<T>)
    modifies p, p.storage
    ensures t != "" ==> o == Render(child)
    ensures t == "" ==> o == Navigate(LOGIN_PATH, true)
  {
    p.Login(a, t);
    o := ProtectedRoute(Session(p.admin, p.token), child);
  }

  /** After `logout` the gate redirects. */
  method RouteAfterLogout<T>(p: AuthProvider, child: T) returns (o: Outcome<T>)
    modifies p, p.storage
    ensures o == Navigate(LOGIN_PATH, true)
  {
    p.Logout();
    o := ProtectedRoute(Session(p.admin, p.token), child);
  }

  /** The paths whose element is wrapped in the gate. */
  const PROTECTED_PATHS := {"/", "/products", "/categories"}

  /** A reload of a protected page, as written. The first render happens
      before the provider's mount effect has read the storage, so the gate
      returns a redirect. Effects run child first: the redirect's navigation
      moves the location to the login page before the provider restores the
      session. The restored session is then rendered at the login page, and
      the protected page is not shown, even for a stored signed-in session. */
  method RouteOnReload<T>(storage: LocalStorage, path: string, child: T)
    returns (first: Outcome<T>, location: string, rendered: Option<T>)
    requires path in PROTECTED_PATHS
    ensures first == Navigate(LOGIN_PATH, true)
    ensures location == LOGIN_PATH && rendered == None
    ensures AUTH_KEY in storage.items && SignedIn(SessionOf(storage.items[AUTH_KEY])) ==> location != path
  {
    var p := new AuthProvider(storage);
    first := ProtectedRoute(Session(p.admin, p.token), child);
    location := path;
    if first.Navigate? {
      location := first.to;
    }
    p.LoadFromStorage();
    // The route at the login path has no gate, so the child is not rendered.
    rendered := None;
  }

  /** A gate that waits for the session to be restored: nothing is decided
      before the provider's mount effect has run, and afterwards the gate
      decides as `ProtectedRoute` does. */
  function GuardedRoute<T>(restored: bool, s: Session, child: T): (o: Option<Outcome<T>>)
    ensures o.None? <==> !restored
    ensures o.Some? ==> (o.value.Render? <==> SignedIn(s))
    ensures o.Some? && o.value.Render? ==> o.value.child == child
  {
    if restored then Some(ProtectedRoute(s, child)) else None
  }

  /** A reload of a protected page through the waiting gate: the page stays
      where it is and shows the child exactly when a session with a non-empty
      token is stored; otherwise it lands on the login page. */
  method GuardedRouteOnReload<T>(storage: LocalStorage, path: string, child: T)
    returns (location: string, rendered: Option<T>)
    requires path in PROTECTED_PATHS
    ensures rendered.Some? <==> AUTH_KEY in storage.items && storage.items[AUTH_KEY].token != ""
    ensures rendered.Some? ==> rendered.value == child && location == path
    ensures rendered.None? ==> location == LOGIN_PATH
  {
    var p := new AuthProvider(storage);
    location := path;
    rendered := None;
    // The first render decides nothing, so no redirect fires before the effect.
    var first := GuardedRoute(false, Session(p.admin, p.token), child);
    p.LoadFromStorage();
    var second := GuardedRoute(true, Session(p.admin, p.token), child);
    match second.value
    case Navigate(to, _) =>
      location := to;
    case Render(c) =>
      rendered := Some(c);
  }
}
