/** The route guard that wraps every page: on each pathname change it reads the two
    session slots and either signs the visitor out, sends them to the dashboard,
    or lets the page render. */
module Guard {
  import opened Wrappers
  import opened Session

  /** The three outcomes of the guard. */
  datatype Action = SignOut | ToDashboard | Stay

  /** The pages reachable without a session. */
  predicate IsAuthPage(path: string)
    ensures IsAuthPage(path) <==> path in {LoginRoute, SignupRoute}
    ensures IsAuthPage(path) ==> path != DashboardRoute
  {
    path == LoginRoute || path == SignupRoute
  }

  /** The guard's case split over (token present, userId present, on an auth page). */
  function Decide(hasToken: bool, hasUserId: bool, onAuthPage: bool): (a: Action)
    ensures a == SignOut <==> (!hasToken || !hasUserId) && !onAuthPage
    ensures a == ToDashboard <==> hasToken && hasUserId && onAuthPage
    ensures a == Stay <==> (hasToken && hasUserId) != onAuthPage
  {
    if (!hasToken || !hasUserId) && !onAuthPage then SignOut
    else if hasToken && hasUserId && onAuthPage then ToDashboard
    else Stay
  }

  /** The guard's decision for a stored session on a path. */
  function DecideFor(s: Slots, path: string): (a: Action)
    ensures a == SignOut <==> !SignedIn(s) && !IsAuthPage(path)
    ensures a == ToDashboard <==> SignedIn(s) && IsAuthPage(path)
  {
    Decide(Present(s.token), Present(s.userId), IsAuthPage(path))
  }

  /** The storage after the guard has run on `path`. */
  function AfterGuard(s: Slots, path: string): (r: Slots)
    ensures DecideFor(s, path) == SignOut ==> r == Cleared
    ensures DecideFor(s, path) != SignOut ==> r == s
  {
    if DecideFor(s, path) == SignOut then Cleared else s
  }

  /** The route the guard pushes, if any. */
  function Target(a: Action): (r: Option<string>)
    ensures r.None? <==> a == Stay
  {
    match a
    case SignOut => Some(LoginRoute)
    case ToDashboard => Some(DashboardRoute)
    case Stay => None
  }

  /** Running the guard a second time on the same path changes the storage no further. */
  lemma GuardIdempotent(s: Slots, path: string)
    ensures AfterGuard(AfterGuard(s, path), path) == AfterGuard(s, path)
    ensures DecideFor(s, path) == SignOut ==> DecideFor(AfterGuard(s, path), path) == SignOut
  {
  }

  /** On a gated page the guard leaves no half session behind: both slots are present
      or both are removed. */
  lemma GatedPageSessionIsWhole(s: Slots, path: string)
    requires !IsAuthPage(path)
    ensures AfterGuard(s, path) == Cleared || SignedIn(AfterGuard(s, path))
  {
  }

  class AuthWrapper {
    var isLoading: bool

    constructor ()
      ensures isLoading
    {
      isLoading := true;
    }

    /** The effect that runs whenever the pathname changes. */
    method Check(store: SessionStore, pathname: string)
      modifies this, store
      ensures !isLoading
      ensures store.Stored() == AfterGuard(old(store.Stored()), pathname)
      ensures store.lastNavigation ==
        (match Target(DecideFor(old(store.Stored()), pathname))
         case Some(route) => Some(route)
         case None => old(store.lastNavigation))
      // the four cases spelled out
      ensures !SignedIn(old(store.Stored())) && !IsAuthPage(pathname) ==>
        store.Stored() == Cleared && store.lastNavigation == Some(LoginRoute)
      ensures SignedIn(old(store.Stored())) && IsAuthPage(pathname) ==>
        store.Stored() == old(store.Stored()) && store.lastNavigation == Some(DashboardRoute)
      ensures SignedIn(old(store.Stored())) == !IsAuthPage(pathname) ==>
        store.Stored() == old(store.Stored()) && store.lastNavigation == old(store.lastNavigation)
    {
      var token := store.token;
      var userId := store.userId;
      var isAuthPage := pathname == LoginRoute || pathname == SignupRoute;
      if (!Present(token) || !Present(userId)) && !isAuthPage {
        store.Clear();
        store.Navigate(LoginRoute);
      } else if Present(token) && Present(userId) && isAuthPage {
        store.Navigate(DashboardRoute);
      }
      isLoading := false;
    }
  }

  /** A client of the guard: two runs on a gated page with a half session clear it once
      and leave it cleared. */
  method CheckTwice(wrapper: AuthWrapper, store: SessionStore, pathname: string)
    requires !IsAuthPage(pathname) && !SignedIn(store.Stored())
    modifies wrapper, store
    ensures store.Stored() == Cleared && store.lastNavigation == Some(LoginRoute)
    ensures !wrapper.isLoading
  {
    wrapper.Check(store, pathname);
    ghost var once := store.Stored();
    wrapper.Check(store, pathname);
    assert store.Stored() == once;
  }
}
