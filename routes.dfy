/**
 * The route table: which element each path renders for a session snapshot,
 * composed with the protected-route guard, and the restore from storage
 * dispatched when the table mounts.
 */
module Routes {
  import opened Wrappers
  import opened AuthSlice
  import opened ProtectedRoute
  import Login

  /** The pages behind the guard. */
  datatype Page = BillingPlan | Dashboard | Customers | Products | Invoices | CreateInvoice | Reports | Settings

  /** What a path renders. */
  datatype Element =
    | LoadingScreen                        // the table's own "Loading..." while an operation is pending
    | GuardWaiting                         // the guard's waiting view
    | LoginScreen
    | Navigate(to: string, replace: bool)
    | Render(page: Page, inLayout: bool)   // inLayout: wrapped in the shared menu layout

  /** The protected paths and their pages; the seven layout paths render inside the shared menu layout. */
  function ProtectedPage(path: string): Option<(Page, bool)> {
    if path == "/billing-plan" then Some((BillingPlan, false))
    else if path == "/dashboard" then Some((Dashboard, true))
    else if path == "/customers" then Some((Customers, true))
    else if path == "/products" then Some((Products, true))
    else if path == "/invoices" then Some((Invoices, true))
    else if path == "/create-invoice" then Some((CreateInvoice, true))
    else if path == "/reports" then Some((Reports, true))
    else if path == "/settings" then Some((Settings, true))
    else None
  }

  /** A page wrapped in the guard. */
  function Protect(page: Page, inLayout: bool, s: AuthState): Element {
    match Guard(s)
    case Waiting => GuardWaiting
    case Redirect(to, replace) => Navigate(to, replace)
    case Children => Render(page, inLayout)
  }

  /** The router's case-insensitive match folds the ASCII capitals; the route paths use no other letters. */
  function LowerAscii(c: char): char {
    if 'A' <= c <= 'Z' then (c as int + 32) as char else c
  }

  function FoldCase(path: string): (r: string)
    ensures |r| == |path| && forall k :: 0 <= k < |path| ==> r[k] == LowerAscii(path[k])
  {
    seq(|path|, k requires 0 <= k < |path| => LowerAscii(path[k]))
  }

  /** Drops every trailing '/': what remains is a prefix that does not end with one. */
  function TrimTrailingSlashes(path: string): (r: string)
    ensures |r| <= |path| && r == path[..|r|]
    ensures forall k :: |r| <= k < |path| ==> path[k] == '/'
    ensures r != [] ==> r[|r| - 1] != '/'
  {
    if path != [] && path[|path| - 1] == '/' then TrimTrailingSlashes(path[..|path| - 1]) else path
  }

  /**
   * What a path is matched as: letters compared without case and trailing
   * slashes ignored, so "/Dashboard/" is matched as "/dashboard" and "/" as "".
   */
  function RouteKey(path: string): string {
    TrimTrailingSlashes(FoldCase(path))
  }

  /**
   * The element for `path`. A pending operation shows the loading screen on
   * every path; "/sign-in" shows the login page, or sends an authenticated
   * session on to "/dashboard"; the protected paths are decided by the
   * guard; "/" and every other path are replaced by "/sign-in".
   */
  function Resolve(path: string, s: AuthState): (e: Element)
    ensures s.loading ==> e == LoadingScreen
    ensures !s.loading && RouteKey(path) == "/sign-in" ==>
      e == if s.isAuthenticated then Navigate("/dashboard", false) else LoginScreen
    ensures !s.loading && ProtectedPage(RouteKey(path)).Some? ==>
      e == Protect(ProtectedPage(RouteKey(path)).value.0, ProtectedPage(RouteKey(path)).value.1, s)
    ensures !s.loading && RouteKey(path) != "/sign-in" && ProtectedPage(RouteKey(path)).None? ==>
      e == Navigate("/sign-in", true)
  {
    var key := RouteKey(path);
    if s.loading then LoadingScreen
    else if key == "/sign-in" then (if s.isAuthenticated then Navigate("/dashboard", false) else LoginScreen)
    else if key == "" then Navigate("/sign-in", true)
    else match ProtectedPage(key)
      case Some((page, inLayout)) => Protect(page, inLayout, s)
      case None => Navigate("/sign-in", true)
  }

  /** Trailing slashes and the case of letters do not change what a path resolves to. */
  lemma ResolveIgnoresCaseAndTrailingSlash(path: string, s: AuthState)
    ensures Resolve(path + "/", s) == Resolve(path, s)
    ensures Resolve(FoldCase(path), s) == Resolve(path, s)
  {
    assert FoldCase(path + "/") == FoldCase(path) + "/";
    assert (FoldCase(path) + "/")[..|FoldCase(path)|] == FoldCase(path);
    assert FoldCase(FoldCase(path)) == FoldCase(path);
  }

  /** The paths the redirects target are their own keys ("/" being the empty key). */
  lemma TargetKeys()
    ensures RouteKey("/dashboard") == "/dashboard" && RouteKey("/sign-in") == "/sign-in"
    ensures RouteKey("/login") == "/login" && RouteKey("/") == ""
  {
    assert FoldCase("/dashboard") == "/dashboard";
    assert FoldCase("/sign-in") == "/sign-in";
    assert FoldCase("/login") == "/login";
    assert FoldCase("/") == "/";
    assert "/"[..0] == "";
  }

  /** The guard's waiting view is never reached through the table: the table waits first. */
  lemma GuardNeverWaitsInTable(path: string, s: AuthState)
    ensures Resolve(path, s) != GuardWaiting
  {
  }

  /** The interceptor's "/login" target is not a route: it is replaced by "/sign-in". */
  lemma InterceptorTargetGoesToSignIn(s: AuthState)
    requires !s.loading
    ensures Resolve("/login", s) == Navigate("/sign-in", true)
  {
  }

  /** Where following the redirects from `path` ends after at most `hops` of them. */
  function Follow(path: string, s: AuthState, hops: nat): Element
    decreases hops
  {
    var e := Resolve(path, s);
    if e.Navigate? && hops > 0 then Follow(e.to, s, hops - 1) else e
  }

  /**
   * On a consistent session that is not loading, every path settles within
   * three redirects: a signed-out session on the login page, a signed-in one
   * on the page it asked for, or on the dashboard for any other path.
   */
  lemma {:induction false} RedirectsSettle(path: string, s: AuthState)
    requires s.Consistent() && !s.loading
    ensures !s.isAuthenticated ==> Follow(path, s, 3) == LoginScreen
    ensures s.isAuthenticated && ProtectedPage(RouteKey(path)).Some? ==>
      Follow(path, s, 3) == Render(ProtectedPage(RouteKey(path)).value.0, ProtectedPage(RouteKey(path)).value.1)
    ensures s.isAuthenticated && ProtectedPage(RouteKey(path)).None? ==> Follow(path, s, 3) == Render(Dashboard, true)
  {
    TargetKeys();
    var e := Resolve(path, s);
    if s.isAuthenticated {
      assert Resolve("/dashboard", s) == Render(Dashboard, true);
      assert Resolve("/sign-in", s) == Navigate("/dashboard", false);
      assert Follow("/sign-in", s, 1) == Render(Dashboard, true);
      assert Follow("/sign-in", s, 2) == Render(Dashboard, true);
      if ProtectedPage(RouteKey(path)).None? {
        assert e == Navigate("/sign-in", true) || e == Navigate("/dashboard", false);
      }
    } else {
      assert Resolve("/sign-in", s) == LoginScreen;
      assert Follow("/sign-in", s, 1) == LoginScreen;
      assert Follow("/", s, 2) == LoginScreen;
      assert e == LoginScreen || e == Navigate("/", true) || e == Navigate("/sign-in", true);
    }
  }

  /**
   * Without the session invariant the table loops: an authenticated snapshot
   * with no user is sent from "/dashboard" to "/", from "/" to "/sign-in",
   * and from "/sign-in" back to "/dashboard".
   */
  lemma RedirectCycleWithoutUser(s: AuthState)
    requires !s.loading && s.isAuthenticated && s.user.None?
    ensures Resolve("/dashboard", s) == Navigate("/", true)
    ensures Resolve("/", s) == Navigate("/sign-in", true)
    ensures Resolve("/sign-in", s) == Navigate("/dashboard", false)
  {
  }

  /** Following redirects around that cycle never reaches a page. */
  lemma {:induction false} CycleNeverSettles(s: AuthState, hops: nat)
    requires !s.loading && s.isAuthenticated && s.user.None?
    ensures Follow("/dashboard", s, hops).Navigate?
    ensures Follow("/", s, hops).Navigate?
    ensures Follow("/sign-in", s, hops).Navigate?
    decreases hops
  {
    RedirectCycleWithoutUser(s);
    if hops > 0 {
      CycleNeverSettles(s, hops - 1);
    }
  }

  /**
   * The source's restore reaches that cycle: after a start with the user
   * item "null" and a token, "/dashboard" redirects forever.
   */
  lemma NullUserRestoreNeverSettles(st: Storage, hops: nat)
    requires UserKey in st && st[UserKey].NullJson? && Truthy(StoredToken(st))
    ensures Follow("/dashboard", RestoreAsWritten(InitialState, st), hops).Navigate?
  {
    CycleNeverSettles(RestoreAsWritten(InitialState, st), hops);
  }

  /** With the restore the model uses, the same start lands on the login page. */
  lemma NullUserRestoreLandsOnSignIn(st: Storage)
    requires UserKey in st && st[UserKey].NullJson?
    ensures Follow("/dashboard", Reduce(InitialState, st, LoadUserFromStorage), 3) == LoginScreen
  {
    NullUserIgnored(InitialState, st);
    RedirectsSettle("/dashboard", InitialState);
  }

  /**
   * A submit from the login page: while the operation is pending the table
   * shows its loading view in place of the page, and once a sign-up is
   * fulfilled "/sign-in" forwards to the dashboard, not to the billing plan.
   */
  lemma SignUpSubmitLandsOnDashboard(s: AuthState, st: Storage, p: AuthPayload)
    ensures Resolve("/sign-in", Reduce(s, st, Pending(RegisterUser))) == LoadingScreen
    ensures Follow("/sign-in", Reduce(Reduce(s, st, Pending(RegisterUser)), st, RegisterFulfilled(p)), 3)
      == Render(Dashboard, true)
  {
    TargetKeys();
    RedirectsSettle("/sign-in", Reduce(Reduce(s, st, Pending(RegisterUser)), st, RegisterFulfilled(p)));
  }

  /** The login page is shown only to a session that is not authenticated, so its own redirect never fires. */
  lemma LoginPageNeverRedirects(path: string, s: AuthState, isSignUp: bool)
    requires Resolve(path, s) == LoginScreen
    ensures Login.PostAuthRedirect(s.isAuthenticated, isSignUp).None?
  {
  }

  /**
   * A restart after a successful login: restoring from what the login wrote
   * lands a request for "/dashboard" on the dashboard, with no remote call.
   */
  lemma RestartLandsOnDashboard(st: Storage, auth: AuthPayload)
    requires auth.token != ""
    ensures Resolve("/dashboard", Reduce(InitialState, Persist(st, auth), LoadUserFromStorage)) == Render(Dashboard, true)
  {
    RestartRestoresSession(st, auth);
  }

  /**
   * Where the first render sends the browser: the target of the element
   * `path` resolves to, when that element is a redirect, else `path` itself.
   */
  function FirstHop(path: string, s: AuthState): string {
    match Resolve(path, s)
    case Navigate(to, _) => to
    case _ => path
  }

  /**
   * A reload with a login's record stored: the first render, still on the
   * initial state, sends every protected path to "/"; the restored session
   * then goes on through "/sign-in" to the dashboard, whichever protected
   * page was asked for.
   */
  lemma ReloadLandsOnDashboard(st: Storage, auth: AuthPayload, path: string)
    requires auth.token != "" && ProtectedPage(RouteKey(path)).Some?
    ensures FirstHop(path, InitialState) == "/"
    ensures Follow(FirstHop(path, InitialState), Reduce(InitialState, Persist(st, auth), LoadUserFromStorage), 3)
      == Render(Dashboard, true)
  {
    TargetKeys();
    RestartRestoresSession(st, auth);
    RedirectsSettle("/", Reduce(InitialState, Persist(st, auth), LoadUserFromStorage));
  }

  /**
   * Mounting the table. The first render resolves `path` against the state
   * as it is and takes its redirect; the mount effect then dispatches
   * `loadUserFromStorage`, and the element is what following the redirects
   * from there reaches on the restored state.
   */
  method Mount(session: Session, path: string) returns (e: Element)
    requires session.Valid()
    modifies session
    ensures session.Valid()
    ensures session.State() == Reduce(old(session.State()), old(session.storage), LoadUserFromStorage)
    ensures session.storage == old(session.storage)
    ensures e == Follow(FirstHop(path, old(session.State())), session.State(), 3)
  {
    var here := FirstHop(path, session.State());
    session.Dispatch(LoadUserFromStorage);
    e := Follow(here, session.State(), 3);
  }
}
