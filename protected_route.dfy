/** The guard placed around every protected view. */
module ProtectedRoute {
  import opened Wrappers
  import opened AuthSlice

  /** What the guard renders: the waiting view, a redirect, or its children. */
  datatype GuardView = Waiting | Redirect(to: string, replace: bool) | Children

  /**
   * Loading wins; otherwise a session without authentication or without a
   * user is sent, replacing the history entry, to "/"; otherwise the
   * children render unchanged.
   */
  function Guard(s: AuthState): (v: GuardView)
    ensures v.Waiting? <==> s.loading
    ensures v.Redirect? <==> !s.loading && (!s.isAuthenticated || s.user.None?)
    ensures v.Redirect? ==> v == Redirect("/", true)
    ensures v.Children? <==> !s.loading && s.isAuthenticated && s.user.Some?
  {
    if s.loading then Waiting
    else if !s.isAuthenticated || s.user.None? then Redirect("/", true)
    else Children
  }

  /** The decision reads only `loading`, `isAuthenticated` and whether a user is present. */
  lemma GuardReadsThreeBits(s: AuthState, t: AuthState)
    requires s.loading == t.loading && s.isAuthenticated == t.isAuthenticated
    requires s.user.Some? == t.user.Some?
    ensures Guard(s) == Guard(t)
  {
  }

  /**
   * On a consistent session that is not loading, the guard renders its
   * children exactly when the session is authenticated.
   */
  lemma GuardOnConsistentSession(s: AuthState)
    requires s.Consistent() && !s.loading
    ensures Guard(s).Children? <==> s.isAuthenticated
    ensures !s.isAuthenticated ==> Guard(s) == Redirect("/", true)
  {
  }
}
