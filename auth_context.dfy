/** The context façade: what it exposes, its `logout`, and the `useAuth` hook. */
module AuthContext {
  import opened Wrappers
  import opened AuthSlice

  /** The provider's `value`, less its `logout` function. */
  datatype AuthValue = AuthValue(user: Option<User>, isAuthenticated: bool)

  /** The provider's `user` and `isAuthenticated`, read from the session. */
  function ProvidedValue(s: AuthState): AuthValue {
    AuthValue(s.user, s.isAuthenticated)
  }

  /** On a consistent session the provider never reports an authenticated session without a user. */
  lemma ProviderNeverAuthenticatedWithoutUser(s: AuthState, st: Storage, a: Action)
    requires s.Consistent()
    ensures ProvidedValue(s).isAuthenticated ==> ProvidedValue(s).user.Some?
    ensures ProvidedValue(Reduce(s, st, a)).isAuthenticated ==> ProvidedValue(Reduce(s, st, a)).user.Some?
  {
    ReduceKeepsConsistent(s, st, a);
  }

  /** After the `logout` reducer, which a 401 also applies, the provider reports no user and no session. */
  lemma ProviderSignedOutAfterLogout(s: AuthState, st: Storage)
    ensures ProvidedValue(Reduce(s, st, Action.Logout)) == AuthValue(None, false)
  {
  }

  /**
   * The `logout` without an e-mail keeps the provider's value, but what it
   * leaves in storage restores nothing: the next start of the application
   * reports no user and no session.
   */
  lemma ProviderAfterStorageOnlyLogout(st: Storage)
    ensures ProvidedValue(Reduce(InitialState, Unpersist(st), LoadUserFromStorage)) == AuthValue(None, false)
  {
    UnpersistForgets(st);
  }

  const OutsideProvider: string := "useAuth must be used within an AuthProvider"

  /** `useAuth` throws outside a provider and otherwise returns the provider's value. */
  function UseAuth(context: Option<AuthValue>): (r: Result<AuthValue, string>)
    ensures r.Failure? <==> context.None?
    ensures r.Failure? ==> r.error == OutsideProvider
    ensures r.Success? ==> r.value == context.value
  {
    match context
    case None => Failure(OutsideProvider)
    case Some(v) => Success(v)
  }

  /** `user?.email`. */
  function EmailOf(user: Option<User>): Option<string> {
    if user.Some? then user.value.email else None
  }

  /** The remote logout call: its body's email and its `Authorization` header. */
  datatype LogoutRequest = LogoutRequest(email: string, authorization: string)

  /**
   * The façade's `logout`. With a user email it runs the `logoutUser`
   * operation for exactly that email (`remote` is the server's answer),
   * which signs the session out either way. Without one it only removes the
   * two stored items: the in-memory session, authenticated or not, stays as it was.
   */
  method Logout(session: Session, remote: Outcome<()>) returns (request: Option<LogoutRequest>)
    requires session.Valid()
    modifies session
    ensures session.Valid()
    ensures session.storage == Unpersist(old(session.storage))
    ensures Truthy(EmailOf(old(session.user))) ==>
      && request == Some(LogoutRequest(EmailOf(old(session.user)).value, old(session.LogoutAuthorization())))
      && session.user.None? && session.token.None? && !session.isAuthenticated && !session.loading
      && session.error == (if remote.Fulfilled? then None else Some(RejectionMessage(LogoutUser, remote.message)))
    ensures !Truthy(EmailOf(old(session.user))) ==>
      && request.None? && session.State() == old(session.State())
      && ProvidedValue(session.State()) == ProvidedValue(old(session.State()))
      && StoredSession(session.storage).None?
  {
    var email := EmailOf(session.user);
    if Truthy(email) {
      session.Begin(LogoutUser);
      request := Some(LogoutRequest(email.value, session.LogoutAuthorization()));
      session.SettleLogout(remote);
    } else {
      request := None;
      session.storage := Unpersist(session.storage);
      UnpersistForgets(old(session.storage));
    }
  }
}
