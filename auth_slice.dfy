/**
 * The session slice: the in-memory session record, the reducer cases that
 * update it, and the two browser-storage items that mirror it.
 *
 * `Reduce` is the reducer table as a function of the state, the storage it
 * reads and the action; `Session` holds the same record as fields that its
 * methods assign in place, and each asynchronous operation is split into a
 * `Pending` step and a `Settle...` step that receives the remote outcome.
 */
module AuthSlice {
  import opened Wrappers

  /** The user record the server returns. The session treats it as opaque; only `email` is read (by the logout façade). */
  datatype User = User(id: string, name: string, email: Option<string>, role: string)

  /** `{ token, user }`, the body of a successful login or registration response. */
  datatype AuthPayload = AuthPayload(token: string, user: User)

  /**
   * One item of the browser's key-value store. The store holds strings:
   * `Text(s)` is the string s itself, `UserJson(u)` is the JSON text of
   * the user record u, which is never empty and which parses back to u, and
   * `NullJson` is the text "null", which `JSON.stringify` writes for a
   * `null` user and which parses back to `null`.
   */
  datatype Stored = Text(text: string) | UserJson(user: User) | NullJson

  type Storage = map<string, Stored>

  const UserKey: string := "flowerfarm_user"
  const TokenKey: string := "flowerfarm_token"

  /** The slice state `{ user, token, loading, error, isAuthenticated }`. */
  datatype AuthState = AuthState(
    user: Option<User>,
    token: Option<string>,
    loading: bool,
    error: Option<string>,
    isAuthenticated: bool)
  {
    /** An authenticated session holds both a user and a token. */
    predicate Consistent() {
      isAuthenticated ==> user.Some? && token.Some?
    }
  }

  const InitialState: AuthState := AuthState(None, None, false, None, false)

  /**
   * The prefix of every operation's endpoint: `${VITE_BASE_URL}/api/v1`,
   * else `${REACT_APP_BASE_URL}/api/v1`, else the relative "/api/v1".
   */
  function ApiPrefix(viteBaseUrl: Option<string>, reactAppBaseUrl: Option<string>): (url: string)
    ensures Truthy(viteBaseUrl) ==> url == viteBaseUrl.value + "/api/v1"
    ensures !Truthy(viteBaseUrl) && Truthy(reactAppBaseUrl) ==> url == reactAppBaseUrl.value + "/api/v1"
    ensures !Truthy(viteBaseUrl) && !Truthy(reactAppBaseUrl) ==> url == "/api/v1"
  {
    if Truthy(viteBaseUrl) then viteBaseUrl.value + "/api/v1"
    else if Truthy(reactAppBaseUrl) then reactAppBaseUrl.value + "/api/v1"
    else "/api/v1"
  }

  /** The five asynchronous operations. */
  datatype Thunk = LoginUser | RegisterUser | LogoutUser | ForgotPassword | ResetPassword

  /**
   * What a remote call comes back with: the response payload, or a
   * rejection carrying the server's `message` when the error response has one.
   */
  datatype Outcome<T> = Fulfilled(payload: T) | Rejected(message: Option<string>)

  /** The fixed message each operation reports when the server gives none. */
  function Fallback(t: Thunk): string {
    match t
    case LoginUser => "Invalid credentials"
    case RegisterUser => "Registration failed"
    case LogoutUser => "Logout failed"
    case ForgotPassword => "Failed to send reset email"
    case ResetPassword => "Failed to reset password"
  }

  /** `message || fallback`: the value an operation rejects with. */
  function RejectionMessage(t: Thunk, message: Option<string>): (m: string)
    ensures m != ""
    ensures Truthy(message) ==> m == message.value
    ensures !Truthy(message) ==> m == Fallback(t)
  {
    if Truthy(message) then message.value else Fallback(t)
  }

  /** The two `setItem` calls of a successful login or registration. */
  function Persist(st: Storage, auth: AuthPayload): (r: Storage)
    ensures r.Keys == st.Keys + {UserKey, TokenKey}
    ensures r[UserKey] == UserJson(auth.user) && r[TokenKey] == Text(auth.token)
    ensures forall k :: k in st && k != UserKey && k != TokenKey ==> r[k] == st[k]
  {
    st[UserKey := UserJson(auth.user)][TokenKey := Text(auth.token)]
  }

  /** The two `removeItem` calls. */
  function Unpersist(st: Storage): (r: Storage)
    ensures r.Keys == st.Keys - {UserKey, TokenKey}
    ensures forall k :: k in r ==> r[k] == st[k]
  {
    st - {UserKey, TokenKey}
  }

  /** Both session items are present, or neither is. */
  predicate Paired(st: Storage) {
    UserKey in st <==> TokenKey in st
  }

  /** `localStorage.getItem('flowerfarm_token')` when it holds a string. */
  function StoredToken(st: Storage): Option<string> {
    if TokenKey in st && st[TokenKey].Text? then Some(st[TokenKey].text) else None
  }

  /**
   * The session `loadUserFromStorage` finds: the user item holds a user's
   * JSON and the token item a non-empty string (`if (user && token)`).
   */
  function StoredSession(st: Storage): (r: Option<AuthPayload>)
    ensures r.Some? <==> UserKey in st && st[UserKey].UserJson? && Truthy(StoredToken(st))
    ensures r.Some? ==> r.value.user == st[UserKey].user && Some(r.value.token) == StoredToken(st)
  {
    if UserKey in st && st[UserKey].UserJson? && Truthy(StoredToken(st))
    then Some(AuthPayload(StoredToken(st).value, st[UserKey].user))
    else None
  }

  /**
   * `loadUserFromStorage` exactly as written: `if (user && token)` accepts
   * any non-empty user item, so the item "null" restores an authenticated
   * session that has no user.
   */
  function RestoreAsWritten(s: AuthState, st: Storage): (r: AuthState)
    ensures UserKey in st && st[UserKey].NullJson? && Truthy(StoredToken(st)) ==>
      r == s.(user := None, token := StoredToken(st), isAuthenticated := true) && !r.Consistent()
    ensures !(UserKey in st && st[UserKey].NullJson? && Truthy(StoredToken(st))) ==>
      r == Reduce(s, st, LoadUserFromStorage)
  {
    if UserKey in st && st[UserKey].NullJson? && Truthy(StoredToken(st))
    then s.(user := None, token := StoredToken(st), isAuthenticated := true)
    else Reduce(s, st, LoadUserFromStorage)
  }

  /** The synchronous reducers and every `pending`/`fulfilled`/`rejected` case. */
  datatype Action =
    | Logout
    | ClearError
    | LoadUserFromStorage
    | Pending(thunk: Thunk)
    | LoginFulfilled(auth: AuthPayload)
    | LoginRejected(message: string)
    | RegisterFulfilled(auth: AuthPayload)
    | RegisterRejected(message: string)
    | LogoutFulfilled
    | LogoutRejected(message: string)
    | ForgotPasswordFulfilled
    | ForgotPasswordRejected(message: string)
    | ResetPasswordFulfilled
    | ResetPasswordRejected(message: string)

  /** The reducer table: the state after action `a`, given the storage the reducer reads. */
  function Reduce(s: AuthState, st: Storage, a: Action): AuthState {
    match a
    case Logout => s.(user := None, token := None, isAuthenticated := false, error := None)
    case ClearError => s.(error := None)
    case LoadUserFromStorage =>
      (match StoredSession(st)
       case Some(p) => s.(user := Some(p.user), token := Some(p.token), isAuthenticated := true)
       case None => s)
    case Pending(_) => s.(loading := true, error := None)
    case LoginFulfilled(p) => s.(loading := false, user := Some(p.user), token := Some(p.token), isAuthenticated := true)
    case LoginRejected(m) => s.(loading := false, error := Some(m))
    case RegisterFulfilled(p) => s.(loading := false, user := Some(p.user), token := Some(p.token), isAuthenticated := true)
    case RegisterRejected(m) => s.(loading := false, error := Some(m))
    case LogoutFulfilled => s.(loading := false, user := None, token := None, isAuthenticated := false)
    case LogoutRejected(m) => s.(loading := false, user := None, token := None, isAuthenticated := false, error := Some(m))
    case ForgotPasswordFulfilled => s.(loading := false)
    case ForgotPasswordRejected(m) => s.(loading := false, error := Some(m))
    case ResetPasswordFulfilled => s.(loading := false)
    case ResetPasswordRejected(m) => s.(loading := false, error := Some(m))
  }

  /** The storage after the reducer runs: only the `logout` reducer touches it. */
  function ReducerStorage(st: Storage, a: Action): Storage {
    if a.Logout? then Unpersist(st) else st
  }

  /** Every reducer case keeps the session consistent. */
  lemma ReduceKeepsConsistent(s: AuthState, st: Storage, a: Action)
    requires s.Consistent()
    ensures Reduce(s, st, a).Consistent()
  {
  }

  /** Every pending case sets `loading` and clears `error`, and nothing else. */
  lemma PendingOnlyMarksLoading(s: AuthState, st: Storage, t: Thunk)
    ensures var r := Reduce(s, st, Pending(t));
      r.loading && r.error.None? &&
      r.user == s.user && r.token == s.token && r.isAuthenticated == s.isAuthenticated
    ensures ReducerStorage(st, Pending(t)) == st
  {
  }

  /** The `logout` reducer clears the session and both items, keeps `loading`, and is idempotent. */
  lemma LogoutIdempotent(s: AuthState, st: Storage)
    ensures var r := Reduce(s, st, Logout);
      r.user.None? && r.token.None? && !r.isAuthenticated && r.error.None? && r.loading == s.loading
    ensures UserKey !in ReducerStorage(st, Logout) && TokenKey !in ReducerStorage(st, Logout)
    ensures Reduce(Reduce(s, st, Logout), ReducerStorage(st, Logout), Logout) == Reduce(s, st, Logout)
    ensures ReducerStorage(ReducerStorage(st, Logout), Logout) == ReducerStorage(st, Logout)
  {
  }

  /** `clearError` changes only `error`. */
  lemma ClearErrorOnlyClears(s: AuthState, st: Storage)
    ensures Reduce(s, st, ClearError) == s.(error := None)
    ensures ReducerStorage(st, ClearError) == st
  {
  }

  /**
   * `loadUserFromStorage` authenticates exactly when both items are there,
   * otherwise leaves the state alone, and applying it twice is applying it once.
   */
  lemma RestoreIdempotent(s: AuthState, st: Storage)
    ensures StoredSession(st).Some? ==>
      Reduce(s, st, LoadUserFromStorage)
        == s.(user := Some(StoredSession(st).value.user), token := Some(StoredSession(st).value.token), isAuthenticated := true)
    ensures StoredSession(st).None? ==> Reduce(s, st, LoadUserFromStorage) == s
    ensures Reduce(Reduce(s, st, LoadUserFromStorage), st, LoadUserFromStorage) == Reduce(s, st, LoadUserFromStorage)
  {
  }

  /** The restore the model uses treats a "null" user item as no session: the state is left as it was. */
  lemma NullUserIgnored(s: AuthState, st: Storage)
    requires UserKey in st && st[UserKey].NullJson?
    ensures Reduce(s, st, LoadUserFromStorage) == s
    ensures s.Consistent() ==> Reduce(s, st, LoadUserFromStorage).Consistent()
  {
  }

  /** What a successful login or registration writes is what a later restore reads back (when the token is non-empty). */
  lemma PersistThenRestore(st: Storage, auth: AuthPayload)
    ensures Paired(Persist(st, auth))
    ensures StoredSession(Persist(st, auth)) == if auth.token != "" then Some(auth) else None
  {
    assert StoredToken(Persist(st, auth)) == Some(auth.token);
  }

  /** After the items are removed nothing can be restored, and the pair is consistent. */
  lemma UnpersistForgets(st: Storage)
    ensures Paired(Unpersist(st))
    ensures StoredSession(Unpersist(st)).None? && StoredToken(Unpersist(st)).None?
  {
  }

  /**
   * A process restart after a successful login: the fresh session, restored
   * from what the login wrote, is authenticated as the same user with the same
   * token and has made no remote call.
   */
  lemma RestartRestoresSession(st: Storage, auth: AuthPayload)
    requires auth.token != ""
    ensures Reduce(InitialState, Persist(st, auth), LoadUserFromStorage)
      == AuthState(Some(auth.user), Some(auth.token), false, None, true)
  {
    PersistThenRestore(st, auth);
  }

  /**
   * A sign-in from any state: the pending step followed by the fulfilled
   * step leaves exactly the payload's session, not loading and without error.
   */
  lemma SignInSequence(s: AuthState, st: Storage, auth: AuthPayload)
    ensures Reduce(Reduce(s, st, Pending(LoginUser)), st, LoginFulfilled(auth))
      == AuthState(Some(auth.user), Some(auth.token), false, None, true)
  {
  }

  /** The session record and its storage mirror, updated in place. */
  class Session {
    var user: Option<User>
    var token: Option<string>
    var loading: bool
    var error: Option<string>
    var isAuthenticated: bool
    var storage: Storage

    /** The snapshot selectors read. */
    function State(): AuthState
      reads this
    {
      AuthState(user, token, loading, error, isAuthenticated)
    }

    ghost predicate Valid()
      reads this
    {
      State().Consistent()
    }

    /** `initialState`, with whatever the storage held when the process started. */
    constructor (persisted: Storage)
      ensures Valid()
      ensures State() == InitialState && storage == persisted
    {
      user, token, loading, error, isAuthenticated := None, None, false, None, false;
      storage := persisted;
    }

    /** Runs one reducer case on the fields (and the `logout` reducer's removals). */
    method Dispatch(a: Action)
      requires Valid()
      modifies this
      ensures Valid()
      ensures State() == Reduce(old(State()), old(storage), a)
      ensures storage == ReducerStorage(old(storage), a)
    {
      match a {
        case Logout =>
          user, token, isAuthenticated, error := None, None, false, None;
          storage := Unpersist(storage);
        case ClearError =>
          error := None;
        case LoadUserFromStorage =>
          var restored := StoredSession(storage);
          if restored.Some? {
            user, token, isAuthenticated := Some(restored.value.user), Some(restored.value.token), true;
          }
        case Pending(_) =>
          loading, error := true, None;
        case LoginFulfilled(p) =>
          loading, user, token, isAuthenticated := false, Some(p.user), Some(p.token), true;
        case LoginRejected(m) =>
          loading, error := false, Some(m);
        case RegisterFulfilled(p) =>
          loading, user, token, isAuthenticated := false, Some(p.user), Some(p.token), true;
        case RegisterRejected(m) =>
          loading, error := false, Some(m);
        case LogoutFulfilled =>
          loading, user, token, isAuthenticated := false, None, None, false;
        case LogoutRejected(m) =>
          loading, user, token, isAuthenticated, error := false, None, None, false, Some(m);
        case ForgotPasswordFulfilled =>
          loading := false;
        case ForgotPasswordRejected(m) =>
          loading, error := false, Some(m);
        case ResetPasswordFulfilled =>
          loading := false;
        case ResetPasswordRejected(m) =>
          loading, error := false, Some(m);
      }
    }

    /** The first step of any operation: its `pending` case. */
    method Begin(t: Thunk)
      requires Valid()
      modifies this
      ensures Valid()
      ensures loading && error.None?
      ensures user == old(user) && token == old(token) && isAuthenticated == old(isAuthenticated)
      ensures storage == old(storage)
    {
      Dispatch(Pending(t));
    }

    /**
     * `loginUser` settles. Fulfilled: both items are written, then the
     * session takes the payload's user and token. Rejected: only `loading`
     * and `error` change, and nothing is written.
     */
    method SettleLogin(o: Outcome<AuthPayload>)
      requires Valid()
      modifies this
      ensures Valid()
      ensures Paired(storage) || storage == old(storage)
      ensures o.Fulfilled? ==>
        && user == Some(o.payload.user) && token == Some(o.payload.token)
        && isAuthenticated && !loading && error == old(error)
        && storage == Persist(old(storage), o.payload)
      ensures o.Rejected? ==>
        && State() == old(State()).(loading := false, error := Some(RejectionMessage(LoginUser, o.message)))
        && storage == old(storage)
    {
      match o {
        case Fulfilled(p) =>
          storage := Persist(storage, p);
          PersistThenRestore(old(storage), p);
          Dispatch(LoginFulfilled(p));
        case Rejected(m) =>
          Dispatch(LoginRejected(RejectionMessage(LoginUser, m)));
      }
    }

    /** `registerUser` settles, as `SettleLogin` does but with its own fallback message. */
    method SettleRegister(o: Outcome<AuthPayload>)
      requires Valid()
      modifies this
      ensures Valid()
      ensures Paired(storage) || storage == old(storage)
      ensures o.Fulfilled? ==>
        && user == Some(o.payload.user) && token == Some(o.payload.token)
        && isAuthenticated && !loading && error == old(error)
        && storage == Persist(old(storage), o.payload)
      ensures o.Rejected? ==>
        && State() == old(State()).(loading := false, error := Some(RejectionMessage(RegisterUser, o.message)))
        && storage == old(storage)
    {
      match o {
        case Fulfilled(p) =>
          storage := Persist(storage, p);
          PersistThenRestore(old(storage), p);
          Dispatch(RegisterFulfilled(p));
        case Rejected(m) =>
          Dispatch(RegisterRejected(RejectionMessage(RegisterUser, m)));
      }
    }

    /**
     * `logoutUser` settles. On both paths the two items are removed and the
     * session is signed out; only a rejection sets `error`.
     */
    method SettleLogout(o: Outcome<()>)
      requires Valid()
      modifies this
      ensures Valid()
      ensures user.None? && token.None? && !isAuthenticated && !loading
      ensures storage == Unpersist(old(storage)) && Paired(storage)
      ensures error == if o.Fulfilled? then old(error) else Some(RejectionMessage(LogoutUser, o.message))
    {
      storage := Unpersist(storage);
      match o {
        case Fulfilled(_) =>
          Dispatch(LogoutFulfilled);
        case Rejected(m) =>
          Dispatch(LogoutRejected(RejectionMessage(LogoutUser, m)));
      }
    }

    /** `forgotPassword` settles: never touches the session's identity or the storage. */
    method SettleForgotPassword(o: Outcome<()>)
      requires Valid()
      modifies this
      ensures Valid()
      ensures user == old(user) && token == old(token) && isAuthenticated == old(isAuthenticated)
      ensures storage == old(storage) && !loading
      ensures error == if o.Fulfilled? then old(error) else Some(RejectionMessage(ForgotPassword, o.message))
    {
      match o {
        case Fulfilled(_) =>
          Dispatch(ForgotPasswordFulfilled);
        case Rejected(m) =>
          Dispatch(ForgotPasswordRejected(RejectionMessage(ForgotPassword, m)));
      }
    }

    /** `resetPassword` settles: never touches the session's identity or the storage. */
    method SettleResetPassword(o: Outcome<()>)
      requires Valid()
      modifies this
      ensures Valid()
      ensures user == old(user) && token == old(token) && isAuthenticated == old(isAuthenticated)
      ensures storage == old(storage) && !loading
      ensures error == if o.Fulfilled? then old(error) else Some(RejectionMessage(ResetPassword, o.message))
    {
      match o {
        case Fulfilled(_) =>
          Dispatch(ResetPasswordFulfilled);
        case Rejected(m) =>
          Dispatch(ResetPasswordRejected(RejectionMessage(ResetPassword, m)));
      }
    }

    /**
     * The `Authorization` header the remote logout call carries:
     * `Bearer ${getState().auth.token || localStorage.getItem(...)}`, where a
     * missing stored item prints as "null".
     */
    function LogoutAuthorization(): (h: string)
      reads this
      ensures Truthy(token) ==> h == "Bearer " + token.value
      ensures !Truthy(token) && StoredToken(storage).Some? ==> h == "Bearer " + StoredToken(storage).value
      ensures !Truthy(token) && StoredToken(storage).None? ==> h == "Bearer null"
    {
      "Bearer " + if Truthy(token) then token.value
                  else match StoredToken(storage) case Some(t) => t case None => "null"
    }
  }
}
