/**
 * The shared HTTP client's interceptors: the request hook attaches the
 * stored token as a bearer credential, the response hook turns a 401 into
 * the `logout` reducer and a redirect.
 */
module AxiosConfig {
  import opened Wrappers
  import opened AuthSlice
  import opened ProtectedRoute

  const DefaultBaseUrl: string := "https://ecommernceapi-ctz4.onrender.com/api/v1"

  /** `VITE_API_BASE_URL || REACT_APP_API_BASE_URL || <hard-coded URL>`. */
  function BaseUrl(viteApiBaseUrl: Option<string>, reactAppApiBaseUrl: Option<string>): (url: string)
    ensures url != ""
    ensures Truthy(viteApiBaseUrl) ==> url == viteApiBaseUrl.value
    ensures !Truthy(viteApiBaseUrl) && Truthy(reactAppApiBaseUrl) ==> url == reactAppApiBaseUrl.value
    ensures !Truthy(viteApiBaseUrl) && !Truthy(reactAppApiBaseUrl) ==> url == DefaultBaseUrl
  {
    if Truthy(viteApiBaseUrl) then viteApiBaseUrl.value
    else if Truthy(reactAppApiBaseUrl) then reactAppApiBaseUrl.value
    else DefaultBaseUrl
  }

  const AuthorizationHeader: string := "Authorization"

  /** An outgoing request's configuration. */
  datatype RequestConfig = RequestConfig(url: string, headers: map<string, string>, data: Option<string>)

  /**
   * The request hook. It reads the token from storage (it has no access to
   * the in-memory session); a non-empty token sets `Authorization` to
   * "Bearer <token>", anything else leaves the configuration as it was.
   * No other header and no other field changes.
   */
  function AttachToken(config: RequestConfig, st: Storage): (r: RequestConfig)
    ensures Truthy(StoredToken(st)) ==>
      r.headers == config.headers[AuthorizationHeader := "Bearer " + StoredToken(st).value]
    ensures !Truthy(StoredToken(st)) ==> r == config
    ensures r.url == config.url && r.data == config.data
    ensures forall h :: h != AuthorizationHeader ==>
      (h in r.headers <==> h in config.headers) && (h in r.headers ==> r.headers[h] == config.headers[h])
  {
    match StoredToken(st)
    case Some(t) =>
      if t != "" then config.(headers := config.headers[AuthorizationHeader := "Bearer " + t]) else config
    case None => config
  }

  /** A successful login leaves the storage holding exactly the bearer credential the next request carries. */
  lemma AttachAfterLogin(config: RequestConfig, st: Storage, auth: AuthPayload)
    requires auth.token != ""
    ensures AttachToken(config, Persist(st, auth)).headers[AuthorizationHeader] == "Bearer " + auth.token
  {
    assert StoredToken(Persist(st, auth)) == Some(auth.token);
  }

  /** After a logout the request hook attaches nothing. */
  lemma NoCredentialAfterLogout(config: RequestConfig, st: Storage)
    ensures AttachToken(config, Unpersist(st)) == config
  {
    UnpersistForgets(st);
  }

  datatype HttpResponse = HttpResponse(status: int, data: string)

  /** A rejected call: `error.response` is absent when no response arrived. */
  datatype HttpError = HttpError(response: Option<HttpResponse>)

  predicate IsUnauthorized(err: HttpError) {
    err.response.Some? && err.response.value.status == 401
  }

  const UnauthorizedRedirect: string := "/login"

  /**
   * The response hook's error path. A 401 applies the `logout` reducer to the
   * session (clearing it and both stored items) and records "/login" as the
   * redirect target; any other error, or one without a response, touches
   * nothing. Either way the same error is rejected again.
   */
  method OnRejected(session: Session, err: HttpError) returns (rejection: HttpError, redirect: Option<string>)
    requires session.Valid()
    modifies session
    ensures session.Valid()
    ensures rejection == err
    ensures IsUnauthorized(err) ==>
      && session.State() == Reduce(old(session.State()), old(session.storage), Logout)
      && session.storage == Unpersist(old(session.storage))
      && redirect == Some(UnauthorizedRedirect)
    ensures !IsUnauthorized(err) ==> unchanged(session) && redirect.None?
  {
    rejection := err;
    redirect := None;
    if IsUnauthorized(err) {
      session.Dispatch(Logout);
      redirect := Some(UnauthorizedRedirect);
    }
  }

  /**
   * After a 401 the session is signed out whatever operation had signed it
   * in: nothing can be restored from storage, and the guard no longer
   * renders protected children (it waits while an operation is still pending).
   */
  lemma UnauthorizedLocksOut(s: AuthState, st: Storage)
    ensures var r := Reduce(s, st, Logout);
      !r.isAuthenticated && r.user.None? && r.token.None? && !Guard(r).Children?
    ensures StoredSession(ReducerStorage(st, Logout)).None?
  {
    UnpersistForgets(st);
  }

  /**
   * The whole response hook. A response passes through as it is and leaves
   * the session and storage alone; an error is handled by the error path.
   */
  method OnResponse(session: Session, r: Result<HttpResponse, HttpError>)
    returns (settled: Result<HttpResponse, HttpError>, redirect: Option<string>)
    requires session.Valid()
    modifies session
    ensures session.Valid()
    ensures settled == r
    ensures r.Success? ==> unchanged(session) && redirect.None?
    ensures r.Failure? && IsUnauthorized(r.error) ==>
      && session.State() == Reduce(old(session.State()), old(session.storage), Logout)
      && session.storage == Unpersist(old(session.storage))
      && redirect == Some(UnauthorizedRedirect)
    ensures r.Failure? && !IsUnauthorized(r.error) ==> unchanged(session) && redirect.None?
  {
    match r
    case Success(response) =>
      settled, redirect := r, None;
    case Failure(err) =>
      var rejection;
      rejection, redirect := OnRejected(session, err);
      settled := Failure(rejection);
  }
}
