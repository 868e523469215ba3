# Session and authorization model of the FlowerFarm billing client

This project models, in Dafny, the client-side session logic of the FlowerFarm billing web client:

- the session slice (`{user, token, loading, error, isAuthenticated}`), its reducer cases, and the two browser-storage items `flowerfarm_user` and `flowerfarm_token` that mirror it;
- the five asynchronous operations (login, register, logout, forgot password, reset password). Each is a `pending` step followed by a settle step that receives the server's answer as an input;
- the protected-route guard;
- the HTTP client's interceptors: the bearer header on requests, and a 401 that signs the session out and redirects;
- the context façade's `logout` and the `useAuth` hook;
- the sign-in / sign-up form's validation chain and its e-mail check;
- the route table.

Module layout, one per source file:

| module | file | source |
|---|---|---|
| `Wrappers` | wrappers.dfy | `Option`, `Result`, JavaScript truthiness of a string |
| `AuthSlice` | auth_slice.dfy | src/context/authSlice.js |
| `ProtectedRoute` | protected_route.dfy | src/components/ProtectedRoute.jsx |
| `AxiosConfig` | axios_config.dfy | src/context/axiosConfig.js |
| `AuthContext` | auth_context.dfy | src/context/AuthContext.jsx |
| `LoginText`, `Login` | login_text.dfy, login.dfy | src/pages/login/Login.jsx |
| `Routes` | routes.dfy | src/Routes.jsx |

The session is modelled twice, as the code itself is:

- `AuthSlice.Reduce` is the reducer table as a function of the state, the storage it reads and the action.
- `AuthSlice.Session` is a class whose fields the methods assign in place.
  - `Dispatch` is proved equal to `Reduce`.
  - The thunks become `Begin` (the pending case) and one `Settle...` method per operation.
  - The class invariant `Valid()` says an authenticated session holds a user and a token.

JavaScript semantics are written out where they matter:

- `a || b` and `if (x)` treat `null`, `undefined` and `""` as false (`Wrappers.Truthy`).
- `.length` counts UTF-16 code units (`LoginText.Utf16Length`).
- `\s` and `trim()` use the WhiteSpace and LineTerminator set (`LoginText.IsWhitespace`).

Behaviour of the code worth noting:

- The request hook reads the token only from storage, never from the in-memory session.
- The five operations call the global `axios` (src/context/authSlice.js:16, 41, 69, 100, 118), not the configured client of src/context/axiosConfig.js:15. So neither hook sees them. This is why the logout call builds its own header (`AuthSlice.Session.LogoutAuthorization`).
- Only status 401 triggers the forced sign-out. A 403 does not.
- The guard redirects to "/" and the 401 handler to "/login". Neither is the sign-in page directly: the route table replaces both with "/sign-in" (`Routes.RedirectsSettle`, `Routes.InterceptorTargetGoesToSignIn`).
- Restoring with nothing stored leaves the state exactly as it was. It does not reset it.
- The slice has no fencing counter and no cancellation. Operations simply settle in whatever order their settle steps are called.
- The façade's `logout`, when the user has no e-mail, clears only the storage. An authenticated in-memory session stays authenticated (`AuthContext.Logout`).
- A reload on a protected page ends on the dashboard, not on that page. The first render still has the initial state, so the guard sends the path to "/" before the restore runs (`Routes.ReloadLandsOnDashboard`).
- Route paths are matched as the router does: ASCII letters without regard to case, and trailing slashes ignored (`Routes.RouteKey`).
- While an operation is pending, the table replaces every route with its loading view. A submit therefore unmounts the login page, and a fulfilled sign-up lands on the dashboard (`Routes.SignUpSubmitLandsOnDashboard`).

## Model

| member | source | states |
|---|---|---|
| `AuthSlice.ApiPrefix` | src/context/authSlice.js:5-9 | the operations' URL prefix is the first non-empty of the two base-URL variables followed by "/api/v1", else the relative "/api/v1" |
| `AuthSlice.RejectionMessage` | src/context/authSlice.js:28-32 | an operation rejects with the server's message when it is non-empty, else with that operation's fixed fallback ('Invalid credentials', 'Registration failed', 'Logout failed', 'Failed to send reset email', 'Failed to reset password'); the result is never empty |
| `AuthSlice.Persist` | src/context/authSlice.js:23-25 | a successful login or registration sets both items (the user's JSON and the token) and leaves every other key as it was |
| `AuthSlice.Unpersist` | src/context/authSlice.js:79-81 | removing the session removes exactly the two items and keeps every other key |
| `AuthSlice.RestoreAsWritten` | src/context/authSlice.js:154-162 | the restore as written: a user item "null" with a non-empty token gives the state with no user, the stored token and `isAuthenticated` set, all else kept, which breaks the session invariant; any other storage, including "null" without a token, gives the model's restore |
| `AuthSlice.NullUserIgnored` | src/context/authSlice.js:157-160 | the model's restore leaves the state unchanged, and consistent, when the user item is "null" |
| `AuthSlice.StoredSession` | src/context/authSlice.js:154-157 | a stored session is found exactly when the user item holds a user and the token item a non-empty string, and it is that user and token |
| `AuthSlice.ReduceKeepsConsistent` | src/context/authSlice.js:142-237 | no reducer case can produce an authenticated state without a user and a token |
| `AuthSlice.PendingOnlyMarksLoading` | src/context/authSlice.js:167-170 | every pending case sets `loading`, clears `error`, keeps user, token and authentication, and writes no storage |
| `AuthSlice.LogoutIdempotent` | src/context/authSlice.js:143-150 | the `logout` reducer clears user, token, authentication, error and both items, keeps `loading`, and a second application changes nothing |
| `AuthSlice.ClearErrorOnlyClears` | src/context/authSlice.js:151-153 | `clearError` changes only `error` |
| `AuthSlice.RestoreIdempotent` | src/context/authSlice.js:154-162 | the restore authenticates with the stored user and token exactly when both are there, otherwise changes nothing, and applying it twice equals applying it once |
| `AuthSlice.PersistThenRestore` | src/context/authSlice.js:24-25 | what a successful login writes is a paired record that a later restore reads back as the same session, unless the token is empty |
| `AuthSlice.UnpersistForgets` | src/context/authSlice.js:80-81 | after the two removals the storage is paired and nothing can be restored |
| `AuthSlice.RestartRestoresSession` | src/context/authSlice.js:155-161 | a fresh process whose storage holds a login's record restores that exact user and token, authenticated, without a remote call |
| `AuthSlice.SignInSequence` | src/context/authSlice.js:167-176 | pending then fulfilled login leaves exactly the payload's session, not loading and without error |
| `AuthSlice.Session.constructor` | src/context/authSlice.js:135-141 | the session starts as the initial state, with whatever storage the process finds |
| `AuthSlice.Session.Dispatch` | src/context/authSlice.js:142-237 | the in-place reducer cases produce exactly the reducer table's state, touch storage only in `logout`, and keep the invariant |
| `AuthSlice.Session.Begin` | src/context/authSlice.js:167-170 | the pending step sets `loading`, clears `error`, and changes neither the identity fields nor storage |
| `AuthSlice.Session.SettleLogin` | src/context/authSlice.js:15-32 | success writes both items and takes the payload's user and token, authenticated and not loading; failure sets only `loading=false` and the message or 'Invalid credentials', and writes nothing |
| `AuthSlice.Session.SettleRegister` | src/context/authSlice.js:40-58 | as login, with fallback 'Registration failed' |
| `AuthSlice.Session.SettleLogout` | src/context/authSlice.js:66-91 | on both paths both items are removed and the session ends with no user, no token, not authenticated, not loading; only failure sets `error` (fallback 'Logout failed') |
| `AuthSlice.Session.SettleForgotPassword` | src/context/authSlice.js:98-110 | never changes identity fields or storage; success only ends loading; failure sets the message or 'Failed to send reset email' |
| `AuthSlice.Session.SettleResetPassword` | src/context/authSlice.js:116-129 | never changes identity fields or storage; success only ends loading; failure sets the message or 'Failed to reset password' |
| `AuthSlice.Session.LogoutAuthorization` | src/context/authSlice.js:67-76 | the logout call's header is "Bearer " followed by the session token when non-empty, else the stored token, else the text "null" |
| `ProtectedRoute.Guard` | src/components/ProtectedRoute.jsx:6-22 | waiting exactly when loading; otherwise a replace-redirect to "/" exactly when unauthenticated or without a user; otherwise the children, and exactly one of the three |
| `ProtectedRoute.GuardReadsThreeBits` | src/components/ProtectedRoute.jsx:7-22 | the decision depends only on `loading`, `isAuthenticated` and whether a user is present |
| `ProtectedRoute.GuardOnConsistentSession` | src/components/ProtectedRoute.jsx:18-22 | on a consistent, settled session the children render exactly when authenticated |
| `AxiosConfig.BaseUrl` | src/context/axiosConfig.js:9-12 | the client's base URL is the first non-empty of the two variables, else the hard-coded service URL |
| `AxiosConfig.AttachToken` | src/context/axiosConfig.js:20-29 | a non-empty stored token sets `Authorization` to "Bearer " + token; otherwise the configuration is unchanged; no other header or field ever changes |
| `AxiosConfig.AttachAfterLogin` | src/context/axiosConfig.js:22-25 | after a login the next request carries that login's token |
| `AxiosConfig.NoCredentialAfterLogout` | src/context/axiosConfig.js:22-26 | after the items are removed requests go out unchanged |
| `AxiosConfig.OnRejected` | src/context/axiosConfig.js:34-40 | a 401 applies the `logout` reducer and both removals and records '/login'; any other error, or one without a response, changes nothing; the error is always rejected again unchanged |
| `AxiosConfig.OnResponse` | src/context/axiosConfig.js:32-41 | the whole response hook: a response passes through unchanged and leaves the session and storage alone; an error is handled as in `OnRejected` and returned unchanged |
| `AxiosConfig.UnauthorizedLocksOut` | src/context/axiosConfig.js:35-38 | after a 401 the session is unauthenticated with no user or token, the guard cannot render protected children, and nothing can be restored |
| `AuthContext.ProviderNeverAuthenticatedWithoutUser` | src/context/AuthContext.jsx:21-25 | on a consistent session the provided value never reports authenticated without a user, before or after any reducer case |
| `AuthContext.ProviderSignedOutAfterLogout` | src/context/AuthContext.jsx:21-25 | after the `logout` reducer, which a 401 also applies, the provided value is no user and not authenticated |
| `AuthContext.ProviderAfterStorageOnlyLogout` | src/context/AuthContext.jsx:15-18 | after the storage-only `logout`, the next application start provides no user and not authenticated |
| `AuthContext.UseAuth` | src/context/AuthContext.jsx:30-35 | fails with 'useAuth must be used within an AuthProvider' exactly when there is no provider value, otherwise returns it |
| `AuthContext.Logout` | src/context/AuthContext.jsx:11-19 | with a user e-mail it runs the logout operation for exactly that e-mail and signs the session out; without one it removes both items and leaves the in-memory session and the provided value unchanged, though nothing can be restored any more |
| `LoginText.TrimEmptyIffBlank` | src/pages/login/Login.jsx:75 | a name trims to the empty string exactly when it is all whitespace |
| `LoginText.Trim` | src/pages/login/Login.jsx:79 | the trimmed name is no longer than the name and neither starts nor ends with whitespace |
| `LoginText.TrimIsSlice` | src/pages/login/Login.jsx:75-79 | the trimmed name is the name with a whitespace-only prefix and a whitespace-only suffix removed |
| `LoginText.Utf16Length` | src/pages/login/Login.jsx:95 | `.length` lies between the number of characters and twice it, and is zero only for the empty string |
| `LoginText.Utf16LengthOfBmp` | src/pages/login/Login.jsx:95 | on a string without characters outside the Basic Multilingual Plane, `.length` is the number of characters |
| `LoginText.Utf16LengthOfChar` | src/pages/login/Login.jsx:79 | one character is one code unit inside the Basic Multilingual Plane and two outside it; with `Utf16LengthConcat` this fixes `.length` on every string |
| `LoginText.Utf16LengthConcat` | src/pages/login/Login.jsx:79 | `.length` of a concatenation is the sum of the lengths, so each character contributes its own code units |
| `LoginText.ValidEmailSound` | src/pages/login/Login.jsx:62-64 | every string the e-mail check accepts matches the regular expression |
| `LoginText.ValidEmailComplete` | src/pages/login/Login.jsx:62-64 | every split that matches the regular expression is accepted |
| `LoginText.ValidEmailMatchesPattern` | src/pages/login/Login.jsx:62-64 | the e-mail check (no whitespace, one '@' with a non-empty part before it, a '.' inside the part after it) accepts exactly what the regular expression matches |
| `Login.ApplyChange` | src/pages/login/Login.jsx:52-57 | a checkbox stores `checked`, a text input stores `value` under its own field, and no other field changes |
| `Login.FirstFailing` | src/pages/login/Login.jsx:73-123 | the reported check is failing and every check before it passes; all pass when none is reported |
| `Login.Validate` | src/pages/login/Login.jsx:73-123 | the early-return chain reports the message of the first failing check in the fixed sign-up or sign-in order, and nothing when all pass |
| `Login.BlankNameFailsFirst` | src/pages/login/Login.jsx:75-78 | a whitespace-only name fails the first sign-up check |
| `Login.ShortNameFailsSecond` | src/pages/login/Login.jsx:79-82 | a non-blank name of trimmed length 1 fails the second check |
| `Login.SingleAstralNamePasses` | src/pages/login/Login.jsx:75-82 | a name of one character outside the Basic Multilingual Plane passes both name checks, because `.length` counts it as two |
| `Login.SignInPassesIff` | src/pages/login/Login.jsx:111-123 | sign-in passes exactly when the e-mail matches the pattern and the password is non-empty; there is no length rule |
| `Login.SignUpPassesIff` | src/pages/login/Login.jsx:73-106 | sign-up passes exactly when the trimmed name has length at least 2, the e-mail matches the pattern, the password has length at least 6, and the confirmation equals it |
| `Login.PostAuthRedirect` | src/pages/login/Login.jsx:30-34 | once authenticated the page goes to '/billing-plan' in sign-up mode, else '/dashboard'; never before |
| `Login.LoginPage.constructor` | src/pages/login/Login.jsx:8-16 | the page starts in sign-in mode with an empty form and no local error |
| `Login.LoginPage.HandleChange` | src/pages/login/Login.jsx:52-60 | the form takes the change, the local error is cleared, and the session error is cleared when set |
| `Login.LoginPage.SetMode` | src/pages/login/Login.jsx:281-285 | switching mode clears both errors and keeps the form |
| `Login.LoginPage.HandleSubmit` | src/pages/login/Login.jsx:66-128 | both errors are cleared first; a failing check sets its message and dispatches nothing; otherwise exactly `registerUser({name,email,password})` or `loginUser({email,password})` runs, with its success and failure effects |
| `Routes.Resolve` | src/Routes.jsx:92-137 | paths are matched by their key (case of ASCII letters and trailing slashes ignored); loading shows the loading view for every path; '/sign-in' goes to '/dashboard' when authenticated, else renders the login page; the eight protected paths are decided by the guard; '/' and every other path replace-redirect to '/sign-in' |
| `Routes.ResolveIgnoresCaseAndTrailingSlash` | src/Routes.jsx:98-136 | a trailing slash or a change of letter case never changes what a path renders |
| `Routes.TargetKeys` | src/Routes.jsx:98-136 | the redirect targets '/dashboard', '/sign-in' and '/login' match as themselves, and '/' as the root route |
| `Routes.GuardNeverWaitsInTable` | src/Routes.jsx:92 | the guard's waiting view is never reached through the table |
| `Routes.InterceptorTargetGoesToSignIn` | src/Routes.jsx:136 | the 401 target '/login' is replace-redirected to '/sign-in' |
| `Routes.RedirectsSettle` | src/Routes.jsx:98-136 | on a consistent settled session every path ends within three redirects: on the login page when signed out, else on the requested page (by its key) or the dashboard |
| `Routes.RedirectCycleWithoutUser` | src/Routes.jsx:98-133 | an authenticated snapshot without a user loops '/dashboard' → '/' → '/sign-in' → '/dashboard' |
| `Routes.CycleNeverSettles` | src/Routes.jsx:98-133 | on such a snapshot, following redirects from any of the three paths never reaches a page, however many are followed |
| `Routes.NullUserRestoreNeverSettles` | src/context/authSlice.js:157-160 | a start with the user item "null" and a token, restored as written, leaves '/dashboard' redirecting forever |
| `Routes.NullUserRestoreLandsOnSignIn` | src/context/authSlice.js:157-160 | with the model's restore the same start lands on the login page within three redirects |
| `Routes.SignUpSubmitLandsOnDashboard` | src/Routes.jsx:92-100 | while a sign-up is pending '/sign-in' shows the loading view; once it is fulfilled '/sign-in' ends on the dashboard |
| `Routes.LoginPageNeverRedirects` | src/pages/login/Login.jsx:30-34 | the login page is rendered only for an unauthenticated session, so its redirect effect never has a target while it is shown |
| `Routes.RestartLandsOnDashboard` | src/Routes.jsx:87-92 | after a restart, restoring a login's record lets '/dashboard' render the dashboard |
| `Routes.ReloadLandsOnDashboard` | src/components/ProtectedRoute.jsx:18-20 | with a login's record stored, a reload on any protected path is first sent to '/' by the guard on the initial state, then reaches the dashboard on the restored session, not the page asked for |
| `Routes.Mount` | src/Routes.jsx:87-92 | mounting takes the first render's redirect on the current state, dispatches the restore, and follows the redirects from there on the restored state |

## Left out

- Remote calls: the HTTP transport and the request URLs and bodies are not modelled. Each call's result is an input to the settle step: a payload, or a rejection with an optional message.
- AuthSlice.Session.SettleLogin: storage writes are assumed to succeed. In the source the two `setItem` calls (src/context/authSlice.js:24-25) sit inside the `try`; if one throws (quota exceeded, storage disabled) the login rejects with 'Invalid credentials' though the server accepted it, and if only the second throws the user item is left without its token item. The model's rejection writes nothing and its success always writes the pair.
- AuthSlice.Session.SettleRegister: the same for src/context/authSlice.js:50-51 and the fallback 'Registration failed'.
- Overlapping operations: pending and settle steps are atomic methods that may be called in any order. In-flight interleaving, and the promise machinery in between, are not modelled.
- JSON encoding: `UserJson(u)` stands for the JSON text of `u` and parses back to it, and `NullJson` for the text "null". A user item holding other text, where `JSON.parse` would throw or yield something else, is treated as absent by the restore. A token item holding a user's JSON or "null" is treated as absent, although the source would send that text as the bearer token.
- A response without a `user` or a `token`: the payload always carries both. A fulfilled login or registration with a `null` user, which the reducer would accept as authenticated, is not modelled. Neither is `JSON.stringify(undefined)` and the resulting "undefined" item. The "null" item such a response leaves behind is modelled for the restore (see Findings).
- Browser redirect and router mechanics (`window.location.href`, `Navigate`, `BrowserRouter`): targets are recorded as values only.
- Routes.Mount: of the render before the mount effect, only its redirect is modelled; the first render resolves the path on the state as it is, so a reload on a protected page goes to '/' and, once restored, to the dashboard (`Routes.ReloadLandsOnDashboard`). What the first render draws, and any render between the effects, is not modelled.
- AuthSlice.Reduce: its `loadUserFromStorage` case is the corrected restore, which treats a "null" user item as no session; so are `AuthSlice.Session.Dispatch` and `Routes.Mount`, which go through it. The code as written is `AuthSlice.RestoreAsWritten` (see Findings), so `AuthSlice.ReduceKeepsConsistent` holds of the corrected table only.
- Routes.Resolve: paths are compared after folding ASCII capitals and dropping trailing slashes. The router's percent-decoding of the path and any case folding beyond ASCII are not modelled; the route paths contain only lower-case ASCII.
- Login.LoginPage.HandleSubmit: the instance that handles a submit is unmounted while the operation is pending, because the table shows its loading view instead. When the operation settles and the session is not authenticated, a fresh page in sign-in mode with an empty form is mounted. When the session is authenticated, '/sign-in' forwards to the dashboard and no login page is mounted. Its ensures about `form` and `isSignUp` describe the instance that handled the submit, and the remount is stated only through `Routes.SignUpSubmitLandsOnDashboard`.
- Login.PostAuthRedirect: it models the effect as written, but in the application the effect never has a target, because the page is shown only to unauthenticated sessions (`Routes.LoginPageNeverRedirects`). Its '/billing-plan' branch is never reached after a sign-up.
- AxiosConfig.AttachToken: the configuration is returned as a new value. In-place mutation of the shared config object, and aliasing of it, are not captured.
- The request hook's error handler only rejects its error again and is not modelled.
- Environment variables are parameters. Reading `process.env` when no `process` object exists is not modelled.
- `AuthContext.AuthValue` omits the provider's `logout` function value. The function itself is `AuthContext.Logout`.
- Change events are limited to the page's five inputs: four text inputs and the remember-me checkbox. Arbitrary `name`/`type` pairs are not representable.
- The clock, the 5-second error-clearing timers and the locale date/time formatting: UI timing and display only.
- Markup and styles. The settings, menu bar and billing-plan pages, the application and store wiring, and the commented-out route table at the top of src/Routes.jsx are not part of this model.

## Findings

| source | as written | input that shows it | evidently intended | confidence | as-written member | corrected member |
|---|---|---|---|---|---|---|
| src/context/authSlice.js:157-160 | `if (user && token)` accepts any non-empty user item, and `JSON.parse("null")` sets `user` to null while `isAuthenticated` becomes true | user item "null" (written at line 24 for a response whose `user` is null) and a non-empty token; then open '/dashboard' | restore only when the item parses to a user, so an authenticated session always has one | medium, not executed | `Routes.NullUserRestoreNeverSettles` (over `AuthSlice.RestoreAsWritten`) | `Routes.NullUserRestoreLandsOnSignIn` (over `AuthSlice.NullUserIgnored`) |
