# Auth0 session manager — a Dafny model

This project models the `Auth0` class of `src/Auth/auth0.js`. The class wraps the
auth0-js `WebAuth` client for a single-page React application and keeps the
session credential in memory as three fields: `accessToken`, `userInfo` (the
identity-token claims) and `expiresAt` (milliseconds since the epoch).

The model is functional. An instance is an immutable record: the `WebAuth`
options, the logout redirect URI and the `Session` holding the three fields.
Every method is a pure function of the instance. The inputs the code gets from
outside become parameters:

- the current time `now`, in milliseconds, stands for `new Date().getTime()`;
- the `(authError, authResult)` pair that `parseHash` or `checkSession` hands to
  the callback is an `Answer`;
- the error that the remote `logout` hands to its callback is a parameter of
  `OnSuccessInvoked`.

Calls made on the provider client are recorded as a sequence of `ProviderCall`
values: `Authorize`, `ParseHash`, `CheckSession` and `RemoteLogout(returnTo, withContinuation)`.
Each promise is modelled as the fold of its executor's `resolve`/`reject` calls,
where the first call wins.

JavaScript details kept:

- Truthiness: an empty-string token or `sub` counts as absent, and any claims object is truthy.
- `expiresAt` is a `Stamp`. It is `Unset` after `delete` or before any write, `NotANumber` when `expiresIn` was `undefined`, or `At(ms)`. Comparisons with `undefined` or `NaN` are false, so such an expiry is never "expired".
- Fall-through: after `reject(authError)` the callbacks do not return. They still run `setSession(authResult)` and a `resolve` that has no effect. `renewSession` first runs `logout()` without a continuation.

Two consequences of the code worth knowing:

- A failed callback still overwrites the credential from `authResult` (see Findings).
- An expiry equal to `now` is not expired, because `isTokenExpired` (src/Auth/auth0.js:86) compares with a strict `<`.

Files: `wrappers.dfy` (`Option`), `promise.dfy` (settlement), `session.dfy`
(the fields, predicates and accessors), `auth.dfy` (constructor, login,
logout, callbacks, the corrected callbacks), `lifecycle.dfy` (histories of
operations).

## Model

| member | source | states |
|---|---|---|
| Promise.ApplyAll | src/Auth/auth0.js:31-41 | A settled promise ignores every later `resolve`/`reject`; a promise is still pending only if it was pending and nothing was called |
| Promise.FirstCallWins | src/Auth/auth0.js:33-40 | Starting from pending, the first of the executor's calls decides the settlement |
| Session.SetSession | src/Auth/auth0.js:101-106 | All three fields come from the one result: token and claims copied, expiry present exactly when `expiresIn` is, and then `1000 * expiresIn` ms after `now`; a missing `expiresIn` stores `NaN` |
| Session.IsTokenExpired | src/Auth/auth0.js:85-87 | Expired exactly when a numeric expiry is strictly before `now` |
| Session.HasValidToken | src/Auth/auth0.js:89-91 | Valid implies a non-empty token and an expiry that is not strictly before `now` |
| Session.HasExpiredToken | src/Auth/auth0.js:93-95 | Expired-token implies a non-empty token, a numeric expiry strictly before `now`, and not valid |
| Session.IsAuthenticated | src/Auth/auth0.js:97-99 | Authenticated implies claims present, a non-empty token, and the token not expired |
| Session.GetAccessToken | src/Auth/auth0.js:108-110 | Returns the stored token exactly when it is non-empty, otherwise null; never returns an empty string |
| Session.GetUserId | src/Auth/auth0.js:112-114 | Returns the `sub` claim only when claims are present and `sub` is non-empty, otherwise null |
| Session.GetPermissions | src/Auth/auth0.js:116-120 | Returns the `permissions` claim when claims and the claim are present, otherwise `[]` |
| Session.ExpiryIsStrict | src/Auth/auth0.js:85-87 | Expired iff an expiry is present and strictly before `now`; equality is not expired; an absent or `NaN` expiry is never expired |
| Session.TokenStatusExclusive | src/Auth/auth0.js:89-95 | Without a non-empty token neither "valid" nor "expired" holds; with one exactly one holds; `getAccessToken` returns a token iff one of them holds |
| Session.AuthenticatedIff | src/Auth/auth0.js:97-99 | Authenticated iff non-empty token, expiry not strictly before `now`, and claims present, stated on the fields; authenticated implies a token is returned |
| Session.ExpiryIsMonotone | src/Auth/auth0.js:85-95 | For a fixed credential, an expired token stays expired later, and a valid token was valid earlier |
| Session.SetSessionReadBack | src/Auth/auth0.js:101-120 | After `setSession` the accessors return the result's token, `sub` and permissions; the token is valid up to and including `now + 1000 * expiresIn` and expired after; without `expiresIn` it never expires |
| Session.EmptyReadsNothing | src/Auth/auth0.js:85-120 | With all fields absent every accessor returns its sentinel and every predicate is false |
| Auth.Create | src/Auth/auth0.js:4-21 | `clientId` becomes `clientID`, `responseType` is `'token id_token'`, `logoutRedirectUri` is kept, the credential starts absent |
| Auth.CreateKeepsOptions | src/Auth/auth0.js:12-20 | The options can be read back unchanged from the constructed instance |
| Auth.Login | src/Auth/auth0.js:23-26 | Starts the authorize redirect and leaves the instance unchanged |
| Auth.Logout | src/Auth/auth0.js:63-71 | All three fields are cleared locally, whatever the prior state, and one remote logout is issued with `returnTo` set to the configured URI |
| Auth.OnSuccessInvoked | src/Auth/auth0.js:72-81 | `onSuccess` runs iff one was passed and the remote logout reported no error; never on error |
| Auth.Succeeded | src/Auth/auth0.js:33 | The callback's guard passes only with no error and both `idToken` and `accessToken` present and non-empty |
| Auth.SettleCalls | src/Auth/auth0.js:33-40 | The callback always ends with `resolve(authResult)`, yet from a pending promise it settles fulfilled with the result when the guard passes and rejected with `authError` when it fails |
| Auth.LogoutContinuationRuns | src/Auth/auth0.js:53-81 | The continuation given to `logout` runs iff the remote logout reports no error; the `logout()` of a failed renewal passes none, so nothing runs whatever the remote answer |
| Auth.HandleAuthentication | src/Auth/auth0.js:28-43 | Only `parseHash` is called. On success the credential is set from the result and the promise resolves with it; otherwise it rejects with `authError` while the credential is still overwritten from the result |
| Auth.RenewSession | src/Auth/auth0.js:45-61 | On success as above, with only `checkSession` called. On failure it rejects with `authError` and issues exactly one remote logout without a continuation, and the credential is then overwritten from the result |
| Auth.CallbacksForgetPriorSession | src/Auth/auth0.js:50-58 | Both callbacks leave a credential that does not depend on the prior one; the failed renewal's logout is overwritten |
| Auth.FailureWithEmptyResultReadsNothing | src/Auth/auth0.js:33-40 | A failed callback with the result `{}` rejects with the error and leaves no token, no user id, no permissions and no authentication |
| Auth.LogoutReadsNothing | src/Auth/auth0.js:63-66 | After logout every accessor returns its sentinel and no predicate holds; logging out twice equals logging out once |
| Auth.HandleAuthenticationIntended | src/Auth/auth0.js:33-36 | Corrected callback: a failed login rejects and leaves the instance exactly as it was |
| Auth.RenewSessionIntended | src/Auth/auth0.js:50-54 | Corrected callback: a failed renewal rejects, logs out once and leaves the credential absent |
| Auth.IntendedAgreesOnSuccess | src/Auth/auth0.js:33-58 | The corrected callbacks equal the written ones on success; on failure a corrected renewal never leaves a valid token, and a corrected login keeps validity as it was |
| Auth.FailedLoginLeavesValidToken | src/Auth/auth0.js:33-40 | As written, a login answer without an identity token rejects, yet leaves the token `"abc"` valid |
| Auth.FailedRenewalLeavesValidToken | src/Auth/auth0.js:50-58 | As written, a renewal answer without an identity token rejects and logs out, yet leaves a valid token; the corrected renewal does not |
| Lifecycle.Run | src/Auth/auth0.js:63-106 | Over any history of operations the configuration never changes; only the three credential fields are written |
| Lifecycle.LastWriteWins | src/Auth/auth0.js:28-66 | After any history, the credential is what the last callback's `setSession` or the last logout wrote, or the initial one if neither occurred |
| Lifecycle.LastWriteIsAnEvent | src/Auth/auth0.js:39-57 | A `setSession` found as the last write was made by a callback at some index of the history, and only `login()` calls came after it |
| Lifecycle.FieldsWrittenTogether | src/Auth/auth0.js:101-106 | From construction, the credential is always either all absent or exactly what one callback at some index of the history wrote with `setSession`, with only `login()` calls after it: never a mix of two writes |
| Lifecycle.LoginIsInvisible | src/Auth/auth0.js:23-26 | Removing a `login()` from any history does not change the resulting instance |
| Lifecycle.LoginLogoutCycle | src/Auth/auth0.js:28-66 | Construct, succeed a login callback (resolving with the result and setting the token), log out: every accessor then reports nothing |

## Left out

- `src/Auth/hooks.js` and its React context: it passes `getCurrentToken` (which returns the raw `accessToken` field) under the misspelled prop `values` (src/Auth/hooks.js:32), so the context value is `undefined` and nothing is exposed. It holds no renewal or user-id logic, so no such policy is modelled.
- The React components and `src/App.js`: rendering, routing and environment bootstrap.
- The auth0-js client itself (`authorize`, `parseHash`, `checkSession`, remote `logout`), redirects and the network: their answers are inputs, and construction failure of the client is not modelled.
- `console.debug` / `console.error` logging.
- The wall clock: `now` is a parameter. The model passes one instant to each callback, though the source reads the clock separately in `setSession` and in each predicate.
- A `null` `authResult`, with or without an error: without an error the guard's `authResult.idToken` throws a TypeError before `reject` or `setSession` runs; with one, `setSession(null)` throws after `reject`. Both are runtime exceptions, not stated behaviour, so `AuthResult` is always an object.
- JavaScript numbers: `expiresIn` is an integer (or `undefined`), with no floating-point rounding. A `null` `expiresIn` (which `* 1000` turns into 0) is not distinguished from a number.
- A field deleted by `logout` and a field assigned `undefined` by `setSession` are the same `None`. They differ only to the `in` operator, which the class never uses.
- Claim values other than `sub` and `permissions` are kept as opaque strings. A non-array `permissions` value is not modelled.
- Overlapping callbacks on one instance: histories are sequences of completed callbacks, in completion order.

## Findings

| source | as written | input that shows it | evidently intended | confidence | as-written member | corrected member |
|---|---|---|---|---|---|---|
| src/Auth/auth0.js:33-40 | After `reject(authError)` the callback falls through to `setSession(authResult)` | `parseHash` answers with no error and `{accessToken: 'abc', expiresIn: 86400}` (no `idToken`): the promise rejects, yet `hasValidToken()` is true | return after `reject`: the debug message "logged in successfully" at :38 runs on the error path, so reaching :38-40 was meant only for the success path; a failed login leaves the credential unchanged | high, not executed | Auth.FailedLoginLeavesValidToken | Auth.HandleAuthenticationIntended |
| src/Auth/auth0.js:50-58 | After `reject(authError); this.logout()` the callback falls through to `setSession(authResult)`, undoing the logout | `checkSession` answers with the same result: the promise rejects and logout is called, yet `hasValidToken()` is true | return after `logout()`: the debug message "renewed session successfully" at :56 runs on the error path, and the `logout()` at :53 is pointless if :57 overwrites it; a failed renewal leaves no credential | high, not executed | Auth.FailedRenewalLeavesValidToken | Auth.RenewSessionIntended |
