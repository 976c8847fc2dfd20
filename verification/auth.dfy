/** The `Auth0` class of `src/Auth/auth0.js` as pure transitions. Each operation
    takes the instance and, for the asynchronous ones, the answer the provider
    client hands to the callback, and returns the new instance, the settlement of
    the returned promise and the calls made on the provider client. */
module Auth {
  import opened Wrappers
  import opened Promise
  import opened Session

  /** The constructor's options; each may be `undefined`. */
  datatype Options = Options(
    domain: Option<string>,
    audience: Option<string>,
    clientId: Option<string>,
    redirectUri: Option<string>,
    scope: Option<string>,
    logoutRedirectUri: Option<string>)

  /** The options the constructor hands to the provider client. */
  datatype WebAuthOptions = WebAuthOptions(
    domain: Option<string>,
    audience: Option<string>,
    clientID: Option<string>,
    redirectUri: Option<string>,
    scope: Option<string>,
    responseType: string)

  /** The implicit flow asks for both an access token and an identity token. */
  const ResponseType: string := "token id_token"

  datatype Auth0 = Auth0(webAuth: WebAuthOptions, logoutRedirectUri: Option<string>, session: Session)

  /** The error value the provider client reports, passed on verbatim. */
  datatype ProviderError = ProviderError(error: string)

  /** What the provider client's callback receives: `(authError, authResult)`.
      A falsy `authError` is None. */
  datatype Answer = Answer(authError: Option<ProviderError>, authResult: AuthResult)

  /** A call made on the provider client. `RemoteLogout` records the `returnTo`
      option and whether a success continuation was passed. */
  datatype ProviderCall =
    | Authorize
    | ParseHash
    | CheckSession
    | RemoteLogout(returnTo: Option<string>, withContinuation: bool)

  /** The state after an asynchronous operation's callback has run. */
  datatype Completion = Completion(
    client: Auth0,
    promise: Promise<AuthResult, Option<ProviderError>>,
    calls: seq<ProviderCall>)

  /** The state after a synchronous operation. */
  datatype Request = Request(client: Auth0, calls: seq<ProviderCall>)

  /** The callback's guard: no error, and both tokens truthy. */
  predicate Succeeded(a: Answer)
    ensures Succeeded(a) ==> a.authError.None?
    ensures Succeeded(a) ==> a.authResult.idToken.Some? && a.authResult.idToken.value != ""
    ensures Succeeded(a) ==> a.authResult.accessToken.Some? && a.authResult.accessToken.value != ""
  {
    a.authError.None? && Truthy(a.authResult.idToken) && Truthy(a.authResult.accessToken)
  }

  /** Only the credential ever changes; the configuration is fixed at construction. */
  predicate SameConfig(x: Auth0, y: Auth0)
  {
    x.webAuth == y.webAuth && x.logoutRedirectUri == y.logoutRedirectUri
  }

  /** The constructor: `clientId` is renamed `clientID`, the response type is
      fixed, the logout URI is kept, and the credential starts absent. */
  function Create(opts: Options): (a: Auth0)
    ensures a.webAuth.clientID == opts.clientId
    ensures a.webAuth.responseType == ResponseType
    ensures a.logoutRedirectUri == opts.logoutRedirectUri
    ensures a.session == Empty
  {
    Auth0(
      WebAuthOptions(opts.domain, opts.audience, opts.clientId, opts.redirectUri, opts.scope, ResponseType),
      opts.logoutRedirectUri,
      Empty)
  }

  /** The options an instance was built from, read back from what it stores. */
  function OptionsOf(a: Auth0): (opts: Options)
  {
    Options(a.webAuth.domain, a.webAuth.audience, a.webAuth.clientID, a.webAuth.redirectUri,
            a.webAuth.scope, a.logoutRedirectUri)
  }

  /** Construction loses none of its options. */
  lemma CreateKeepsOptions(opts: Options)
    ensures OptionsOf(Create(opts)) == opts
    ensures Create(opts).webAuth.domain == opts.domain && Create(opts).webAuth.scope == opts.scope
  {
  }

  /** `login()`: starts the redirect and changes nothing locally. */
  function Login(a: Auth0): (r: Request)
    ensures r.client == a
    ensures r.calls == [Authorize]
  {
    Request(a, [Authorize])
  }

  /** `logout(onSuccess)`: the three fields are deleted before, and whatever the
      outcome of, the remote logout, which is asked to return to the configured URI. */
  function Logout(a: Auth0, withContinuation: bool): (r: Request)
    ensures r.client.session == Empty && SameConfig(r.client, a)
    ensures r.calls == [RemoteLogout(a.logoutRedirectUri, withContinuation)]
  {
    Request(a.(session := Empty), [RemoteLogout(a.logoutRedirectUri, withContinuation)])
  }

  /** The remote logout's callback: whether `onSuccess` is invoked. It has no
      effect on the credential, so a remote failure cannot undo the local logout. */
  function OnSuccessInvoked(call: ProviderCall, remoteError: Option<ProviderError>): (invoked: bool)
    requires call.RemoteLogout?
    ensures invoked ==> remoteError.None?
    ensures invoked <==> call.withContinuation && remoteError.None?
  {
    if remoteError.Some? then false else call.withContinuation
  }

  /** The continuation passed by `logout(onSuccess)` runs exactly when the
      remote logout succeeds; the `logout()` a failed renewal makes passes none,
      so nothing runs whatever the remote answer. */
  lemma LogoutContinuationRuns(a: Auth0, withContinuation: bool, remoteError: Option<ProviderError>, answer: Answer, now: int)
    ensures OnSuccessInvoked(Logout(a, withContinuation).calls[0], remoteError) <==> withContinuation && remoteError.None?
    ensures !Succeeded(answer) ==> !OnSuccessInvoked(RenewSession(a, answer, now).calls[1], remoteError)
  {
  }

  /** The settle calls the source makes: `reject(authError)` when the guard
      fails, then, as the callback does not return, `resolve(authResult)`. */
  function SettleCalls(answer: Answer): (cs: seq<Settle<AuthResult, Option<ProviderError>>>)
    // the resolve always runs, last
    ensures |cs| > 0 && cs[|cs| - 1] == Resolve(answer.authResult)
    // yet the promise settles as the guard decides
    ensures Succeeded(answer) ==> ApplyAll(Pending, cs) == Fulfilled(answer.authResult)
    ensures !Succeeded(answer) ==> ApplyAll(Pending, cs) == Rejected(answer.authError)
  {
    var cs := (if Succeeded(answer) then [] else [Reject(answer.authError)]) + [Resolve(answer.authResult)];
    FirstCallWins(cs);
    cs
  }

  /** `handleAuthentication()` after `parseHash` has called back with `answer`.
      On success the credential is set from the result and the promise resolves
      with it. On failure the promise rejects with `authError`, and the callback
      still runs `setSession(authResult)`. */
  function HandleAuthentication(a: Auth0, answer: Answer, now: int): (r: Completion)
    ensures SameConfig(r.client, a)
    ensures r.calls == [ParseHash]
    ensures r.client.session == SetSession(answer.authResult, now)
    ensures Succeeded(answer) ==> r.promise == Fulfilled(answer.authResult)
    ensures !Succeeded(answer) ==> r.promise == Rejected(answer.authError)
  {
    Completion(
      a.(session := SetSession(answer.authResult, now)),
      ApplyAll(Pending, SettleCalls(answer)),
      [ParseHash])
  }

  /** `renewSession()` after `checkSession` has called back with `answer`. On
      success it behaves as `HandleAuthentication`. On failure the promise
      rejects, `logout()` runs without a continuation, and then the callback
      still runs `setSession(authResult)`. */
  function RenewSession(a: Auth0, answer: Answer, now: int): (r: Completion)
    ensures SameConfig(r.client, a)
    ensures r.client.session == SetSession(answer.authResult, now)
    ensures Succeeded(answer) ==> r.promise == Fulfilled(answer.authResult) && r.calls == [CheckSession]
    ensures !Succeeded(answer) ==> r.promise == Rejected(answer.authError)
    ensures !Succeeded(answer) ==> r.calls == [CheckSession, RemoteLogout(a.logoutRedirectUri, false)]
  {
    var afterGuard := if Succeeded(answer) then Request(a, []) else Logout(a, false);
    Completion(
      afterGuard.client.(session := SetSession(answer.authResult, now)),
      ApplyAll(Pending, SettleCalls(answer)),
      [CheckSession] + afterGuard.calls)
  }

  /** Both callbacks overwrite every field, so nothing of the credential held
      before survives them; on a failed renewal the `logout()` is overwritten too. */
  lemma CallbacksForgetPriorSession(a1: Auth0, a2: Auth0, answer: Answer, now: int)
    ensures HandleAuthentication(a1, answer, now).client.session == HandleAuthentication(a2, answer, now).client.session
    ensures RenewSession(a1, answer, now).client.session == RenewSession(a2, answer, now).client.session
    ensures RenewSession(a1, answer, now).client.session == HandleAuthentication(a1, answer, now).client.session
  {
  }

  /** With the empty result `{}`, a failed callback leaves nothing readable:
      no token, no user id, no permissions, not authenticated. */
  lemma FailureWithEmptyResultReadsNothing(a: Auth0, err: Option<ProviderError>, now: int, t: int)
    ensures var r := HandleAuthentication(a, Answer(err, EmptyResult), now);
      && r.promise == Rejected(err)
      && GetAccessToken(r.client.session) == None && GetUserId(r.client.session) == None
      && GetPermissions(r.client.session) == [] && !IsAuthenticated(r.client.session, t)
      && !HasValidToken(r.client.session, t) && !HasExpiredToken(r.client.session, t)
    ensures var r := RenewSession(a, Answer(err, EmptyResult), now);
      && r.promise == Rejected(err)
      && GetAccessToken(r.client.session) == None && GetUserId(r.client.session) == None
      && GetPermissions(r.client.session) == [] && !IsAuthenticated(r.client.session, t)
  {
  }

  /** `logout` leaves nothing readable whatever the prior state, and doing it
      twice is the same as doing it once. */
  lemma LogoutReadsNothing(a: Auth0, withContinuation: bool, now: int)
    ensures var s := Logout(a, withContinuation).client.session;
      && GetAccessToken(s) == None && GetUserId(s) == None && GetPermissions(s) == []
      && !IsAuthenticated(s, now) && !HasValidToken(s, now) && !HasExpiredToken(s, now)
    ensures Logout(Logout(a, withContinuation).client, withContinuation) == Logout(a, withContinuation)
  {
    EmptyReadsNothing(now);
  }

  /** The callbacks as evidently intended: return after `reject`. A failed login
      leaves the credential as it was; a failed renewal leaves it logged out. */
  function HandleAuthenticationIntended(a: Auth0, answer: Answer, now: int): (r: Completion)
    ensures SameConfig(r.client, a) && r.calls == [ParseHash]
    ensures Succeeded(answer) ==> r.client.session == SetSession(answer.authResult, now)
    ensures Succeeded(answer) ==> r.promise == Fulfilled(answer.authResult)
    ensures !Succeeded(answer) ==> r.client == a && r.promise == Rejected(answer.authError)
  {
    if Succeeded(answer) then HandleAuthentication(a, answer, now)
    else Completion(a, Rejected(answer.authError), [ParseHash])
  }

  function RenewSessionIntended(a: Auth0, answer: Answer, now: int): (r: Completion)
    ensures SameConfig(r.client, a)
    ensures Succeeded(answer) ==> r.client.session == SetSession(answer.authResult, now)
    ensures Succeeded(answer) ==> r.promise == Fulfilled(answer.authResult) && r.calls == [CheckSession]
    ensures !Succeeded(answer) ==> r.client.session == Empty && r.promise == Rejected(answer.authError)
    ensures !Succeeded(answer) ==> r.calls == [CheckSession, RemoteLogout(a.logoutRedirectUri, false)]
  {
    if Succeeded(answer) then RenewSession(a, answer, now)
    else
      var out := Logout(a, false);
      Completion(out.client, Rejected(answer.authError), [CheckSession] + out.calls)
  }

  /** The intended callbacks differ from the written ones only on failure, and
      a failed intended renewal never leaves a token behind. */
  lemma IntendedAgreesOnSuccess(a: Auth0, answer: Answer, now: int, t: int)
    ensures Succeeded(answer) ==> HandleAuthenticationIntended(a, answer, now) == HandleAuthentication(a, answer, now)
    ensures Succeeded(answer) ==> RenewSessionIntended(a, answer, now) == RenewSession(a, answer, now)
    ensures !Succeeded(answer) ==> !HasValidToken(RenewSessionIntended(a, answer, now).client.session, t)
    ensures !Succeeded(answer) ==> HasValidToken(HandleAuthenticationIntended(a, answer, now).client.session, t) == HasValidToken(a.session, t)
  {
  }

  /** A result with an access token but no identity token, as a provider may
      return when the identity token is missing from the redirect. */
  const MissingIdToken: Answer := Answer(None, AuthResult(Some("abc"), None, None, Some(86400)))

  /** As written, a login that rejects still leaves a valid token behind. */
  lemma FailedLoginLeavesValidToken(a: Auth0, now: int)
    ensures !Succeeded(MissingIdToken)
    ensures HandleAuthentication(a, MissingIdToken, now).promise == Rejected(None)
    ensures HasValidToken(HandleAuthentication(a, MissingIdToken, now).client.session, now)
    ensures GetAccessToken(HandleAuthentication(a, MissingIdToken, now).client.session) == Some("abc")
  {
  }

  /** As written, a renewal that rejects and logs out still leaves a valid token
      behind: the `setSession` after `logout()` undoes the logout. */
  lemma FailedRenewalLeavesValidToken(a: Auth0, now: int)
    ensures RenewSession(a, MissingIdToken, now).promise == Rejected(None)
    ensures RemoteLogout(a.logoutRedirectUri, false) in RenewSession(a, MissingIdToken, now).calls
    ensures HasValidToken(RenewSession(a, MissingIdToken, now).client.session, now)
    ensures !HasValidToken(RenewSessionIntended(a, MissingIdToken, now).client.session, now)
  {
  }
}
