/** The in-memory credential of the `Auth0` class: the three fields `accessToken`,
    `userInfo` and `expiresAt`, the predicates that read them against the current
    time, and the accessors that turn them into sentinels. Time is an explicit
    parameter `now`, in milliseconds, standing for `new Date().getTime()`. */
module Session {
  import opened Wrappers

  /** The value of the `expiresAt` field: never set or deleted (`undefined`),
      `NaN` (what `undefined * 1000 + now` evaluates to), or an instant in ms. */
  datatype Stamp = Unset | NotANumber | At(ms: int)

  /** The claims of the identity token. `sub` and `permissions` are the two the
      class reads; every other claim (email, ...) is kept opaque in `other`. */
  datatype Claims = Claims(sub: Option<string>, permissions: Option<seq<string>>, other: map<string, string>)

  /** The fields of the provider's redirect or silent-check result that the class reads. */
  datatype AuthResult = AuthResult(
    accessToken: Option<string>,
    idToken: Option<string>,
    idTokenPayload: Option<Claims>,
    expiresIn: Option<int>)

  /** The result `{}`: every field `undefined`. */
  const EmptyResult: AuthResult := AuthResult(None, None, None, None)

  datatype Session = Session(accessToken: Option<string>, userInfo: Option<Claims>, expiresAt: Stamp)

  /** The state of a fresh instance, and of one after `logout`: all three fields absent. */
  const Empty: Session := Session(None, None, Unset)

  /** JavaScript truthiness of a string-or-undefined: the empty string is falsy. */
  predicate Truthy(s: Option<string>)
  {
    s.Some? && s.value != ""
  }

  /** JavaScript `x < now` where `x` may be `undefined` or `NaN`: both compare false. */
  predicate Before(x: Stamp, now: int)
  {
    x.At? && x.ms < now
  }

  /** `setSession(authResult)`: all three fields are assigned from one result. */
  function SetSession(res: AuthResult, now: int): (s: Session)
    ensures s.accessToken == res.accessToken && s.userInfo == res.idTokenPayload
    ensures s.expiresAt.At? <==> res.expiresIn.Some?
    ensures res.expiresIn.Some? ==> s.expiresAt.ms - now == 1000 * res.expiresIn.value
    ensures res.expiresIn.None? ==> s.expiresAt == NotANumber
  {
    var expiresAt := match res.expiresIn
      case Some(seconds) => At(seconds * 1000 + now)
      case None => NotANumber;
    Session(res.accessToken, res.idTokenPayload, expiresAt)
  }

  /** `isTokenExpired()`: only a numeric expiry strictly before `now` is expired. */
  predicate IsTokenExpired(s: Session, now: int)
    ensures IsTokenExpired(s, now) ==> s.expiresAt.At? && s.expiresAt.ms < now
    ensures s.expiresAt.At? && s.expiresAt.ms < now ==> IsTokenExpired(s, now)
  {
    Before(s.expiresAt, now)
  }

  /** `hasValidToken()`: a token the accessor would return, not yet expired. */
  predicate HasValidToken(s: Session, now: int)
    ensures HasValidToken(s, now) ==> s.accessToken.Some? && s.accessToken.value != ""
    ensures HasValidToken(s, now) ==> !(s.expiresAt.At? && s.expiresAt.ms < now)
  {
    Truthy(s.accessToken) && !IsTokenExpired(s, now)
  }

  /** `hasExpiredToken()`: a token the accessor would return, already expired. */
  predicate HasExpiredToken(s: Session, now: int)
    ensures HasExpiredToken(s, now) ==> s.accessToken.Some? && s.accessToken.value != ""
    ensures HasExpiredToken(s, now) ==> s.expiresAt.At? && s.expiresAt.ms < now
    ensures HasExpiredToken(s, now) ==> !HasValidToken(s, now)
  {
    Truthy(s.accessToken) && IsTokenExpired(s, now)
  }

  /** `isAuthenticated()`: a valid token together with claims. */
  predicate IsAuthenticated(s: Session, now: int)
    ensures IsAuthenticated(s, now) ==> s.userInfo.Some? && s.accessToken.Some? && s.accessToken.value != ""
    ensures IsAuthenticated(s, now) ==> !HasExpiredToken(s, now)
  {
    // any claims object is truthy
    HasValidToken(s, now) && s.userInfo.Some?
  }

  /** `getAccessToken()`: the token, or `null` (None) for a falsy one. */
  function GetAccessToken(s: Session): (t: Option<string>)
    ensures t.Some? ==> t == s.accessToken && t.value != ""
    ensures t.None? <==> !Truthy(s.accessToken)
  {
    if Truthy(s.accessToken) then s.accessToken else None
  }

  /** `getUserId()`: the subject claim, or `null` (None) without claims or with a falsy one. */
  function GetUserId(s: Session): (id: Option<string>)
    ensures id.Some? ==> s.userInfo.Some? && id == s.userInfo.value.sub && id.value != ""
    ensures id.None? <==> s.userInfo.None? || !Truthy(s.userInfo.value.sub)
  {
    if s.userInfo.Some? && Truthy(s.userInfo.value.sub) then s.userInfo.value.sub else None
  }

  /** `getPermissions()`: the permissions claim, or `[]` when there is none. */
  function GetPermissions(s: Session): (ps: seq<string>)
    ensures s.userInfo.None? ==> ps == []
    ensures s.userInfo.Some? && s.userInfo.value.permissions.None? ==> ps == []
    ensures s.userInfo.Some? && s.userInfo.value.permissions.Some? ==> ps == s.userInfo.value.permissions.value
  {
    match s.userInfo
    case None => []
    case Some(claims) => claims.permissions.GetOr([])
  }

  /** Expiry is strict: a present expiry equal to `now` is not expired, and an
      absent one (`undefined` or `NaN`) is never expired. */
  lemma ExpiryIsStrict(s: Session, now: int)
    ensures IsTokenExpired(s, now) <==> s.expiresAt.At? && now > s.expiresAt.ms
    ensures s.expiresAt == At(now) ==> !IsTokenExpired(s, now)
    ensures !s.expiresAt.At? ==> !IsTokenExpired(s, now)
  {
  }

  /** Without a (non-empty) token neither validity predicate holds; with one,
      exactly one of them does. */
  lemma TokenStatusExclusive(s: Session, now: int)
    ensures !Truthy(s.accessToken) ==> !HasValidToken(s, now) && !HasExpiredToken(s, now)
    ensures Truthy(s.accessToken) ==> (HasValidToken(s, now) <==> !HasExpiredToken(s, now))
    ensures GetAccessToken(s).Some? <==> HasValidToken(s, now) || HasExpiredToken(s, now)
  {
  }

  /** Authenticated means: a non-empty token, an expiry that is not strictly in
      the past, and claims present, stated on the fields directly. */
  lemma AuthenticatedIff(s: Session, now: int)
    ensures IsAuthenticated(s, now) <==>
      && s.accessToken.Some? && s.accessToken.value != ""
      && !(s.expiresAt.At? && s.expiresAt.ms < now)
      && s.userInfo.Some?
    ensures IsAuthenticated(s, now) ==> GetAccessToken(s).Some?
  {
  }

  /** Staleness is only observed, never undone: once expired, a token stays
      expired at every later instant, and a valid token was valid earlier too. */
  lemma ExpiryIsMonotone(s: Session, t1: int, t2: int)
    requires t1 <= t2
    ensures HasExpiredToken(s, t1) ==> HasExpiredToken(s, t2)
    ensures HasValidToken(s, t2) ==> HasValidToken(s, t1)
  {
  }

  /** What the accessors and predicates report right after `setSession`. A token
      stays valid up to and including `now + 1000 * expiresIn`; a result without
      `expiresIn` stores `NaN`, so its token never expires. */
  lemma SetSessionReadBack(res: AuthResult, now: int, t: int)
    ensures GetAccessToken(SetSession(res, now)) == (if Truthy(res.accessToken) then res.accessToken else None)
    ensures GetUserId(SetSession(res, now)) ==
      (if res.idTokenPayload.Some? && Truthy(res.idTokenPayload.value.sub) then res.idTokenPayload.value.sub else None)
    ensures GetPermissions(SetSession(res, now)) ==
      (if res.idTokenPayload.Some? then res.idTokenPayload.value.permissions.GetOr([]) else [])
    ensures res.expiresIn.Some? ==>
      (HasValidToken(SetSession(res, now), t) <==> Truthy(res.accessToken) && t <= now + 1000 * res.expiresIn.value)
    ensures res.expiresIn.Some? ==>
      (HasExpiredToken(SetSession(res, now), t) <==> Truthy(res.accessToken) && t > now + 1000 * res.expiresIn.value)
    ensures res.expiresIn.None? ==> (HasValidToken(SetSession(res, now), t) <==> Truthy(res.accessToken))
  {
  }

  /** Every read of the empty session reports "nothing": a fresh instance and a
      logged-out one look the same through every query. */
  lemma EmptyReadsNothing(now: int)
    ensures GetAccessToken(Empty) == None && GetUserId(Empty) == None && GetPermissions(Empty) == []
    ensures !IsTokenExpired(Empty, now) && !HasValidToken(Empty, now) && !HasExpiredToken(Empty, now)
    ensures !IsAuthenticated(Empty, now)
  {
  }
}
