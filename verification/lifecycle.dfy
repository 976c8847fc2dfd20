/** Sequences of operations on one `Auth0` instance, each callback given the
    provider's answer and the time it ran. Used to state what holds across a
    whole lifetime: which operation decides the credential, and that the three
    fields are always written together. */
module Lifecycle {
  import opened Wrappers
  import opened Promise
  import opened Session
  import opened Auth

  datatype Event =
    | LoginEvent
    | CallbackEvent(answer: Answer, now: int)
    | RenewEvent(answer: Answer, now: int)
    | LogoutEvent(withContinuation: bool)

  function Step(a: Auth0, e: Event): (r: Auth0)
  {
    match e
    case LoginEvent => Login(a).client
    case CallbackEvent(answer, now) => HandleAuthentication(a, answer, now).client
    case RenewEvent(answer, now) => RenewSession(a, answer, now).client
    case LogoutEvent(withContinuation) => Logout(a, withContinuation).client
  }

  /** The instance after the events, in order. Its configuration never changes. */
  function Run(a: Auth0, evs: seq<Event>): (r: Auth0)
    ensures SameConfig(r, a)
    decreases |evs|
  {
    if |evs| == 0 then a else Step(Run(a, evs[..|evs| - 1]), evs[|evs| - 1])
  }

  /** The last write to the credential: none, a `logout`, or a `setSession`. */
  datatype Write = NoWrite | Cleared | Wrote(result: AuthResult, now: int)

  function LastWrite(evs: seq<Event>): (w: Write)
    decreases |evs|
  {
    if |evs| == 0 then NoWrite
    else match evs[|evs| - 1]
      case LoginEvent => LastWrite(evs[..|evs| - 1])
      case CallbackEvent(answer, now) => Wrote(answer.authResult, now)
      case RenewEvent(answer, now) => Wrote(answer.authResult, now)
      case LogoutEvent(_) => Cleared
  }

  function SessionAfter(initial: Session, w: Write): (s: Session)
  {
    match w
    case NoWrite => initial
    case Cleared => Empty
    case Wrote(result, now) => SetSession(result, now)
  }

  /** The credential is decided by the last callback or logout alone, whatever
      came before and whether the callbacks succeeded. */
  lemma {:induction false} LastWriteWins(a: Auth0, evs: seq<Event>)
    ensures Run(a, evs).session == SessionAfter(a.session, LastWrite(evs))
    decreases |evs|
  {
    if |evs| > 0 {
      LastWriteWins(a, evs[..|evs| - 1]);
    }
  }

  /** The credential `s` is what the callback at index `i` wrote, and only
      `login()` calls came after it. */
  predicate SnapshotOf(evs: seq<Event>, i: int, s: Session)
  {
    && 0 <= i < |evs|
    && (evs[i].CallbackEvent? || evs[i].RenewEvent?)
    && s == SetSession(evs[i].answer.authResult, evs[i].now)
    && forall j | i < j < |evs| :: evs[j].LoginEvent?
  }

  /** A `setSession` found as the last write was made by a callback of the
      history, after which only `login()` calls occurred. */
  lemma {:induction false} LastWriteIsAnEvent(evs: seq<Event>)
    requires LastWrite(evs).Wrote?
    ensures exists i :: SnapshotOf(evs, i, SetSession(LastWrite(evs).result, LastWrite(evs).now))
    decreases |evs|
  {
    var n := |evs| - 1;
    var w := LastWrite(evs);
    var s := SetSession(w.result, w.now);
    if evs[n].LoginEvent? {
      var prefix := evs[..n];
      LastWriteIsAnEvent(prefix);
      var i :| SnapshotOf(prefix, i, s);
      forall j | i < j < |evs|
        ensures evs[j].LoginEvent?
      {
        if j < n {
          assert evs[j] == prefix[j];
        }
      }
      assert SnapshotOf(evs, i, s);
    } else {
      assert SnapshotOf(evs, n, s);
    }
  }

  /** From construction, the credential is at every point either all absent or
      exactly what one callback of the history wrote with `setSession`, with no
      other write after it: never a mix of two writes. */
  lemma {:induction false} FieldsWrittenTogether(opts: Options, evs: seq<Event>)
    ensures var s := Run(Create(opts), evs).session;
      s == Empty || exists i :: SnapshotOf(evs, i, s)
  {
    LastWriteWins(Create(opts), evs);
    if LastWrite(evs).Wrote? {
      LastWriteIsAnEvent(evs);
    }
  }

  /** `login()` is invisible to the credential: removing it from any history
      changes nothing. */
  lemma {:induction false} LoginIsInvisible(a: Auth0, xs: seq<Event>, ys: seq<Event>)
    ensures Run(a, xs + [LoginEvent] + ys) == Run(a, xs + ys)
    decreases |ys|
  {
    var with := xs + [LoginEvent] + ys;
    if |ys| == 0 {
      assert with[..|with| - 1] == xs;
      assert xs + ys == xs;
    } else {
      var ys' := ys[..|ys| - 1];
      LoginIsInvisible(a, xs, ys');
      assert with[..|with| - 1] == xs + [LoginEvent] + ys';
      assert (xs + ys)[..|xs + ys| - 1] == xs + ys';
      assert with[|with| - 1] == (xs + ys)[|xs + ys| - 1];
    }
  }

  /** Construct, complete a successful login callback, log out: every read
      reports nothing again, and the login itself had resolved with the result
      and set the token. */
  lemma {:induction false} LoginLogoutCycle(opts: Options, answer: Answer, now: int, withContinuation: bool, t: int)
    requires Succeeded(answer)
    ensures var done := HandleAuthentication(Create(opts), answer, now);
      && done.promise == Fulfilled(answer.authResult)
      && GetAccessToken(done.client.session) == answer.authResult.accessToken
    ensures var s := Run(Create(opts), [CallbackEvent(answer, now), LogoutEvent(withContinuation)]).session;
      && GetAccessToken(s) == None && GetUserId(s) == None && GetPermissions(s) == []
      && !IsAuthenticated(s, t)
  {
    var evs := [CallbackEvent(answer, now), LogoutEvent(withContinuation)];
    LastWriteWins(Create(opts), evs);
    assert LastWrite(evs) == Cleared;
    EmptyReadsNothing(t);
  }
}
