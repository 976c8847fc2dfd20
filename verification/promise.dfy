/** The settlement of a JavaScript promise, seen from the executor that owns its
    `resolve` and `reject` functions. A promise settles at most once: the first
    call wins and every later call is a no-op. */
module Promise {

  datatype Promise<+T, +E> = Pending | Fulfilled(value: T) | Rejected(reason: E)

  /** One call made by the executor. */
  datatype Settle<+T, +E> = Resolve(value: T) | Reject(reason: E)

  /** The state a call would give a promise that is still pending. */
  function Outcome<T, E>(c: Settle<T, E>): (r: Promise<T, E>)
  {
    match c
    case Resolve(v) => Fulfilled(v)
    case Reject(e) => Rejected(e)
  }

  /** The effect of one call: only a pending promise changes. */
  function Apply<T, E>(p: Promise<T, E>, c: Settle<T, E>): (r: Promise<T, E>)
  {
    if p.Pending? then Outcome(c) else p
  }

  /** The effect of the executor's calls, in order. */
  function ApplyAll<T, E>(p: Promise<T, E>, cs: seq<Settle<T, E>>): (r: Promise<T, E>)
    // a settled promise ignores every later call
    ensures !p.Pending? ==> r == p
    // the promise is still pending only if it was and nothing was called
    ensures r.Pending? <==> p.Pending? && |cs| == 0
    decreases |cs|
  {
    if |cs| == 0 then p else ApplyAll(Apply(p, cs[0]), cs[1..])
  }

  /** Starting from a pending promise, the first call decides the settlement. */
  lemma {:induction false} FirstCallWins<T, E>(cs: seq<Settle<T, E>>)
    requires |cs| > 0
    ensures ApplyAll(Pending, cs) == Outcome(cs[0])
  {
    assert ApplyAll(Pending, cs) == ApplyAll(Outcome(cs[0]), cs[1..]);
  }
}
