/** The frontend's `retry(fn, retries, delay, backoff)`: call `fn`; if it
    rejects and retries remain, wait `delay` and try again with one retry
    fewer and the delay multiplied by `backoff`. What each call of `fn` does
    is an input: the k-th entry of `outcomes` is how the k-th call settles. */
module Retry {

  datatype Attempt<T, E> = Resolved(value: T) | Rejected(error: E)

  /** How the returned promise settles, how often `fn` was called, and the
      waits in between, in order. */
  datatype RetryTrace<T, E> = RetryTrace(settled: Attempt<T, E>, calls: nat, waits: seq<real>)

  /** The most calls `retry` makes: `max(retries, 0) + 1`. */
  function Tries(retries: int): nat {
    if retries <= 0 then 1 else retries + 1
  }

  function Pow(x: real, k: nat): real
    decreases k
  {
    if k == 0 then 1.0 else x * Pow(x, k - 1)
  }

  /** `retry`: `fn` is called at least once and at most `max(retries, 0) + 1`
      times, with one wait between consecutive calls. */
  function Retry<T, E>(outcomes: seq<Attempt<T, E>>, retries: int, delay: real, backoff: real): (t: RetryTrace<T, E>)
    requires |outcomes| >= Tries(retries)
    ensures 1 <= t.calls <= Tries(retries)
    ensures |t.waits| == t.calls - 1
    decreases Tries(retries)
  {
    match outcomes[0]
    case Resolved(v) => RetryTrace(Resolved(v), 1, [])
    case Rejected(e) =>
      if retries <= 0 then RetryTrace(Rejected(e), 1, [])
      else
        var rest := Retry(outcomes[1..], retries - 1, delay * backoff, backoff);
        RetryTrace(rest.settled, rest.calls + 1, [delay] + rest.waits)
  }

  /** Every call before the last was rejected, and the promise settles as the
      last call did: with the first value that resolves, unchanged, or with
      the last call's error. */
  lemma {:induction false} SettlesAsLastCall<T, E>(outcomes: seq<Attempt<T, E>>, retries: int, delay: real, backoff: real)
    requires |outcomes| >= Tries(retries)
    ensures var t := Retry(outcomes, retries, delay, backoff);
      && (forall k | 0 <= k < t.calls - 1 :: outcomes[k].Rejected?)
      && t.settled == outcomes[t.calls - 1]
    decreases Tries(retries)
  {
    if outcomes[0].Rejected? && retries > 0 {
      var t := Retry(outcomes, retries, delay, backoff);
      SettlesAsLastCall(outcomes[1..], retries - 1, delay * backoff, backoff);
      forall k | 1 <= k < t.calls - 1 ensures outcomes[k].Rejected? {
        assert outcomes[k] == outcomes[1..][k - 1];
      }
    }
  }

  /** The delay of the k-th wait from a first delay `delay`. */
  function WaitAt(delay: real, backoff: real, k: nat): real
    decreases k
  {
    if k == 0 then delay else WaitAt(delay * backoff, backoff, k - 1)
  }

  /** The k-th wait, counting from 0, lasts `WaitAt(delay, backoff, k)`. */
  lemma {:induction false} WaitsFollowBackoff<T, E>(outcomes: seq<Attempt<T, E>>, retries: int, delay: real, backoff: real)
    requires |outcomes| >= Tries(retries)
    ensures var t := Retry(outcomes, retries, delay, backoff);
      forall k | 0 <= k < |t.waits| :: t.waits[k] == WaitAt(delay, backoff, k)
    decreases Tries(retries)
  {
    if outcomes[0].Rejected? && retries > 0 {
      var t := Retry(outcomes, retries, delay, backoff);
      var rest := Retry(outcomes[1..], retries - 1, delay * backoff, backoff);
      WaitsFollowBackoff(outcomes[1..], retries - 1, delay * backoff, backoff);
      forall k | 0 <= k < |t.waits| ensures t.waits[k] == WaitAt(delay, backoff, k) {
        if k > 0 {
          assert t.waits[k] == rest.waits[k - 1];
        }
      }
    }
  }

  /** ... which is `delay * backoff^k`. */
  lemma {:induction false} WaitAtIsPower(delay: real, backoff: real, k: nat)
    ensures WaitAt(delay, backoff, k) == delay * Pow(backoff, k)
    decreases k
  {
    if k > 0 {
      WaitAtIsPower(delay * backoff, backoff, k - 1);
      var p := Pow(backoff, k - 1);
      MulAssoc(delay, backoff, p);
    }
  }

  lemma MulAssoc(a: real, b: real, c: real)
    ensures (a * b) * c == a * (b * c)
  {
  }

  /** When every call is rejected, `fn` is called `max(retries, 0) + 1`
      times and the last error is thrown. */
  lemma {:induction false} AllRejected<T, E>(outcomes: seq<Attempt<T, E>>, retries: int, delay: real, backoff: real)
    requires |outcomes| >= Tries(retries)
    requires forall k | 0 <= k < Tries(retries) :: outcomes[k].Rejected?
    ensures var t := Retry(outcomes, retries, delay, backoff);
      t.calls == Tries(retries) && t.settled == outcomes[Tries(retries) - 1]
    decreases Tries(retries)
  {
    if retries > 0 {
      forall k | 0 <= k < Tries(retries - 1) ensures outcomes[1..][k].Rejected? {
        assert outcomes[1..][k] == outcomes[k + 1];
      }
      AllRejected(outcomes[1..], retries - 1, delay * backoff, backoff);
    }
  }
}
