/** `withRetry`: call a fallible operation up to `maxRetries` times, sleeping between attempts
    and doubling the sleep each time, and rethrow the last error when every attempt fails.
    The operation is an oracle: `outcomes[i]` is what its (i+1)-th invocation does. */
module Retry {
  import opened Wrappers

  /** What one invocation of the wrapped operation does. */
  datatype Attempt<T, E> = Resolved(value: T) | Threw(error: E)

  /** How `withRetry` ends: with the operation's value, or by rethrowing the last error.
      `Rethrown(None)` is `throw undefined`, what happens when no attempt is made at all. */
  datatype RetryResult<T, E> = Returned(value: T) | Rethrown(error: Option<E>)

  const DefaultMaxRetries: int := 3
  const DefaultDelayMs: int := 1000

  /** The index of the first resolving attempt among the first `n`, or `n` when all of them throw. */
  function FirstSuccess<T, E>(outcomes: seq<Attempt<T, E>>, n: nat): (k: nat)
    requires n <= |outcomes|
    ensures k <= n
    ensures forall i :: 0 <= i < k ==> outcomes[i].Threw?
    ensures k < n ==> outcomes[k].Resolved?
  {
    if n == 0 then 0
    else if outcomes[0].Resolved? then 0
    else 1 + FirstSuccess(outcomes[1..], n - 1)
  }

  /** What `withRetry(op, maxRetries)` resolves to or throws. */
  function Retried<T, E>(outcomes: seq<Attempt<T, E>>, maxRetries: int): RetryResult<T, E>
    requires maxRetries <= |outcomes|
  {
    if maxRetries <= 0 then Rethrown(None)
    else
      var k := FirstSuccess(outcomes, maxRetries);
      if k < maxRetries then Returned(outcomes[k].value)
      else Rethrown(Some(outcomes[maxRetries - 1].error))
  }

  /** How many times `withRetry(op, maxRetries)` invokes the operation. */
  function Invocations<T, E>(outcomes: seq<Attempt<T, E>>, maxRetries: int): nat
    requires maxRetries <= |outcomes|
  {
    if maxRetries <= 0 then 0
    else
      var k := FirstSuccess(outcomes, maxRetries);
      if k < maxRetries then k + 1 else maxRetries
  }

  function Pow2(n: nat): (p: nat)
    ensures p >= 1
  {
    if n == 0 then 1 else 2 * Pow2(n - 1)
  }

  /** The first `n` sleeps of a backoff that starts at `delay` and doubles after each sleep. */
  function Backoff(delay: int, n: nat): (ds: seq<int>)
    ensures |ds| == n
    decreases n
  {
    if n == 0 then [] else [delay] + Backoff(2 * delay, n - 1)
  }

  /** The i-th sleep is `delay * 2^i`. */
  lemma {:induction false} BackoffAt(delay: int, n: nat, i: nat)
    requires i < n
    ensures Backoff(delay, n)[i] == delay * Pow2(i)
    decreases n
  {
    if i > 0 {
      BackoffAt(2 * delay, n - 1, i - 1);
      assert Backoff(delay, n)[i] == Backoff(2 * delay, n - 1)[i - 1];
      calc {
        (2 * delay) * Pow2(i - 1);
        delay * (2 * Pow2(i - 1));
        delay * Pow2(i);
      }
    }
  }

  /** Each sleep is twice the one before it. */
  lemma BackoffDoubles(delay: int, n: nat, i: nat)
    requires i + 1 < n
    ensures Backoff(delay, n)[i + 1] == 2 * Backoff(delay, n)[i]
  {
    BackoffAt(delay, n, i);
    BackoffAt(delay, n, i + 1);
    assert Pow2(i + 1) == 2 * Pow2(i);
    calc {
      delay * Pow2(i + 1);
      delay * (2 * Pow2(i));
      2 * (delay * Pow2(i));
    }
  }

  /** One more sleep appends `delay * 2^n`. */
  lemma BackoffSnoc(delay: int, n: nat)
    ensures Backoff(delay, n + 1) == Backoff(delay, n) + [delay * Pow2(n)]
  {
    var longer, shorter := Backoff(delay, n + 1), Backoff(delay, n) + [delay * Pow2(n)];
    forall i | 0 <= i < n + 1
      ensures longer[i] == shorter[i]
    {
      BackoffAt(delay, n + 1, i);
      if i < n {
        BackoffAt(delay, n, i);
      }
    }
  }

  /** The retry loop. It returns what the loop resolves to (or throws), how many times it invoked
      the operation and the sleeps it took, in order. */
  method WithRetry<T, E>(outcomes: seq<Attempt<T, E>>, maxRetries: int, delay: int)
    returns (r: RetryResult<T, E>, invocations: nat, sleeps: seq<int>)
    requires maxRetries <= |outcomes|
    ensures r == Retried(outcomes, maxRetries)
    ensures invocations == Invocations(outcomes, maxRetries)
    ensures sleeps == Backoff(delay, if invocations == 0 then 0 else invocations - 1)
  {
    var lastError: Option<E> := None;
    var wait := delay;
    invocations, sleeps := 0, [];
    var attempt := 1;
    while attempt <= maxRetries
      invariant 1 <= attempt && (attempt == 1 || attempt <= maxRetries + 1)
      invariant invocations == attempt - 1
      invariant forall i :: 0 <= i < attempt - 1 ==> outcomes[i].Threw?
      invariant lastError == if attempt == 1 then None else Some(outcomes[attempt - 2].error)
      invariant |sleeps| == if attempt <= maxRetries || attempt == 1 then attempt - 1 else attempt - 2
      invariant sleeps == Backoff(delay, |sleeps|)
      invariant wait == delay * Pow2(|sleeps|)
    {
      invocations := invocations + 1;
      match outcomes[attempt - 1]
      case Resolved(v) =>
        r := Returned(v);
        return;
      case Threw(e) =>
        lastError := Some(e);
        if attempt < maxRetries {
          BackoffSnoc(delay, |sleeps|);
          sleeps := sleeps + [wait];
          wait := wait * 2;
        }
      attempt := attempt + 1;
    }
    r := Rethrown(lastError);
  }

  /** An operation that throws k times and then resolves, with k below the bound, is invoked
      exactly k+1 times and its value is returned. */
  lemma RetryReturnsFirstSuccess<T, E>(outcomes: seq<Attempt<T, E>>, maxRetries: int, k: nat)
    requires k < maxRetries <= |outcomes|
    requires forall i :: 0 <= i < k ==> outcomes[i].Threw?
    requires outcomes[k].Resolved?
    ensures Retried(outcomes, maxRetries) == Returned(outcomes[k].value)
    ensures Invocations(outcomes, maxRetries) == k + 1
  {
  }

  /** An operation that always throws is invoked exactly `maxRetries` times and the error of the
      last attempt is rethrown. */
  lemma RetryRethrowsLastError<T, E>(outcomes: seq<Attempt<T, E>>, maxRetries: int)
    requires 0 < maxRetries <= |outcomes|
    requires forall i :: 0 <= i < maxRetries ==> outcomes[i].Threw?
    ensures Retried(outcomes, maxRetries) == Rethrown(Some(outcomes[maxRetries - 1].error))
    ensures Invocations(outcomes, maxRetries) == maxRetries
  {
  }

  /** The operation is never invoked more than `maxRetries` times; a returned value is the one of
      the last invocation, and every invocation before it threw. */
  lemma RetryIsBounded<T, E>(outcomes: seq<Attempt<T, E>>, maxRetries: int)
    requires maxRetries <= |outcomes|
    ensures Invocations(outcomes, maxRetries) <= (if maxRetries < 0 then 0 else maxRetries)
    ensures forall i :: 0 <= i < Invocations(outcomes, maxRetries) - 1 ==> outcomes[i].Threw?
    ensures Retried(outcomes, maxRetries).Returned? <==>
      Invocations(outcomes, maxRetries) > 0 && outcomes[Invocations(outcomes, maxRetries) - 1].Resolved?
    ensures Retried(outcomes, maxRetries).Returned? ==>
      Retried(outcomes, maxRetries).value == outcomes[Invocations(outcomes, maxRetries) - 1].value
  {
  }
}
