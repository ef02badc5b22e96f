/** Ownership-retry backoff: when the loop ends, how often it tries, and how
    long it sleeps, for every behaviour of the operation and of the clock. */
module Retry {
  import opened Ids

  datatype Backoff = Backoff(initial: nat, max: nat, timeout: nat)

  function Min(a: int, b: int): int { if a < b then a else b }

  function Pow2(k: nat): nat { if k == 0 then 1 else 2 * Pow2(k - 1) }

  predicate Retryable<T>(r: Result<T, ClientError>) {
    r.Err? && r.error.IsOwnership()
  }

  /** The errors that say "not here, not now": the shard is not owned, or being
      drained, or the owner cannot be reached. */
  predicate Refused<T>(r: Result<T, ClientError>) {
    r.Err? && (r.error.NotOwned? || r.error.Draining? || r.error == Transport(true))
  }

  /** The delay after the k-th failed attempt. The first delay is not capped. */
  function Delay(b: Backoff, k: nat): nat {
    if k == 0 then b.initial else Min(Delay(b, k - 1) * 2, b.max)
  }

  function SleepAt(b: Backoff, k: nat, now: nat): nat {
    if now < b.timeout then Min(Delay(b, k), b.timeout - now) else 0
  }

  /** Time since the start at the clock reading after attempt `k`: attempt `k`
      took `took(k)`, and the sleep before it overran by `over(k - 1)`. As `took`
      and `over` range over all functions, this is every clock that advances at
      least by each sleep. */
  function Now(b: Backoff, took: nat -> nat, over: nat -> nat, k: nat): nat {
    if k == 0 then took(0)
    else
      var before := Now(b, took, over, k - 1);
      before + SleepAt(b, k - 1, before) + over(k - 1) + took(k)
  }

  function Sleep(b: Backoff, took: nat -> nat, over: nat -> nat, k: nat): nat {
    SleepAt(b, k, Now(b, took, over, k))
  }

  function TotalSleep(b: Backoff, took: nat -> nat, over: nat -> nat, n: nat): nat {
    if n == 0 then 0 else TotalSleep(b, took, over, n - 1) + Sleep(b, took, over, n - 1)
  }

  predicate Early(b: Backoff, took: nat -> nat, over: nat -> nat, k: nat) {
    Now(b, took, over, k) < b.timeout
  }

  /** Every reading before the n-th was before the deadline. */
  predicate InTime(b: Backoff, took: nat -> nat, over: nat -> nat, n: nat) {
    forall k: nat :: k < n ==> Early(b, took, over, k)
  }

  /** The sleeps asked for are the ones the clock accounts for. */
  predicate AsScheduled(b: Backoff, took: nat -> nat, over: nat -> nat, sleeps: seq<nat>) {
    forall k {:trigger sleeps[k]} :: 0 <= k < |sleeps| ==> sleeps[k] == Sleep(b, took, over, k)
  }

  /** The settings under which no clock lets the loop run forever. */
  predicate AlwaysTerminates(b: Backoff) {
    b.timeout == 0 || (b.initial > 0 && (b.max > 0 || b.initial >= b.timeout))
  }

  /** ceil(timeout / m) + 1, where m is the smaller of the two delays. */
  function MaxAttempts(b: Backoff): nat
    requires b.initial > 0 && b.max > 0
  {
    (b.timeout + Min(b.initial, b.max) - 1) / Min(b.initial, b.max) + 1
  }

  function Sum(s: seq<nat>): nat {
    if s == [] then 0 else Sum(s[..|s| - 1]) + s[|s| - 1]
  }

  /** The loop, watched for `limit` sleeps; `None` when it would go on. It returns its
      verdict and the sleeps it asked for; it made one attempt more than it slept. */
  method RetryOwnership<T>(b: Backoff, op: nat -> Result<T, ClientError>, took: nat -> nat, over: nat -> nat, limit: nat)
    returns (r: Option<Result<T, ClientError>>, sleeps: seq<nat>)
    ensures r.Some? ==> r.value == op(|sleeps|)
    ensures r.Some? && Refused(r.value) ==> !Early(b, took, over, |sleeps|)
    ensures r.None? ==> |sleeps| == limit
    ensures forall k :: 0 <= k < |sleeps| ==> Refused(op(k))
    ensures InTime(b, took, over, |sleeps|)
    ensures AsScheduled(b, took, over, sleeps)
    ensures Sum(sleeps) <= b.timeout
    ensures b.initial > 0 && b.max > 0 ==> |sleeps| + 1 <= MaxAttempts(b)
  {
    sleeps := [];
    r := None;
    var delay := b.initial;
    var elapsed := 0;
    while |sleeps| < limit
      invariant |sleeps| <= limit && r == None
      invariant elapsed + took(|sleeps|) == Now(b, took, over, |sleeps|)
      invariant delay == Delay(b, |sleeps|)
      invariant forall k :: 0 <= k < |sleeps| ==> Refused(op(k))
      invariant InTime(b, took, over, |sleeps|)
      invariant AsScheduled(b, took, over, sleeps)
      decreases limit - |sleeps|
    {
      var result := op(|sleeps|);
      elapsed := elapsed + took(|sleeps|);
      if !Retryable(result) || elapsed >= b.timeout {
        Summary(b, took, over, sleeps);
        r := Some(result);
        return;
      }
      OneMoreSleep(b, took, over, sleeps);
      var sleepFor := Min(delay, b.timeout - elapsed);
      elapsed := elapsed + sleepFor + over(|sleeps|);
      sleeps := sleeps + [sleepFor];
      delay := Min(delay * 2, b.max);
    }
    Summary(b, took, over, sleeps);
  }

  lemma OneMoreSleep(b: Backoff, took: nat -> nat, over: nat -> nat, sleeps: seq<nat>)
    requires InTime(b, took, over, |sleeps|) && Early(b, took, over, |sleeps|) && AsScheduled(b, took, over, sleeps)
    ensures InTime(b, took, over, |sleeps| + 1)
    ensures AsScheduled(b, took, over, sleeps + [Sleep(b, took, over, |sleeps|)])
  {}

  lemma {:induction false} SumIsTotal(b: Backoff, took: nat -> nat, over: nat -> nat, sleeps: seq<nat>)
    requires AsScheduled(b, took, over, sleeps)
    ensures Sum(sleeps) == TotalSleep(b, took, over, |sleeps|)
  {
    if sleeps != [] {
      SumIsTotal(b, took, over, sleeps[..|sleeps| - 1]);
    }
  }

  lemma Summary(b: Backoff, took: nat -> nat, over: nat -> nat, sleeps: seq<nat>)
    requires InTime(b, took, over, |sleeps|)
    requires AsScheduled(b, took, over, sleeps)
    ensures Sum(sleeps) <= b.timeout
    ensures b.initial > 0 && b.max > 0 ==> |sleeps| + 1 <= MaxAttempts(b)
  {
    SumIsTotal(b, took, over, sleeps);
    SleepWithinClock(b, took, over, |sleeps|);
    if b.initial > 0 && b.max > 0 { AttemptBound(b, took, over, |sleeps|); }
  }

  /** Doubling and capping step by step gives the closed form. */
  lemma {:induction false} DelayClosedForm(b: Backoff, k: nat)
    requires k >= 1
    ensures Delay(b, k) == Min(b.initial * Pow2(k), b.max)
  {
    assert Pow2(k) == 2 * Pow2(k - 1);
    assert b.initial * Pow2(k) == (b.initial * Pow2(k - 1)) * 2;
    if k > 1 { DelayClosedForm(b, k - 1); }
  }

  /** The k-th sleep is the doubled and capped delay, or what is left of the timeout; and
      the clock stands at all the attempts and sleeps so far. */
  lemma SleepClosedForm(b: Backoff, took: nat -> nat, over: nat -> nat, k: nat)
    requires Early(b, took, over, k)
    ensures var delay := if k == 0 then b.initial else Min(b.initial * Pow2(k), b.max);
            var left := b.timeout - Now(b, took, over, k);
            Sleep(b, took, over, k) == if delay <= left then delay else left
    ensures Now(b, took, over, k) == Spent(took, k + 1) + Spent(over, k) + TotalSleep(b, took, over, k)
  {
    if k > 0 { DelayClosedForm(b, k); }
    ClockIsSpent(b, took, over, k);
  }

  function Spent(f: nat -> nat, n: nat): nat {
    if n == 0 then 0 else Spent(f, n - 1) + f(n - 1)
  }

  lemma {:induction false} ClockIsSpent(b: Backoff, took: nat -> nat, over: nat -> nat, k: nat)
    ensures Now(b, took, over, k) == Spent(took, k + 1) + Spent(over, k) + TotalSleep(b, took, over, k)
  {
    if k > 0 { ClockIsSpent(b, took, over, k - 1); }
  }

  lemma {:induction false} DelayAtLeast(b: Backoff, k: nat)
    ensures Delay(b, k) >= Min(b.initial, b.max)
  {
    if k > 0 { DelayAtLeast(b, k - 1); }
  }

  lemma {:induction false} SleepWithinClock(b: Backoff, took: nat -> nat, over: nat -> nat, n: nat)
    requires InTime(b, took, over, n)
    ensures TotalSleep(b, took, over, n) <= Min(b.timeout, Now(b, took, over, n))
  {
    if n > 0 {
      SleepWithinClock(b, took, over, n - 1);
      assert Early(b, took, over, n - 1);
    }
  }

  /** A sleep that is cut short by the deadline is the last one. */
  lemma {:induction false} SleepBounds(b: Backoff, took: nat -> nat, over: nat -> nat, n: nat)
    requires b.initial > 0 && b.max > 0
    requires InTime(b, took, over, n)
    ensures n * Min(b.initial, b.max) < b.timeout + Min(b.initial, b.max)
    ensures Early(b, took, over, n) ==> n * Min(b.initial, b.max) <= Now(b, took, over, n)
  {
    if n > 0 {
      SleepBounds(b, took, over, n - 1);
      assert Early(b, took, over, n - 1);
      DelayAtLeast(b, n - 1);
      MulStep(n, Min(b.initial, b.max));
    }
  }

  lemma MulStep(n: nat, m: nat)
    requires n > 0
    ensures n * m == (n - 1) * m + m
  {}

  /** Every sleep but the last lasts at least the smaller delay. */
  lemma AttemptBound(b: Backoff, took: nat -> nat, over: nat -> nat, n: nat)
    requires b.initial > 0 && b.max > 0
    requires InTime(b, took, over, n)
    ensures n + 1 <= MaxAttempts(b)
  {
    SleepBounds(b, took, over, n);
    var m := Min(b.initial, b.max);
    assert n * m <= b.timeout + m - 1;
    DivAtLeast(n, m, b.timeout + m - 1);
  }

  lemma DivAtLeast(n: nat, m: nat, x: nat)
    requires m > 0 && n * m <= x
    ensures n <= x / m
  {
    assert x == m * (x / m) + x % m;
    if x / m < n {
      MulMono(x / m + 1, n, m);
      assert false;
    }
  }

  lemma MulMono(a: nat, c: nat, m: nat)
    requires a <= c
    ensures a * m <= c * m
  {}

  /** Some reading reaches the deadline, so the loop ends whatever `op` returns. */
  ghost predicate Ends(b: Backoff, took: nat -> nat, over: nat -> nat) {
    exists n: nat :: !Early(b, took, over, n)
  }

  /** The loop ends under every clock exactly for the settings of
      `AlwaysTerminates`. In particular a zero cap is harmless only when the
      first delay already reaches the deadline, and a zero first delay never is. */
  lemma TerminatesExactlyWhen(b: Backoff)
    ensures AlwaysTerminates(b) <==> forall took: nat -> nat, over: nat -> nat :: Ends(b, took, over)
  {
    if AlwaysTerminates(b) {
      forall took: nat -> nat, over: nat -> nat ensures Ends(b, took, over) {
        EventuallyLate(b, took, over);
      }
    } else {
      var still: nat -> nat := _ => 0;
      forall n: nat ensures Early(b, still, still, n) { NeverLate(b, still, n); }
      assert !Ends(b, still, still);
    }
  }

  lemma EventuallyLate(b: Backoff, took: nat -> nat, over: nat -> nat)
    requires AlwaysTerminates(b)
    ensures Ends(b, took, over)
  {
    if b.timeout == 0 {
      assert !Early(b, took, over, 0);
    } else if b.max == 0 {
      assert !Early(b, took, over, 0) || !Early(b, took, over, 1);
    } else if InTime(b, took, over, b.timeout + 1) {
      TooManySleeps(b, took, over);
      assert false;
    }
  }

  lemma MulExceeds(t: nat, m: nat)
    requires m >= 1
    ensures (t + 1) * m >= t + m
  {
    assert (t + 1) * m == t * m + m;
  }

  lemma TooManySleeps(b: Backoff, took: nat -> nat, over: nat -> nat)
    requires b.initial > 0 && b.max > 0
    ensures !InTime(b, took, over, b.timeout + 1)
  {
    if InTime(b, took, over, b.timeout + 1) {
      SleepBounds(b, took, over, b.timeout + 1);
      MulExceeds(b.timeout, Min(b.initial, b.max));
    }
  }

  lemma {:induction false} NeverLate(b: Backoff, still: nat -> nat, n: nat)
    requires !AlwaysTerminates(b)
    requires forall k: nat :: still(k) == 0
    ensures Now(b, still, still, n) == if n == 0 then 0 else b.initial
  {
    if n > 0 {
      NeverLate(b, still, n - 1);
      if n > 1 { NoDelay(b, n - 1); }
    }
  }

  lemma {:induction false} NoDelay(b: Backoff, k: nat)
    requires k > 0 && (b.initial == 0 || b.max == 0)
    ensures Delay(b, k) == 0
  {
    if k > 1 { NoDelay(b, k - 1); }
  }
}
