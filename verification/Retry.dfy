/** Retrying with geometric backoff.  The wrapped function, the clock and the random jitter are inputs. */
module Retry {

  type Value

  type Error

  datatype Outcome = Returned(value: Value) | Retryable(error: Error) | Fatal(error: Error)

  datatype Seconds = Unset | Given(seconds: real)

  datatype Settings = Settings(
    retries: int,
    maxDuration: real,
    splay: real,
    sleepTime: Seconds,
    sleepTimeIntervals: seq<real>)
  {
    function Base(): real { if sleepTime.Unset? then 1.0 else sleepTime.seconds }
  }

  // ---- Sleep intervals ----

  function Pow2(n: nat): real { if n == 0 then 1.0 else 2.0 * Pow2(n - 1) }

  /** `xs[:n]`: a negative bound counts from the end. */
  function Slice(xs: seq<real>, n: int): seq<real> {
    if n >= |xs| then xs else if n >= 0 then xs[..n] else if |xs| + n >= 0 then xs[..|xs| + n] else []
  }

  function Delay(s: Settings, jitter: nat -> real, i: nat): real { s.Base() * Pow2(i) * jitter(i) }

  /** An empty list of custom intervals counts as none. */
  function SleepIntervals(s: Settings, jitter: nat -> real): seq<real> {
    if s.sleepTimeIntervals != [] then Slice(s.sleepTimeIntervals, s.retries)
    else if s.retries <= 0 then []
    else seq(s.retries, i requires 0 <= i => Delay(s, jitter, i))
  }

  method ComputeSleepIntervals(s: Settings, jitter: nat -> real) returns (delays: seq<real>)
    ensures delays == SleepIntervals(s, jitter)
  {
    if s.sleepTimeIntervals != [] { return Slice(s.sleepTimeIntervals, s.retries); }
    delays := [];
    var i, power := 0, 1.0;
    while i < s.retries
      invariant 0 <= i && (i <= s.retries || i == 0) && power == Pow2(i)
      invariant |delays| == i && forall k: nat :: k < i ==> delays[k] == Delay(s, jitter, k)
    {
      delays := delays + [s.Base() * power * jitter(i)];
      i, power := i + 1, 2.0 * power;
    }
  }

  // ---- The wrapper ----

  /** The time since the start, read before and after the sleep of a retry. */
  datatype Clock = Clock(before: nat -> real, after: nat -> real)

  predicate Expired(s: Settings, elapsed: real) { s.maxDuration != 0.0 && elapsed >= s.maxDuration }

  /** Retry `k` (from 1 on) takes place. */
  predicate Open(s: Settings, clock: Clock, k: nat) { !Expired(s, clock.before(k)) && !Expired(s, clock.after(k)) }

  function Pause(delay: real): real { if delay > 0.0 then delay else 0.0 }

  /** The pauses before the first `n` retries. */
  function Slept(delays: seq<real>, n: nat): real
    requires n <= |delays|
  {
    if n == 0 then 0.0 else Slept(delays, n - 1) + Pause(delays[n - 1])
  }

  /** Retry `k` follows a failure that may be retried, with time left. */
  ghost predicate Again(s: Settings, outcome: nat -> Outcome, clock: Clock, k: nat) {
    k > 0 && outcome(k - 1).Retryable? && Open(s, clock, k)
  }

  /** The function was called `calls` times: every call but the last failed in a way that may be retried, with time
      left, and the last one did not, or nothing was left to try. */
  ghost predicate CallsMade(
    s: Settings, delays: seq<real>, outcome: nat -> Outcome, clock: Clock, calls: nat)
  {
    && 1 <= calls <= 1 + |delays|
    && (forall k: nat :: 1 <= k < calls ==> Again(s, outcome, clock, k))
    && (calls == 1 + |delays| || !Again(s, outcome, clock, calls))
  }

  /** What was slept: each retry's pause, and one more when the time was up only after it. */
  function Pauses(s: Settings, delays: seq<real>, again: bool, clock: Clock, calls: nat): (n: nat)
    requires 1 <= calls <= 1 + |delays|
    ensures n <= |delays|
  {
    if again && calls <= |delays| && !Expired(s, clock.before(calls)) then calls else calls - 1
  }

  method Wrapper(s: Settings, jitter: nat -> real, outcome: nat -> Outcome, clock: Clock)
    returns (result: Outcome, calls: nat, slept: real)
    ensures var delays := SleepIntervals(s, jitter);
      && CallsMade(s, delays, outcome, clock, calls)
      && result == outcome(calls - 1)
      && slept == Slept(delays, Pauses(s, delays, result.Retryable?, clock, calls))
  {
    slept := 0.0;
    calls := 1;
    var lastExc := outcome(0);
    var delays := ComputeSleepIntervals(s, jitter);
    if !lastExc.Retryable? { return lastExc, calls, slept; }
    var attempt := 1;
    while attempt <= |delays|
      invariant attempt == calls && 1 <= calls <= 1 + |delays|
      invariant lastExc == outcome(calls - 1) && lastExc.Retryable?
      invariant forall k: nat :: 1 <= k < calls ==> Again(s, outcome, clock, k)
      invariant slept == Slept(delays, calls - 1)
      decreases |delays| - attempt
    {
      var delay := delays[attempt - 1];
      if Expired(s, clock.before(attempt)) { break; }
      if delay > 0.0 { slept := slept + delay; }
      if Expired(s, clock.after(attempt)) { break; }
      calls := calls + 1;
      lastExc := outcome(calls - 1);
      if !lastExc.Retryable? { return lastExc, calls, slept; }
      attempt := attempt + 1;
    }
    result := lastExc;
  }

  // ---- How often, and which result ----

  /** At most one call more than there are intervals: `retries + 1`, or fewer if fewer custom intervals are given; a
      negative count takes that many custom intervals away. */
  lemma {:induction false} CallBound(
    s: Settings, jitter: nat -> real, outcome: nat -> Outcome, clock: Clock, calls: nat)
    requires CallsMade(s, SleepIntervals(s, jitter), outcome, clock, calls)
    ensures s.sleepTimeIntervals == [] && s.retries >= 0 ==> calls <= s.retries + 1
    ensures s.sleepTimeIntervals != [] && s.retries >= 0 ==>
      calls <= s.retries + 1 && calls <= |s.sleepTimeIntervals| + 1
    ensures s.retries < 0 && |s.sleepTimeIntervals| + s.retries > 0 ==> calls <= |s.sleepTimeIntervals| + s.retries + 1
    ensures s.retries < 0 && |s.sleepTimeIntervals| + s.retries <= 0 ==> calls == 1
  {
  }

  /** The environment fixes how many calls are made. */
  lemma {:induction false} CallsAreDetermined(
    s: Settings, delays: seq<real>, outcome: nat -> Outcome, clock: Clock, m: nat, n: nat)
    requires CallsMade(s, delays, outcome, clock, m) && CallsMade(s, delays, outcome, clock, n)
    ensures m == n
  {
  }

  /** With no limit on the duration, the result is that of the first call that does not ask for a retry, or else
      that of the last call allowed. */
  lemma {:induction false} FirstDecisiveCall(
    s: Settings, delays: seq<real>, outcome: nat -> Outcome, clock: Clock, calls: nat, first: nat)
    requires CallsMade(s, delays, outcome, clock, calls) && s.maxDuration == 0.0
    requires first <= |delays| && forall k: nat :: k < first ==> outcome(k).Retryable?
    ensures !outcome(first).Retryable? ==> calls == first + 1
    ensures first == |delays| ==> calls == |delays| + 1
  {
    if !outcome(first).Retryable? { assert !Again(s, outcome, clock, first + 1); }
  }

  /** With a limit on the duration, no retry starts at or after it, by either clock reading; and a failure that may be
      retried ends the calls with intervals left exactly when one of the two readings has reached the limit. */
  lemma {:induction false} NoRetryTooLate(
    s: Settings, delays: seq<real>, outcome: nat -> Outcome, clock: Clock, calls: nat)
    requires CallsMade(s, delays, outcome, clock, calls) && s.maxDuration != 0.0
    ensures forall k: nat :: 1 <= k < calls ==> clock.before(k) < s.maxDuration && clock.after(k) < s.maxDuration
    ensures outcome(calls - 1).Retryable? && calls <= |delays| ==>
      clock.before(calls) >= s.maxDuration || clock.after(calls) >= s.maxDuration
    ensures outcome(calls - 1).Retryable? && calls <= |delays| ==>
      Pauses(s, delays, true, clock, calls) == if clock.before(calls) >= s.maxDuration then calls - 1 else calls
  {
    forall k: nat | 1 <= k < calls ensures clock.before(k) < s.maxDuration && clock.after(k) < s.maxDuration {
      assert Again(s, outcome, clock, k);
    }
  }

  /** Slicing as Python does: a front part, of at most `n` elements or, for a negative `n`, that many fewer. */
  lemma {:induction false} SliceIsFront(xs: seq<real>, n: int)
    ensures Slice(xs, n) <= xs
    ensures n >= 0 ==> |Slice(xs, n)| == if n < |xs| then n else |xs|
    ensures n < 0 ==> |Slice(xs, n)| == if |xs| + n > 0 then |xs| + n else 0
  {
  }

  // ---- How long ----

  predicate Jittered(s: Settings, jitter: nat -> real, i: nat) {
    1.0 - s.splay / 10.0 <= jitter(i) <= 1.0 + s.splay / 10.0
  }

  lemma {:induction false} Scale(x: real, lo: real, f: real, hi: real)
    requires x >= 0.0 && lo <= f <= hi
    ensures x * lo <= x * f <= x * hi
  {
    assert x * (f - lo) >= 0.0 && x * (hi - f) >= 0.0;
  }

  /** One more term of the geometric sum. */
  lemma {:induction false} SumGrows(base: real, p: real, sum: real, f: real)
    requires sum == base * (p - 1.0)
    ensures base * (2.0 * p - 1.0) * f == sum * f + base * p * f
  {
    assert base * (2.0 * p - 1.0) == sum + base * p;
  }

  lemma {:induction false} Products(base: real, p: real, lo: real)
    requires base >= 0.0 && p >= 1.0 && lo >= 0.0
    ensures base * p >= 0.0 && base * p * lo >= 0.0
  {
  }

  lemma {:induction false} Pow2Positive(n: nat)
    ensures Pow2(n) >= 1.0
    decreases n
  {
    if n == 0 {
    } else {
      Pow2Positive(n - 1);
    }
  }

  /** An interval that is not positive is not slept, and no pause takes time back. */
  lemma {:induction false} OnlyPositivePauses(delays: seq<real>, n: nat)
    requires n <= |delays|
    ensures Slept(delays, n) >= 0.0
    ensures (forall i :: 0 <= i < n ==> delays[i] <= 0.0) <==> Slept(delays, n) == 0.0
    decreases n
  {
    if n == 0 {
    } else {
      OnlyPositivePauses(delays, n - 1);
    }
  }

  function Sum(term: nat -> real, n: nat): real { if n == 0 then 0.0 else Sum(term, n - 1) + term(n - 1) }

  lemma {:induction false} SleptBetween(delays: seq<real>, n: nat, low: nat -> real, high: nat -> real)
    requires n <= |delays| && forall i: nat :: i < n ==> 0.0 <= low(i) <= delays[i] <= high(i)
    ensures Sum(low, n) <= Slept(delays, n) <= Sum(high, n)
    decreases n
  {
    if n == 0 {
    } else {
      SleptBetween(delays, n - 1, low, high);
      assert 0.0 <= low(n - 1) <= delays[n - 1] <= high(n - 1);
    }
  }

  function Term(base: real, f: real): nat -> real { (i: nat) => base * Pow2(i) * f }

  lemma {:induction false} GeometricSum(base: real, f: real, n: nat)
    ensures Sum(Term(base, f), n) == base * (Pow2(n) - 1.0) * f
    decreases n
  {
    if n == 0 {
      assert base * (1.0 - 1.0) == 0.0;
    } else {
      GeometricSum(base, f, n - 1);
      SumGrows(base, Pow2(n - 1), base * (Pow2(n - 1) - 1.0), f);
    }
  }

  lemma {:induction false} DelayBetween(s: Settings, jitter: nat -> real, i: nat, lo: real, hi: real)
    requires s.Base() >= 0.0 && 0.0 <= lo <= jitter(i) <= hi
    ensures 0.0 <= Term(s.Base(), lo)(i) <= Delay(s, jitter, i) <= Term(s.Base(), hi)(i)
  {
    Pow2Positive(i);
    Products(s.Base(), Pow2(i), lo);
    Scale(s.Base() * Pow2(i), lo, jitter(i), hi);
  }

  /** A full failure sleeps a geometric sum, off by at most the jitter. */
  lemma {:induction false} TotalSleep(s: Settings, jitter: nat -> real)
    requires s.sleepTimeIntervals == [] && s.retries >= 0 && s.Base() >= 0.0 && 0.0 <= s.splay <= 10.0
    requires forall i: nat :: i < s.retries ==> Jittered(s, jitter, i)
    ensures var delays := SleepIntervals(s, jitter);
      s.Base() * (Pow2(s.retries) - 1.0) * (1.0 - s.splay / 10.0)
      <= Slept(delays, |delays|)
      <= s.Base() * (Pow2(s.retries) - 1.0) * (1.0 + s.splay / 10.0)
  {
    var lo, hi := 1.0 - s.splay / 10.0, 1.0 + s.splay / 10.0;
    var delays := SleepIntervals(s, jitter);
    forall i: nat | i < s.retries
      ensures 0.0 <= Term(s.Base(), lo)(i) <= delays[i] <= Term(s.Base(), hi)(i)
    {
      assert Jittered(s, jitter, i);
      DelayBetween(s, jitter, i, lo, hi);
    }
    SleptBetween(delays, s.retries, Term(s.Base(), lo), Term(s.Base(), hi));
    GeometricSum(s.Base(), lo, s.retries);
    GeometricSum(s.Base(), hi, s.retries);
  }

  /** When every call fails and the duration is not limited, all the pauses are taken. */
  lemma {:induction false} FullFailureSleepsAll(
    s: Settings, delays: seq<real>, outcome: nat -> Outcome, clock: Clock, calls: nat)
    requires CallsMade(s, delays, outcome, clock, calls) && s.maxDuration == 0.0 && outcome(calls - 1).Retryable?
    ensures calls == |delays| + 1 && Pauses(s, delays, true, clock, calls) == |delays|
  {
    assert !Again(s, outcome, clock, calls) ==> calls == 1 + |delays|;
  }
}
