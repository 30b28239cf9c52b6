/** The delay slept after a throttled attempt: 1.5 to the power of the attempt
    index, in seconds, converted to whole milliseconds by truncation. */
module Backoff {

  function Pow(base: nat, exp: nat): (p: nat)
    ensures base > 0 ==> p > 0
  {
    if exp == 0 then 1 else base * Pow(base, exp - 1)
  }

  /** floor(1.5^attempt * 1000), computed without floating point as
      1000 * 3^attempt div 2^attempt. */
  function Delay(attempt: nat): (ms: nat)
    ensures ms * Pow(2, attempt) <= 1000 * Pow(3, attempt) < (ms + 1) * Pow(2, attempt)
  {
    1000 * Pow(3, attempt) / Pow(2, attempt)
  }

  /** The delays of the first n retries, in the order they are slept. */
  function Schedule(n: nat): (s: seq<nat>)
    ensures |s| == n
    ensures forall i :: 0 <= i < n ==> s[i] == Delay(i)
  {
    if n == 0 then [] else Schedule(n - 1) + [Delay(n - 1)]
  }

  /** Total time slept over a sequence of delays. */
  function Total(s: seq<nat>): nat {
    if s == [] then 0 else Total(s[..|s| - 1]) + s[|s| - 1]
  }

  lemma {:induction false} PowThreeDominatesTwo(n: nat)
    ensures Pow(2, n) <= Pow(3, n)
  {
    if n > 0 {
      PowThreeDominatesTwo(n - 1);
    }
  }

  lemma CancelFactor(x: int, y: int, b: int)
    requires b > 0
    requires x * b < y * b
    ensures x < y
  {
  }

  /** No delay is shorter than one second. */
  lemma {:induction false} DelayAtLeastOneSecond(attempt: nat)
    ensures Delay(attempt) >= 1000
  {
    var q, b := Delay(attempt), Pow(2, attempt);
    PowThreeDominatesTwo(attempt);
    assert 1000 * b <= 1000 * Pow(3, attempt);
    assert 1000 * b < (q + 1) * b;
    CancelFactor(1000, q + 1, b);
  }

  /** If q is at most a / b and q' is at least 3a / 2b, then q' exceeds q
      once q is 2 or more. */
  lemma FloorGrowsByHalf(a: int, b: int, q: int, q': int)
    requires b > 0 && q >= 2
    requires q * b <= a
    requires 3 * a < (q' + 1) * (2 * b)
    ensures q < q'
  {
    assert 2 * b <= q * b by {
      assert (q - 2) * b >= 0;
    }
    assert (q + 1) * (2 * b) == 2 * (q * b) + 2 * b;
    CancelFactor(q + 1, q' + 1, 2 * b);
  }

  /** Each retry waits strictly longer than the one before it. */
  lemma {:induction false} DelayIncreases(attempt: nat)
    ensures Delay(attempt) < Delay(attempt + 1)
  {
    var a, b := 1000 * Pow(3, attempt), Pow(2, attempt);
    DelayAtLeastOneSecond(attempt);
    assert 1000 * Pow(3, attempt + 1) == 3 * a;
    assert Pow(2, attempt + 1) == 2 * b;
    FloorGrowsByHalf(a, b, Delay(attempt), Delay(attempt + 1));
  }

  /** The backoff schedule is strictly increasing in the attempt index. */
  lemma {:induction false} DelayStrictlyMonotone(i: nat, j: nat)
    requires i < j
    ensures Delay(i) < Delay(j)
    decreases j - i
  {
    DelayIncreases(i);
    if i + 1 < j {
      DelayStrictlyMonotone(i + 1, j);
    }
  }

  /** Extending the schedule by one retry adds that retry's delay to the total. */
  lemma TotalScheduleStep(n: nat)
    requires n > 0
    ensures Total(Schedule(n)) == Total(Schedule(n - 1)) + Delay(n - 1)
  {
    assert Schedule(n)[..n - 1] == Schedule(n - 1);
  }

  lemma EarlyDelayValues()
    ensures Delay(0) == 1000 && Delay(1) == 1500 && Delay(2) == 2250
    ensures Delay(3) == 3375 && Delay(4) == 5062
  {
  }

  lemma LateDelayValues()
    ensures Delay(5) == 7593 && Delay(6) == 11390 && Delay(7) == 17085
    ensures Delay(8) == 25628 && Delay(9) == 38443
  {
  }

  /** The ten delays an exhausted call sleeps, 1 s up to about 38.4 s. */
  lemma FullScheduleValues()
    ensures Schedule(10) == [1000, 1500, 2250, 3375, 5062, 7593, 11390, 17085, 25628, 38443]
  {
    var s := Schedule(10);
    var expected := [1000, 1500, 2250, 3375, 5062, 7593, 11390, 17085, 25628, 38443];
    EarlyDelayValues();
    LateDelayValues();
    assert forall i :: 0 <= i < 10 ==> s[i] == expected[i];
  }

  /** An exhausted call sleeps about 113 seconds in total. */
  lemma FullScheduleTotal()
    ensures Total(Schedule(10)) == 113326
  {
    FullScheduleValues();
    TotalScheduleStep(1);
    TotalScheduleStep(2);
    TotalScheduleStep(3);
    TotalScheduleStep(4);
    TotalScheduleStep(5);
    TotalScheduleStep(6);
    TotalScheduleStep(7);
    TotalScheduleStep(8);
    TotalScheduleStep(9);
    TotalScheduleStep(10);
  }
}
