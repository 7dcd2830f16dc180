/** Duration arithmetic on 64-bit nanosecond counts: the capped exponential
    backoff of the monitor and the saturating sum of control-request budgets.
    Working in `Duration` makes every overflow a proof obligation. */
module BoundedTime {

  const MAX_DURATION: int := 0x7fff_ffff_ffff_ffff

  newtype Duration = d: int | -0x8000_0000_0000_0000 <= d <= 0x7fff_ffff_ffff_ffff

  /** 2 to the power `n`. */
  function Pow2(n: nat): (p: int)
    ensures p >= 1
  {
    if n == 0 then 1 else 2 * Pow2(n - 1)
  }

  /** What the backoff is for: the delay after `failures` failures in a row.
      The uncapped delay doubles each time; from the second failure on, anything that
      reaches `maximum - 1` is rounded up to the cap. */
  function BackoffDelay(initial: int, maximum: int, failures: int): int {
    if failures <= 1 then initial
    else
      var uncapped := initial * Pow2(failures - 1);
      if uncapped >= maximum - 1 then maximum else uncapped
  }

  lemma {:induction false} Pow2Monotone(m: nat, n: nat)
    requires m <= n
    ensures Pow2(m) <= Pow2(n)
    decreases n
  {
    if m < n {
      Pow2Monotone(m, n - 1);
    }
  }

  lemma ScaledMonotone(initial: int, m: nat, n: nat)
    requires initial > 0 && m <= n
    ensures initial <= initial * Pow2(m) <= initial * Pow2(n)
  {
    Pow2Monotone(m, n);
    Pow2Monotone(0, m);
    ScaleLeq(initial, Pow2(m), Pow2(n));
    ScaleLeq(initial, 1, Pow2(m));
  }

  lemma ScaleLeq(k: int, a: int, b: int)
    requires k >= 0 && a <= b
    ensures k * a <= k * b
  {}

  /** The loop of the monitor: doubles until half of the cap is reached. No step leaves
      64 bits, whatever the failure count. */
  method ExponentialBackoff(initial: Duration, maximum: Duration, failures: int) returns (value: Duration)
    requires 0 < initial <= maximum
    ensures value as int == BackoffDelay(initial as int, maximum as int, failures)
  {
    if failures <= 1 {
      return initial;
    }
    value := initial;
    var i := 1;
    while i < failures
      invariant 1 <= i <= failures
      invariant value as int == initial as int * Pow2(i - 1)
      invariant initial <= value
      invariant i > 1 ==> (value as int) < maximum as int - 1
      invariant value <= maximum
    {
      if value >= maximum / 2 {
        ScaledMonotone(initial as int, i, failures - 1);
        assert initial as int * Pow2(i) == 2 * (value as int);
        return maximum;
      }
      value := value * 2;
      i := i + 1;
    }
    if value > maximum {
      return maximum;
    }
  }

  /** Any delay lies between the two configured limits. */
  lemma BackoffInRange(initial: int, maximum: int, failures: int)
    requires 0 < initial <= maximum
    ensures initial <= BackoffDelay(initial, maximum, failures) <= maximum
  {
    if failures > 1 {
      ScaledMonotone(initial, 0, failures - 1);
    }
  }

  /** More failures never shorten the delay. */
  lemma BackoffMonotone(initial: int, maximum: int, fewer: int, more: int)
    requires 0 < initial <= maximum && fewer <= more
    ensures BackoffDelay(initial, maximum, fewer) <= BackoffDelay(initial, maximum, more)
  {
    BackoffInRange(initial, maximum, more);
    if fewer > 1 {
      ScaledMonotone(initial, fewer - 1, more - 1);
    }
  }

  /** The smaller of the cap and the initial delay doubled for each failure after the first. */
  function CappedDoubling(initial: int, maximum: int, failures: int): int {
    var uncapped := initial * Pow2(if failures <= 1 then 0 else failures - 1);
    if uncapped < maximum then uncapped else maximum
  }

  /** The delay equals the capped doubling with one exception: from the second failure on, a
      value one below the cap is rounded up to it. */
  lemma BackoffIsCappedDoubling(initial: int, maximum: int, failures: int)
    requires 0 < initial <= maximum
    ensures var capped := CappedDoubling(initial, maximum, failures);
            && (BackoffDelay(initial, maximum, failures) == capped <==> failures <= 1 || capped != maximum - 1)
            && (failures > 1 && capped == maximum - 1 ==> BackoffDelay(initial, maximum, failures) == maximum)
  {
    assert Pow2(0) == 1;
  }

  /** Sum of the positive members of a list of budgets. */
  function PositiveSum(values: seq<Duration>): (total: int)
    ensures total >= 0
  {
    if values == [] then 0
    else PositiveSum(values[..|values| - 1]) +
         (if values[|values| - 1] > 0 then values[|values| - 1] as int else 0)
  }

  lemma {:induction false} PositiveSumPrefix(values: seq<Duration>, n: nat)
    requires n <= |values|
    ensures PositiveSum(values[..n]) <= PositiveSum(values)
    decreases |values| - n
  {
    if n < |values| {
      assert values[..n + 1][..n] == values[..n];
      PositiveSumPrefix(values, n + 1);
    } else {
      assert values[..n] == values;
    }
  }

  /** The accumulating loop saturates instead of wrapping: the result is the exact sum of
      the positive budgets, or the largest duration when that sum does not fit. */
  method DurationSum(values: seq<Duration>) returns (total: Duration)
    ensures total as int == if PositiveSum(values) <= MAX_DURATION then PositiveSum(values) else MAX_DURATION
  {
    total := 0;
    for i := 0 to |values|
      invariant total >= 0
      invariant total as int == PositiveSum(values[..i])
    {
      assert values[..i + 1][..i] == values[..i];
      if values[i] <= 0 {
        continue;
      }
      if values[i] > 0x7fff_ffff_ffff_ffff - total {
        PositiveSumPrefix(values, i + 1);
        return 0x7fff_ffff_ffff_ffff;
      }
      total := total + values[i];
    }
    assert values[..|values|] == values;
  }

  lemma {:induction false} PositiveSumRemove(values: seq<Duration>, i: nat)
    requires i < |values|
    ensures PositiveSum(values) ==
            PositiveSum(values[..i] + values[i + 1..]) + (if values[i] > 0 then values[i] as int else 0)
    decreases |values|
  {
    var last := |values| - 1;
    if i == last {
      assert values[..i] + values[i + 1..] == values[..last];
    } else {
      var rest := values[..i] + values[i + 1..];
      var shorter := values[..last];
      PositiveSumRemove(shorter, i);
      assert rest[..|rest| - 1] == shorter[..i] + shorter[i + 1..];
    }
  }

  lemma RemovedMultiset<T>(s: seq<T>, i: nat)
    requires i < |s|
    ensures multiset(s[..i] + s[i + 1..]) == multiset(s) - multiset{s[i]}
  {
    assert s == s[..i] + [s[i]] + s[i + 1..];
  }

  /** The order of the budgets does not matter. */
  lemma {:induction false} PositiveSumAnyOrder(a: seq<Duration>, b: seq<Duration>)
    requires multiset(a) == multiset(b)
    ensures PositiveSum(a) == PositiveSum(b)
    decreases |a|
  {
    if a == [] {
      assert |b| == |multiset(b)| == 0;
    } else {
      var last := |a| - 1;
      assert a[last] in multiset(b);
      var i :| 0 <= i < |b| && b[i] == a[last];
      var rest := b[..i] + b[i + 1..];
      RemovedMultiset(b, i);
      RemovedMultiset(a, last);
      assert a[..last] + a[last + 1..] == a[..last];
      PositiveSumAnyOrder(a[..last], rest);
      PositiveSumRemove(b, i);
    }
  }
}
