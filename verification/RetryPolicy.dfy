/** Exponential backoff and the shrinking attempt window, in 64-bit duration arithmetic. */
module RetryPolicy {
  const TWO62 := 0x4000_0000_0000_0000
  const TWO63 := 0x8000_0000_0000_0000
  const TWO64 := 0x1_0000_0000_0000_0000
  const SECOND := 1_000_000_000

  /** Two's-complement wrap-around of a time.Duration. */
  function Wrap(x: int): int {
    (x + TWO63) % TWO64 - TWO63
  }

  function Pow2(n: nat): (r: nat)
    ensures r >= 1
  {
    if n == 0 then 1 else 2 * Pow2(n - 1)
  }

  /** How often the base is doubled: attempts below 1 count as 1. */
  function Doublings(attempt: int): nat {
    if attempt < 1 then 0 else attempt - 1
  }

  /** What the delay is meant to be, in unbounded arithmetic. */
  function IdealDelay(attempt: int, base: int, cap: int): int {
    var d := base * Pow2(Doublings(attempt));
    if d >= cap then cap else d
  }

  /** The doubling loop with n iterations to go: each product wraps, then meets the cap. */
  function Double(n: nat, d: int, cap: int): int {
    if n == 0 then if d >= cap then cap else d
    else
      var next := Wrap(d * 2);
      if next >= cap then cap else Double(n - 1, next, cap)
  }

  function Delay(attempt: int, base: int, cap: int): int {
    Double(Doublings(attempt), base, cap)
  }

  method RetryDelay(attempt: int, base: int, cap: int) returns (r: int)
    ensures r == Delay(attempt, base, cap)
  {
    var n := attempt;
    if n < 1 { n := 1; }
    var d := base;
    var i := 1;
    while i < n
      invariant 1 <= i <= n
      invariant Delay(attempt, base, cap) == Double(n - i, d, cap)
    {
      d := Wrap(d * 2);
      if d >= cap { return cap; }
      i := i + 1;
    }
    if d >= cap { return cap; }
    return d;
  }

  /** Neither the base nor any of its doublings still under the cap leaves the 64-bit range when doubled. */
  ghost predicate DoublingFits(base: int, cap: int) {
    base < TWO62 && forall k: nat :: base * Pow2(k) < cap ==> base * Pow2(k) < TWO62
  }

  lemma {:induction false} GrowsWithExponent(base: int, j: nat, k: nat)
    requires 0 < base && j <= k
    ensures base * Pow2(j) <= base * Pow2(k)
  {
    if j < k {
      GrowsWithExponent(base, j, k - 1);
      assert base * Pow2(k) == 2 * (base * Pow2(k - 1));
    }
  }

  /** n doublings after the first j, all of which stayed under the cap. */
  lemma {:induction false} DoubleIsIdeal(n: nat, base: int, j: nat, cap: int)
    requires 0 < base && 0 < cap < TWO63 && DoublingFits(base, cap)
    requires j == 0 || base * Pow2(j) < cap
    ensures Double(n, base * Pow2(j), cap) == if base * Pow2(j + n) >= cap then cap else base * Pow2(j + n)
  {
    hide DoublingFits, Wrap;
    if n > 0 {
      DoublesInRange(base, j, cap);
      if base * Pow2(j + 1) >= cap {
        GrowsWithExponent(base, j + 1, j + n);
      } else {
        DoubleIsIdeal(n - 1, base, j + 1, cap);
      }
    }
  }

  /** One doubling that fits is exact. */
  lemma DoublesInRange(base: int, j: nat, cap: int)
    requires 0 < base && DoublingFits(base, cap) && (j == 0 || base * Pow2(j) < cap)
    ensures Wrap(base * Pow2(j) * 2) == base * Pow2(j + 1)
  {
    assert base * Pow2(0) == base;
    NextPower(base, j);
    GrowsWithExponent(base, 0, j);
  }

  /** Doubling is exact up to 2^62, and negative from there to 2^63. */
  lemma Wraps(d: int)
    requires 0 < d < TWO63
    ensures if d < TWO62 then Wrap(d * 2) == d * 2 else Wrap(d * 2) < 0
  {
  }

  lemma NextPower(base: int, j: nat)
    ensures base * Pow2(j) * 2 == base * Pow2(j + 1)
  {
  }

  /** The first doubling past 2^62 of a delay still in play comes out negative. */
  lemma {:induction false} DoubleWraps(n: nat, base: int, j: nat, cap: int)
    requires 0 < base < TWO63 && 0 < cap < TWO63
    requires j == 0 || base * Pow2(j) < TWO62
    requires base * Pow2(j + n) >= TWO62 && (n == 0 || base * Pow2(j + n) < cap)
    requires n == 0 ==> j == 0 || base * Pow2(j) < cap
    ensures exists m: nat :: Double(m, base * Pow2(j), cap) < 0
  {
    hide Wrap;
    assert base * Pow2(0) == base;
    var d := base * Pow2(j);
    NextPower(base, j);
    Wraps(d);
    if d >= TWO62 {
      assert Double(1, d, cap) == Wrap(d * 2) < 0;
    } else {
      GrowsWithExponent(base, j + 1, j + n);
      if d * 2 >= TWO62 {
        Wraps(d * 2);
        assert Double(2, d, cap) == Double(1, d * 2, cap) == Wrap(d * 2 * 2) < 0;
      } else {
        DoubleWraps(n - 1, base, j + 1, cap);
        var m: nat :| Double(m, base * Pow2(j + 1), cap) < 0;
        assert Double(m + 1, d, cap) < 0;
      }
    }
  }

  /**
   * For a positive 64-bit base and cap, the loop returns min(cap, base * 2^(attempt-1)) for every
   * attempt exactly when no doubling it performs can overflow.
   */
  lemma DelayIsIdealIff(base: int, cap: int)
    requires 0 < base < TWO63 && 0 < cap < TWO63
    ensures (forall attempt :: Delay(attempt, base, cap) == IdealDelay(attempt, base, cap)) <==> DoublingFits(base, cap)
  {
    assert base * Pow2(0) == base;
    if DoublingFits(base, cap) {
      forall attempt ensures Delay(attempt, base, cap) == IdealDelay(attempt, base, cap) {
        DoubleIsIdeal(Doublings(attempt), base, 0, cap);
      }
    } else {
      var k: nat := 0;
      if base < TWO62 {
        k :| base * Pow2(k) < cap && base * Pow2(k) >= TWO62;
      }
      DoubleWraps(k, base, 0, cap);
      var m: nat :| Double(m, base * Pow2(0), cap) < 0;
      GrowsWithExponent(base, 0, m);
      assert Delay(m + 1, base, cap) < 0 < IdealDelay(m + 1, base, cap);
    }
  }

  /** A base at half the range already fails: its second delay comes out negative. */
  lemma DelayCanWrap()
    ensures Delay(2, TWO62, TWO62) == -TWO63 && IdealDelay(2, TWO62, TWO62) == TWO62
  {
    assert Wrap(TWO62 * 2) == -TWO63;
    assert Pow2(1) == 2;
  }

  /** A base and cap below 2^62 never overflow, and then waiting longer never shortens the next wait. */
  lemma DelayMonotone(base: int, cap: int, a: int, b: int)
    requires 0 < base <= cap < TWO62 && a <= b
    ensures Delay(a, base, cap) == IdealDelay(a, base, cap)
    ensures base <= Delay(a, base, cap) <= Delay(b, base, cap) <= cap
  {
    DelayIsIdealIff(base, cap);
    assert DoublingFits(base, cap);
    assert base * Pow2(0) == base;
    GrowsWithExponent(base, 0, Doublings(a));
    GrowsWithExponent(base, Doublings(a), Doublings(b));
  }

  // ---------------------------------------------------------------- attempt window

  /** Go's integer division truncates toward zero. */
  function Quot(a: int, b: int): int
    requires b > 0
  {
    if a >= 0 then a / b else -(-a / b)
  }

  function Clamp(attempt: int, max: int): (a: int)
    requires max >= 1
    ensures 1 <= a <= max
  {
    if attempt < 1 then 1 else if attempt > max then max else attempt
  }

  function Window(full: int, attempt: int, maxAttempts: int): int {
    var max := if maxAttempts < 1 then 1 else maxAttempts;
    if max == 1 then full
    else
      var w := Quot(Wrap(full * (max - Clamp(attempt, max) + 1)), max);
      if w < SECOND then SECOND else w
  }

  method AttemptWindow(full: int, attempt: int, maxAttempts: int) returns (window: int)
    ensures window == Window(full, attempt, maxAttempts)
  {
    var n, max := attempt, maxAttempts;
    if max < 1 { max := 1; }
    if n < 1 { n := 1; }
    if n > max { n := max; }
    if max == 1 { return full; }
    window := Quot(Wrap(full * (max - n + 1)), max);
    if window < SECOND { return SECOND; }
  }

  lemma MulMonotone(a: int, b: int, c: int)
    requires a <= b && 0 <= c
    ensures c * a <= c * b
  {
  }

  /** q is the quotient when n lies between q and q + 1 multiples of d. */
  lemma QuotientIs(n: int, d: int, q: int)
    requires 0 <= n && 0 < d && d * q <= n < d * q + d
    ensures n / d == q
  {
    var p := n / d;
    assert d * p <= n < d * p + d;
    if p < q { MulMonotone(p + 1, q, d); }
    if q < p { MulMonotone(q + 1, p, d); }
  }

  lemma QuotMonotone(a: int, b: int, d: int)
    requires 0 <= a <= b && d > 0
    ensures a / d <= b / d
  {
    var p, q := a / d, b / d;
    assert d * p <= a && b < d * q + d;
    if q < p { MulMonotone(q + 1, p, d); }
  }

  /**
   * When full * max stays in 64 bits the window never grows with the attempt, starts at the full
   * budget, and never falls under one second (a budget under a second is raised to one).
   */
  lemma WindowShrinks(full: int, maxAttempts: int, a: int, b: int)
    requires full > 0 && maxAttempts > 1 && full * maxAttempts < TWO63 && a <= b
    ensures 1_000_000_000 <= Window(full, b, maxAttempts) <= Window(full, a, maxAttempts)
    ensures Window(full, 1, maxAttempts) == if full < 1_000_000_000 then 1_000_000_000 else full
  {
    hide Window;
    var m := maxAttempts;
    var i, j := m - Clamp(a, m) + 1, m - Clamp(b, m) + 1;
    WindowIs(full, m, a);
    WindowIs(full, m, b);
    WindowIs(full, m, 1);
    MulMonotone(0, j, full);
    MulMonotone(j, i, full);
    QuotMonotone(full * j, full * i, m);
    QuotientIs(full * m, m, full);
  }

  /** Without overflow the window is the remaining attempts' share of the budget, at least a second. */
  lemma WindowIs(full: int, max: int, attempt: int)
    requires full > 0 && max > 1 && full * max < TWO63
    ensures var w := full * (max - Clamp(attempt, max) + 1) / max;
            Window(full, attempt, max) == if w < SECOND then SECOND else w
  {
    var i := max - Clamp(attempt, max) + 1;
    MulMonotone(0, i, full);
    MulMonotone(i, max, full);
  }
}
