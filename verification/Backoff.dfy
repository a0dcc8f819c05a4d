/** Exponential backoff with full jitter, computed by a left shift that wraps at 64 bits. */
module Backoff {
  import opened Basics

  function Pow2(n: nat): (p: nat)
    ensures p > 0
  {
    if n == 0 then 1 else 2 * Pow2(n - 1)
  }

  /** Keeps the low 64 bits, read as two's complement. */
  function Wrap(n: int): int64 {
    var low := n % TWO_64;
    if low < TWO_63 then low else low - TWO_64
  }

  /** `base << attempt` on a signed 64-bit integer; shifting by 64 or more gives zero. */
  function Shift(base: int64, attempt: nat): int64 {
    Wrap(base * Pow2(attempt))
  }

  function Cap(attempt: nat, base: int64, max: int64): int64 {
    var exp := Shift(base, attempt);
    if exp <= 0 || exp > max then max else exp
  }

  /** Conversion to an integer duration discards the fraction. */
  function Truncate(x: real): int {
    if x >= 0.0 then x.Floor else -((-x).Floor)
  }

  /** `draw` is the jitter draw, in [0, 1). */
  function Delay(attempt: nat, base: int64, max: int64, draw: real): int {
    Truncate(draw * Cap(attempt, base, max) as real)
  }

  /** The documented cap, without wrap-around. */
  function Ideal(attempt: nat, base: int, max: int): int {
    var exp := base * Pow2(attempt);
    if exp < max then exp else max
  }

  lemma {:induction false} Pow2Add(a: nat, b: nat)
    ensures Pow2(a + b) == Pow2(a) * Pow2(b)
  {
    if a > 0 {
      Pow2Add(a - 1, b);
      Associate(2, Pow2(a - 1), Pow2(b));
    }
  }

  lemma Pow2Of64()
    ensures Pow2(64) == TWO_64
  {
    Pow2Of4();
    hide Pow2;
    Pow2Add(4, 4);
    Pow2Add(8, 8);
    Pow2Add(16, 16);
    Pow2Add(32, 32);
    assert Pow2(32) == Pow2(16) * Pow2(16) == 0x1_0000_0000;
  }

  lemma Pow2Of4()
    ensures Pow2(4) == 16
  {
    assert Pow2(2) == 4;
  }

  lemma WrapOffset(n: int) returns (k: int)
    ensures n == k * TWO_64 + Wrap(n)
    ensures 0 <= n < TWO_63 ==> Wrap(n) == n
  {
    k := n / TWO_64;
    if n % TWO_64 >= TWO_63 {
      k := k + 1;
    }
  }

  lemma SmallShift(base: int64, attempt: nat) returns (q: int)
    requires attempt < 64
    ensures Shift(base, attempt) == Pow2(attempt) * q
  {
    hide Pow2;
    Pow2Of64();
    Pow2Add(attempt, 64 - attempt);
    var k := WrapOffset(base * Pow2(attempt));
    hide *;
    ShiftIsWrap(base, attempt);
    Factor(Pow2(attempt), base, k, Pow2(64 - attempt));
    q := base - k * Pow2(64 - attempt);
  }

  lemma LargeShift(base: int64, attempt: nat)
    requires attempt >= 64
    ensures Shift(base, attempt) == 0
  {
    hide Pow2;
    Pow2Of64();
    Pow2Add(64, attempt - 64);
    hide *;
    var m := base * Pow2(attempt - 64);
    Associate(base, TWO_64, Pow2(attempt - 64));
    ShiftIsWrap(base, attempt);
    WrapOfMultiple(m);
  }

  lemma ShiftIsWrap(base: int64, attempt: nat)
    ensures Shift(base, attempt) == Wrap(base * Pow2(attempt))
  {
    hide Wrap, Pow2;
  }

  lemma WrapOfMultiple(m: int)
    ensures Wrap(TWO_64 * m) == 0
  {
  }

  /** Below 64 shifts a wrapped positive result is still a multiple of the power of two;
      from 64 on nothing is left. */
  lemma ShiftIsMultiple(base: int64, attempt: nat)
    ensures attempt < 64 ==> exists q :: Shift(base, attempt) == Pow2(attempt) * q
    ensures attempt >= 64 ==> Shift(base, attempt) == 0
  {
    hide *;
    if attempt < 64 {
      var q := SmallShift(base, attempt);
    } else {
      LargeShift(base, attempt);
    }
  }

  lemma Factor(p: int, a: int, k: int, r: int)
    ensures a * p - k * (p * r) == p * (a - k * r)
  {
  }

  lemma Associate(a: int, b: int, c: int)
    ensures a * (b * c) == b * (a * c) == (a * b) * c
  {
  }

  lemma PositiveMultiple(s: int, p: nat, q: int)
    requires s == p * q && s > 0 && p > 0
    ensures s >= p
  {
    if q <= 0 {
      ScaleUp(p, q, 0);
    } else {
      ScaleUp(p, 1, q);
    }
  }

  lemma ScaleUp(a: int, x: int, y: int)
    requires a >= 0 && x <= y
    ensures a * x <= a * y
  {
  }

  /** When the true value does not fit, the wrapped one is useless as an exponential: it is
      not positive, or it exceeds every cap with `base * max` below 2^63. */
  lemma OverflowIsCapped(attempt: nat, base: int64, max: int64)
    requires base > 0 && max > 0 && base * max < TWO_63
    requires base * Pow2(attempt) >= TWO_63
    ensures Shift(base, attempt) <= 0 || Shift(base, attempt) > max
  {
    ShiftIsMultiple(base, attempt);
    var s := Shift(base, attempt);
    if s > 0 {
      var q :| s == Pow2(attempt) * q;
      PositiveMultiple(s, Pow2(attempt), q);
      if Pow2(attempt) <= max {
        ScaleUp(base, Pow2(attempt), max);
      }
    }
  }

  /** The code computes min(max, base * 2^attempt), for every attempt. */
  lemma CapIsIdeal(attempt: nat, base: int64, max: int64)
    requires base > 0 && max > 0 && base * max < TWO_63
    ensures Cap(attempt, base, max) == Ideal(attempt, base, max)
  {
    var n := base * Pow2(attempt);
    assert n > 0;
    var k := WrapOffset(n);
    if n >= TWO_63 {
      OverflowIsCapped(attempt, base, max);
    }
  }

  /** Without that bound, one call is right exactly when the shift did not overflow or what
      the overflow left is caught by the two guards (or equals the cap). */
  lemma CapIsIdealIff(attempt: nat, base: int64, max: int64)
    requires base > 0 && max > 0
    ensures Cap(attempt, base, max) == Ideal(attempt, base, max) <==>
      base * Pow2(attempt) < TWO_63 || Shift(base, attempt) <= 0 || Shift(base, attempt) >= max
  {
    var n := base * Pow2(attempt);
    assert n > 0;
    var k := WrapOffset(n);
  }

  /** What the overflow left, if anything overflowed, is caught or equals the cap. */
  predicate Caught(attempt: nat, base: int64, max: int64) {
    base * Pow2(attempt) < TWO_63 || Shift(base, attempt) <= 0 || Shift(base, attempt) >= max
  }

  /** For all attempts at once it is enough to look at the first 64. */
  lemma CapAlwaysIdealIff(base: int64, max: int64)
    requires base > 0 && max > 0
    ensures (forall attempt: nat :: Cap(attempt, base, max) == Ideal(attempt, base, max)) <==>
              forall attempt: nat | attempt < 64 :: Caught(attempt, base, max)
  {
    hide Cap, Ideal, Shift, Pow2;
    forall attempt: nat
      ensures Cap(attempt, base, max) == Ideal(attempt, base, max) <==> Caught(attempt, base, max)
    {
      CapIsIdealIff(attempt, base, max);
    }
    forall attempt: nat | attempt >= 64
      ensures Caught(attempt, base, max)
    {
      LargeShift(base, attempt);
    }
    hide Caught;
  }

  /** A base just above 2^62 shifted twice wraps to four nanoseconds. */
  lemma CapCanWrap(max: int64)
    requires max > 4
    ensures Cap(2, 0x4000_0000_0000_0001, max) == 4 != Ideal(2, 0x4000_0000_0000_0001, max)
  {
    assert Pow2(2) == 4;
  }

  /** The cap never goes down from one attempt to the next. */
  lemma CapNonDecreasing(a: nat, b: nat, base: int64, max: int64)
    requires base > 0 && max > 0 && base * max < TWO_63 && a <= b
    ensures Cap(a, base, max) <= Cap(b, base, max)
  {
    CapIsIdeal(a, base, max);
    CapIsIdeal(b, base, max);
    Pow2Add(a, b - a);
    ScaleUp(Pow2(a), 1, Pow2(b - a));
    ScaleUp(base, Pow2(a), Pow2(b));
    hide Cap, Pow2;
  }

  /** Every delay is the draw's share of the cap of its attempt, less than a nanosecond rounded
      down. So it lies below that cap, hence below `max`, and never below zero, whatever wrapped. */
  lemma DelayBounds(attempt: nat, base: int64, max: int64, draw: real)
    requires max > 0 && 0.0 <= draw < 1.0
    ensures 0 <= Delay(attempt, base, max, draw) < Cap(attempt, base, max) <= max
    ensures var share := draw * Cap(attempt, base, max) as real;
            Delay(attempt, base, max, draw) as real <= share < (Delay(attempt, base, max, draw) + 1) as real
  {
    hide Shift;
    TruncateBelow(draw, Cap(attempt, base, max));
  }

  lemma TruncateBelow(draw: real, cap: int)
    requires 0.0 <= draw < 1.0 && cap > 0
    ensures 0 <= Truncate(draw * cap as real) < cap
    ensures var x := draw * cap as real; Truncate(x) as real <= x < (Truncate(x) + 1) as real
  {
    var c := cap as real;
    Shrink(draw, c);
    var x := draw * c;
    assert x.Floor as real <= x < c;
  }

  lemma Shrink(draw: real, c: real)
    requires 0.0 <= draw < 1.0 && c > 0.0
    ensures 0.0 <= draw * c < c
  {
    assert c - draw * c == (1.0 - draw) * c;
  }
}
