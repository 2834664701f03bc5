/** internal/retry/retry.go: the waits between attempts, in nanoseconds of a
    signed 64-bit time.Duration. */
module Backoffs {
  import opened Records

  const TWO_62: int := 0x4000_0000_0000_0000
  const TWO_63: int := 0x8000_0000_0000_0000
  const TWO_64: int := 0x1_0000_0000_0000_0000

  /** What is left of an integer in a signed 64-bit variable. */
  function Wrap64(x: int): (w: int)
    ensures -TWO_63 <= w < TWO_63
    ensures -TWO_63 <= x < TWO_63 ==> w == x
  {
    (x + TWO_63) % TWO_64 - TWO_63
  }

  function NextBackoff(current: int, max: int): int {
    var next := Wrap64(current * 2);
    if next > max then max else next
  }

  /** Doubling up to max is what NextBackoff does for every wait short of 2^62 ns,
      about 146 years; from there on the doubling overflows. */
  lemma NextBackoffExactWhen(current: int, max: int)
    requires 0 <= current < TWO_63 && 0 <= max < TWO_63
    ensures NextBackoff(current, max) == Min(current * 2, max) <==> current < TWO_62
    ensures current >= TWO_62 ==> NextBackoff(current, max) < 0
  {
    if current >= TWO_62 {
      assert (current * 2 + TWO_63) == (current * 2 + TWO_63 - TWO_64) + TWO_64;
      assert Wrap64(current * 2) == current * 2 - TWO_64;
    }
  }

  function Pow2(n: nat): (p: int)
    ensures p >= 1
  {
    if n == 0 then 1 else 2 * Pow2(n - 1)
  }

  /** The n-th wait of a ladder from initial: doubled n times, capped at max. */
  function Rung(initial: int, max: int, n: nat): int {
    if n == 0 then initial else Min(initial * Pow2(n), max)
  }

  /** The wait n calls of NextBackoff arrive at. */
  function Climb(initial: int, max: int, n: nat): int {
    if n == 0 then initial else NextBackoff(Climb(initial, max, n - 1), max)
  }

  lemma {:induction false} ClimbIsRung(initial: int, max: int, n: nat)
    requires 0 <= initial && 0 <= max < TWO_63
    requires initial == 0 || (initial < TWO_62 && max < TWO_62)
    ensures Climb(initial, max, n) == Rung(initial, max, n)
    decreases n
  {
    if n > 0 {
      ClimbIsRung(initial, max, n - 1);
      RungDoubles(initial, max, n - 1);
      NextBackoffExactWhen(Climb(initial, max, n - 1), max);
    }
  }

  lemma RungDoubles(initial: int, max: int, n: nat)
    requires 0 <= initial && 0 <= max
    requires initial == 0 || (initial < TWO_62 && max < TWO_62)
    ensures 0 <= Rung(initial, max, n) < TWO_62
    ensures Min(Rung(initial, max, n) * 2, max) == Rung(initial, max, n + 1)
  {
    PowerDoubles(initial, n);
    assert n == 0 ==> Pow2(n) == 1 && initial * Pow2(n) == initial;
  }

  lemma PowerDoubles(initial: int, n: nat)
    requires 0 <= initial
    ensures initial * Pow2(n + 1) == 2 * (initial * Pow2(n))
    ensures initial * Pow2(n) >= 0 && (initial == 0 ==> initial * Pow2(n) == 0)
  {
  }

  lemma Pow2At62()
    ensures Pow2(62) == TWO_62
  {
    assert Pow2(8) == 0x100;
    assert Pow2(16) == 0x1_0000;
    assert Pow2(24) == 0x100_0000;
    assert Pow2(32) == 0x1_0000_0000;
    assert Pow2(40) == 0x100_0000_0000;
    assert Pow2(48) == 0x1_0000_0000_0000;
    assert Pow2(56) == 0x100_0000_0000_0000;
  }

  /** The configurations for which the ladder is min(initial * 2^n, max) at every
      rung, exactly. */
  lemma LadderExactWhen(initial: int, max: int)
    requires 0 <= initial < TWO_63 && 0 <= max < TWO_63
    ensures (forall n: nat :: Climb(initial, max, n) == Rung(initial, max, n))
       <==> initial == 0 || (initial < TWO_62 && max < TWO_62)
  {
    if initial == 0 || (initial < TWO_62 && max < TWO_62) {
      forall n: nat ensures Climb(initial, max, n) == Rung(initial, max, n) {
        ClimbIsRung(initial, max, n);
      }
    } else {
      var n := LadderBreaks(initial, max);
    }
  }

  lemma LadderBreaks(initial: int, max: int) returns (n: nat)
    requires 0 < initial < TWO_63 && 0 <= max < TWO_63
    requires initial >= TWO_62 || max >= TWO_62
    ensures Climb(initial, max, n) != Rung(initial, max, n)
  {
    if initial >= TWO_62 {
      NextBackoffExactWhen(initial, max);
      assert Climb(initial, max, 1) == NextBackoff(Climb(initial, max, 0), max);
      assert Rung(initial, max, 1) >= 0 by {
        assert initial * Pow2(1) >= 0;
      }
      n := 1;
    } else {
      Pow2At62();
      assert initial * Pow2(62) >= TWO_62;
      if Climb(initial, max, 62) != Rung(initial, max, 62) {
        n := 62;
      } else {
        NextBackoffExactWhen(Climb(initial, max, 62), max);
        assert Climb(initial, max, 63) == NextBackoff(Climb(initial, max, 62), max);
        assert initial * Pow2(63) >= 0;
        n := 63;
      }
    }
  }

  /** draw is the random number in [0, d/2). */
  function Jitter(d: int, draw: nat): int
    requires d / 2 > 0 ==> draw < d / 2
  {
    var half := d / 2;
    if half <= 0 then d else half + draw
  }

  /** draw is the random number in [0, span). */
  function Spread(d: int, frac: real, draw: nat): int
    requires SpreadSpan(d, frac) > 0 ==> draw < SpreadSpan(d, frac)
  {
    if d <= 0 || frac <= 0.0 || SpreadSpan(d, frac) <= 0 then d else d - draw
  }

  /** Fractions above 1 count as 1. */
  function Capped(frac: real): real {
    if frac > 1.0 then 1.0 else frac
  }

  function SpreadSpan(d: int, frac: real): int {
    (d as real * Capped(frac)).Floor
  }

  /** A jittered wait stays in the upper half of the interval. */
  lemma JitterInUpperHalf(d: int, draw: nat)
    requires d / 2 > 0 ==> draw < d / 2
    ensures d >= 2 ==> d / 2 <= Jitter(d, draw) < d
    ensures d < 2 ==> Jitter(d, draw) == d
  {
  }

  /** And every whole wait from half of it up to twice that half is some draw's, of one
      draw only. */
  lemma JitterReachesAll(d: int, wait: int, other: nat)
    requires d >= 2 && d / 2 <= wait < 2 * (d / 2) && other < d / 2
    ensures exists draw: nat :: draw < d / 2 && Jitter(d, draw) == wait && (other != draw ==> Jitter(d, other) != wait)
  {
    var draw: nat := wait - d / 2;
    assert Jitter(d, draw) == wait;
  }

  /** A spread lifetime never grows, and gives up less than its fraction; for any
      other duration or fraction it stays as it is. */
  lemma SpreadWithinFraction(d: int, frac: real, draw: nat)
    requires SpreadSpan(d, frac) > 0 ==> draw < SpreadSpan(d, frac)
    ensures d > 0 && frac > 0.0 ==>
              (1.0 - Capped(frac)) * d as real < Spread(d, frac, draw) as real <= d as real
    ensures d <= 0 || frac <= 0.0 ==> Spread(d, frac, draw) == d
  {
    if d > 0 && frac > 0.0 {
      var part := d as real * Capped(frac);
      assert (1.0 - Capped(frac)) * d as real == d as real - part;
      assert part > 0.0;
      if SpreadSpan(d, frac) > 0 {
        assert draw as real < part;
      }
    }
  }

  /** And every whole duration in its span is some draw's, of one draw only. */
  lemma SpreadReachesAll(d: int, frac: real, wait: int, other: nat)
    requires d > 0 && frac > 0.0 && SpreadSpan(d, frac) > 0
    requires d - SpreadSpan(d, frac) < wait <= d && other < SpreadSpan(d, frac)
    ensures exists draw: nat :: draw < SpreadSpan(d, frac) && Spread(d, frac, draw) == wait
                             && (other != draw ==> Spread(d, frac, other) != wait)
  {
    var draw: nat := d - wait;
    assert Spread(d, frac, draw) == wait;
  }
}
