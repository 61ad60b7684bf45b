/** The deterministic part of the retry delay. */
module Backoff {
  newtype int64 = x: int | -0x8000_0000_0000_0000 <= x < 0x8000_0000_0000_0000

  function Pow2(n: nat): nat {
    if n == 0 then 1 else 2 * Pow2(n - 1)
  }

  function Min(a: int, b: int): int { if a < b then a else b }

  /** The delay over the unbounded integers. */
  function Ideal(initial: int, max: int, attempt: nat): int {
    if initial <= 0 then max else Min(initial * Pow2(attempt), max)
  }

  function Doublings(attempt: int): nat { if attempt < 0 then 0 else attempt }

  lemma {:induction false} Pow2Grows(a: nat, b: nat)
    requires a <= b
    ensures 1 <= Pow2(a) <= Pow2(b)
    decreases b
  {
    if a < b {
      Pow2Grows(a, b - 1);
    } else if a > 0 {
      Pow2Grows(a - 1, b - 1);
    }
  }

  lemma Scale(x: int, a: int, b: int)
    requires 0 < x && a <= b
    ensures x * a <= x * b
  {
  }

  /** Doubling with the cap checked first computes the ideal delay, and since every product
      is an `int64`, nothing overflows on the way. */
  method CalculateBackoff(initial: int64, max: int64, attempt: int64) returns (d: int64)
    ensures d as int == Ideal(initial as int, max as int, Doublings(attempt as int))
  {
    if initial <= 0 {
      return max;
    }
    d := initial;
    var i: int64 := 0;
    ghost var n := Doublings(attempt as int);
    while i < attempt && d < max
      invariant 0 <= i as int <= n
      invariant d > 0 && d as int == initial as int * Pow2(i as int)
      decreases n - i as int
    {
      if d > max / 2 {
        Pow2Grows(i as int + 1, n);
        Scale(initial as int, Pow2(i as int + 1), Pow2(n));
        assert initial as int * Pow2(i as int + 1) == 2 * d as int;
        return max;
      }
      assert initial as int * Pow2(i as int + 1) == 2 * d as int;
      d := d * 2;
      i := i + 1;
    }
    Pow2Grows(i as int, n);
    Scale(initial as int, Pow2(i as int), Pow2(n));
    if d > max {
      return max;
    }
  }

  /** A later attempt never waits less, and the cap is never exceeded. */
  lemma BackoffMonotone(initial: int, max: int, a: nat, b: nat)
    requires a <= b
    ensures Ideal(initial, max, a) <= Ideal(initial, max, b) <= max
  {
    if initial > 0 {
      Pow2Grows(a, b);
      Scale(initial, Pow2(a), Pow2(b));
    }
  }

  /** Whatever the 64-bit delays, the cap is reached by the 63rd doubling. */
  lemma BackoffSaturates(initial: int64, max: int64, attempt: nat)
    requires attempt >= 63
    ensures Ideal(initial as int, max as int, attempt) == max as int
  {
    if initial > 0 {
      Pow2Of63();
      Pow2Grows(63, attempt);
      Scale(Pow2(attempt), 1, initial as int);
    }
  }

  /** One doubling fewer would not do. */
  lemma BackoffNeedsAllDoublings()
    ensures Ideal(1, 0x7fff_ffff_ffff_ffff, 62) < 0x7fff_ffff_ffff_ffff
  {
    Pow2Of63();
    assert Pow2(63) == 2 * Pow2(62);
  }

  lemma Pow2Sum(a: nat, b: nat)
    ensures Pow2(a + b) == Pow2(a) * Pow2(b)
    decreases b
  {
    if b > 0 {
      Pow2Sum(a, b - 1);
    }
  }

  lemma Pow2Of63()
    ensures Pow2(63) == 0x8000_0000_0000_0000
  {
    assert Pow2(7) == 128;
    Pow2Sum(7, 7);
    Pow2Sum(14, 14);
    Pow2Sum(28, 28);
    Pow2Sum(56, 7);
  }
}
