/**
 * The IEEE 754 binary64 rounding that Python applies when it multiplies an
 * int by a float literal, written out on integers. A double is represented
 * by an integer numerator M over a fixed power of two; rounding keeps the 53
 * leading binary digits of M, ties going to the even neighbour.
 */
module Floats {
  function Pow2(e: nat): (r: nat)
    ensures r >= 1
  {
    if e == 0 then 1 else 2 * Pow2(e - 1)
  }

  lemma {:induction false} Pow2Monotone(a: nat, b: nat)
    requires a <= b
    ensures Pow2(a) <= Pow2(b)
  {
    if a < b {
      Pow2Monotone(a, b - 1);
    }
  }

  lemma {:induction false} Pow2Add(a: nat, b: nat)
    ensures Pow2(a + b) == Pow2(a) * Pow2(b)
  {
    if b > 0 {
      Pow2Add(a, b - 1);
      assert Pow2(a + b) == 2 * Pow2(a + b - 1);
    }
  }

  /** The number of binary digits of n (0 for 0). */
  function BitLength(n: nat): (b: nat)
    ensures n == 0 <==> b == 0
    ensures b > 0 ==> Pow2(b - 1) <= n < Pow2(b)
  {
    if n == 0 then 0 else 1 + BitLength(n / 2)
  }

  /** A binary digit count is determined by the power-of-two interval. */
  lemma BitLengthIs(n: nat, b: nat)
    requires b > 0 && Pow2(b - 1) <= n < Pow2(b)
    ensures BitLength(n) == b
  {
    var c := BitLength(n);
    if c < b {
      Pow2Monotone(c, b - 1);
    } else if c > b {
      Pow2Monotone(b, c - 1);
    }
  }

  /** The powers of two the rounding of n * 0.7 needs, for counts of files. */
  lemma Pow2Facts()
    ensures Pow2(7) == 128
    ensures Pow2(52) == 4503599627370496
    ensures Pow2(57) == 144115188075855872
    ensures Pow2(58) == 288230376151711744
  {
    assert Pow2(7) == 128;
    Pow2Add(7, 7);
    Pow2Add(14, 12);
    Pow2Add(26, 26);
    Pow2Add(52, 5);
    Pow2Add(52, 6);
    assert Pow2(5) == 32 && Pow2(6) == 64;
  }

  /** Significand width of binary64. */
  const Precision: nat := 53

  /** The scale of the rounding step for a numerator of |n| binary digits. */
  function Ulp(n: nat): (u: nat)
    ensures u >= 1
  {
    var b := BitLength(n);
    if b <= Precision then 1 else Pow2(b - Precision)
  }

  /** The multiple of u nearest to n, ties going to the even multiple. */
  function RoundToMultiple(n: nat, u: nat): (r: nat)
    requires u >= 1
    ensures 2 * (if r < n then n - r else r - n) <= u
  {
    var q := n / u;
    var rem := n % u;
    assert n == q * u + rem;
    if 2 * rem > u || (2 * rem == u && q % 2 == 1) then
      assert (q + 1) * u == q * u + u;
      (q + 1) * u
    else
      q * u
  }

  /**
   * The numerator with at most 53 significant bits nearest to n, ties to
   * the even neighbour: round-to-nearest-even of binary64 arithmetic
   * (overflow and subnormal results are not modelled).
   */
  function RoundToDouble(n: nat): (r: nat)
    ensures BitLength(n) <= Precision ==> r == n
    ensures 2 * (if r < n then n - r else r - n) <= Ulp(n)
  {
    if BitLength(n) <= Precision then n else RoundToMultiple(n, Ulp(n))
  }

  /**
   * The double nearest to 0.7 is SevenTenths / 2^52, a little less than 0.7.
   */
  const SevenTenths: nat := 3152519739159347
  const SevenTenthsScale: nat := 52

  lemma SevenTenthsBelow()
    ensures 10 * SevenTenths < 7 * Pow2(SevenTenthsScale) < 10 * SevenTenths + 10
  {
    Pow2Facts();
  }

  /**
   * k > n * 0.7 evaluated as Python does: n becomes a double, the product is
   * rounded to a double, and the comparison of an int with a double is exact.
   */
  predicate ExceedsSevenTenths(k: int, n: nat)
  {
    k * Pow2(SevenTenthsScale) > RoundToDouble(RoundToDouble(n) * SevenTenths)
  }

  /** Rounding moves a numerator by at most half of 2^-52 of its size. */
  lemma RoundingError(n: nat)
    ensures 2 * Pow2(52) * (if RoundToDouble(n) < n then n - RoundToDouble(n) else RoundToDouble(n) - n) <= n
  {
    Pow2Facts();
    var b := BitLength(n);
    var r := RoundToDouble(n);
    var e := if r < n then n - r else r - n;
    if b > Precision {
      var u := Ulp(n);
      Pow2Add(b - Precision, 52);
      assert u * 4503599627370496 == Pow2(b - 1) <= n;
      assert 2 * e <= u;
    }
  }

  lemma MultipleOfTen(n: int, m: int)
    requires n == 10 * m
    ensures n % 10 == 0
  {
  }

  /**
   * Away from multiples of 10 the rounded comparison k > n * 0.7 agrees with
   * the exact one: 7n / 10 is then at least 1/10 from every integer, much
   * more than the rounding error.
   */
  lemma {:induction false} SevenTenthsExactOffTens(k: int, n: nat)
    requires n < 100000000000000 && n % 10 != 0
    ensures ExceedsSevenTenths(k, n) <==> 10 * k > 7 * n
  {
    Pow2Facts();
    if BitLength(n) > Precision {
      Pow2Monotone(52, BitLength(n) - 1);
      assert false;
    }
    assert RoundToDouble(n) == n;
    var p := n * SevenTenths;
    RoundingError(p);
    var r := RoundToDouble(p);
    var e := if r < p then p - r else r - p;
    assert 9007199254740992 * e <= p;
    assert 10 * p == 7 * n * 4503599627370496 - 2 * n;
    assert 2 * e <= n;
    if 10 * k == 7 * n {
      MultipleOfTen(n, 3 * k - 2 * n);
      assert false;
    }
    assert k * Pow2(52) == k * 4503599627370496;
    if 10 * k > 7 * n {
      assert 10 * k >= 7 * n + 1;
      assert 10 * r <= 10 * p + 10 * e;
      assert 10 * r < 10 * k * 4503599627370496;
    } else {
      assert 10 * k <= 7 * n - 1;
      assert 10 * r >= 10 * p - 10 * e;
      assert 10 * r > 10 * k * 4503599627370496;
    }
  }
  /**
   * The double nearest to 0.3 is ThreeTenths / 2^54, a little less than 0.3.
   */
  const ThreeTenths: nat := 5404319552844595
  const ThreeTenthsScale: nat := 54

  /**
   * k < m * 0.3 evaluated as Python does for a non-negative int m: m becomes
   * a double, the product is rounded to a double, the comparison is exact.
   */
  predicate BelowThreeTenths(k: int, m: nat)
  {
    k * Pow2(ThreeTenthsScale) < RoundToDouble(RoundToDouble(m) * ThreeTenths)
  }

  lemma MulMonotone(a: nat, b: nat, u: nat)
    requires a <= b
    ensures a * u <= b * u
  {
  }

  /** Rounding to a multiple of u never passes a multiple of u that lies above n. */
  lemma RoundToMultipleAtMost(n: nat, u: nat, c: nat)
    requires u >= 1 && n < c * u
    ensures RoundToMultiple(n, u) <= c * u
  {
    var q := n / u;
    assert q * u <= n;
    if q >= c {
      MulMonotone(c, q, u);
      assert false;
    }
    MulMonotone(q + 1, c, u);
    assert (q + 1) * u == q * u + u;
  }

  lemma BitLengthAtMost(n: nat, e: nat)
    requires n < Pow2(e)
    ensures BitLength(n) <= e
  {
  }

  /** The rounding step of a numerator of at most s + 53 binary digits divides 2^s. */
  lemma UlpDividesPow2(p: nat, s: nat)
    requires Precision < BitLength(p) <= s + Precision
    ensures Pow2(s) == Ulp(p) * Pow2(s + Precision - BitLength(p))
  {
    var b := BitLength(p);
    Pow2Add(b - Precision, s + Precision - b);
  }

  lemma MulRegroup(k: nat, v: nat, u: nat, w: nat)
    requires w == u * v
    ensures (k * v) * u == k * w
  {
  }

  /** A numerator is never rounded past a multiple of its rounding step above it. */
  lemma RoundToDoubleAtMost(p: nat, c: nat)
    requires p < c * Ulp(p)
    ensures RoundToDouble(p) <= c * Ulp(p)
  {
    if BitLength(p) > Precision {
      RoundToMultipleAtMost(p, Ulp(p), c);
    }
  }

  /** A numerator of at most s + 53 digits below a multiple of 2^s does not round past it. */
  lemma RoundBelowPow2Multiple(p: nat, k: nat, s: nat)
    requires Precision < BitLength(p) <= s + Precision && p < k * Pow2(s)
    ensures RoundToDouble(p) <= k * Pow2(s)
  {
    UlpDividesPow2(p, s);
    var u := Ulp(p);
    var v := Pow2(s + Precision - BitLength(p));
    MulRegroup(k, v, u, Pow2(s));
    RoundToDoubleAtMost(p, k * v);
  }

  /** On a multiple of 10 the rounded product m * 0.3 does not pass 3m / 10. */
  lemma {:induction false} ThreeTenthsOnTens(k: nat, m: nat)
    requires m < 1125899906842624 && 10 * k == 3 * m
    ensures RoundToDouble(m * ThreeTenths) <= k * Pow2(ThreeTenthsScale)
  {
    var p := m * ThreeTenths;
    var x := k * Pow2(54);
    Pow2Facts();
    Pow2Add(52, 2);
    assert Pow2(2) == 4;
    assert x == k * 18014398509481984;
    assert 10 * p == 10 * x - 2 * m;
    if BitLength(p) > Precision {
      assert p < x;
      Pow2Add(52, 52);
      BitLengthAtMost(p, 104);
      RoundBelowPow2Multiple(p, k, ThreeTenthsScale);
    }
  }

  /** Off multiples of 10 the rounding error of m * 0.3 is too small to matter. */
  lemma {:induction false} ThreeTenthsOffTens(k: int, m: nat)
    requires m < 1125899906842624 && 10 * k != 3 * m
    ensures k * Pow2(ThreeTenthsScale) < RoundToDouble(m * ThreeTenths) <==> 10 * k < 3 * m
  {
    Pow2Facts();
    Pow2Add(52, 2);
    assert Pow2(2) == 4;
    var p := m * ThreeTenths;
    RoundingError(p);
    var r := RoundToDouble(p);
    var e := if r < p then p - r else r - p;
    assert 9007199254740992 * e <= p;
    assert 10 * p == 3 * m * 18014398509481984 - 2 * m;
    assert 10 * e <= 6 * m;
    assert k * Pow2(54) == k * 18014398509481984;
    if 10 * k < 3 * m {
      assert 10 * k <= 3 * m - 1;
      assert 10 * r >= 10 * p - 10 * e;
      assert 10 * r > 10 * k * 18014398509481984;
    } else {
      assert 10 * k >= 3 * m + 1;
      assert 10 * r <= 10 * p + 10 * e;
      assert 10 * r < 10 * k * 18014398509481984;
    }
  }

  /**
   * For every int m below 2^50 the rounded comparison k < m * 0.3 agrees
   * with the exact one. Off multiples of 10 the rounding error is too small
   * to matter; on them 3m / 10 times 2^54 is a multiple of the rounding
   * step, so rounding the product, which lies just below it, cannot pass it.
   */
  lemma {:induction false} ThreeTenthsExact(k: int, m: nat)
    requires m < 1125899906842624
    ensures BelowThreeTenths(k, m) <==> 10 * k < 3 * m
  {
    Pow2Facts();
    if BitLength(m) > Precision {
      Pow2Monotone(52, BitLength(m) - 1);
      assert false;
    }
    assert RoundToDouble(m) == m;
    if 10 * k == 3 * m {
      ThreeTenthsOnTens(k, m);
    } else {
      ThreeTenthsOffTens(k, m);
    }
  }
}
