// Clinger's AlgorithmM as used by the generator of the powers-of-ten table (src/etc/dec2flt_table.py).
module Dec2Flt {
  import opened Powers

  const MIN_SIG: nat := 0x8000_0000_0000_0000
  const MAX_SIG: nat := 0xFFFF_FFFF_FFFF_FFFF

  /** The hand-rolled float: sig * 2^exp, the exponent unrestricted. */
  datatype Fp = Fp(sig: nat, exp: int)

  predicate Normalized(z: Fp) {
    MIN_SIG <= z.sig <= MAX_SIG
  }

  function Value(z: Fp): real {
    z.sig as real * TwoTo(z.exp)
  }

  function Abs(x: real): (r: real)
    ensures r >= 0.0
  {
    if x < 0.0 then -x else x
  }

  function Distance(x: real, z: Fp): (r: real)
    ensures r >= 0.0
  {
    Abs(x - Value(z))
  }

  /** z is x rounded to the nearest normalised float, ties to an even significand: roundTiesToEven of IEEE 754-2008,
      section 4.3.1, with an unbounded exponent. It says nothing of how z is found. */
  ghost predicate RoundsTo(x: real, z: Fp) {
    && Normalized(z)
    && (forall w :: Normalized(w) ==> Distance(x, z) <= Distance(x, w))
    && (forall w :: Normalized(w) && Distance(x, z) == Distance(x, w) && Value(w) != Value(z) ==> z.sig % 2 == 0)
  }

  // ---------------------------------------------------------------------------------------------
  // The pure functions of the source.

  function NextFloat(z: Fp): Fp {
    if z.sig == MAX_SIG then Fp(MIN_SIG, z.exp + 1) else Fp(z.sig + 1, z.exp)
  }

  /** The choice of ratio_to_float, given the quotient and the remainder. */
  function RoundHalfEven(q: nat, r: nat, v: nat, k: int): Fp
    requires r < v
  {
    var v_r := v - r;
    var z := Fp(q, k);
    if r < v_r then z
    else if r > v_r then NextFloat(z)
    else if q % 2 == 0 then z
    else NextFloat(z)
  }

  function RatioToFloat(u: nat, v: nat, k: int): Fp
    requires v > 0
  {
    RoundHalfEven(u / v, u % v, v, k)
  }

  /** The exact decimal f * 10^e. */
  function Decimal(f: nat, e: int): real {
    f as real * TenTo(e)
  }

  /** The error in units in the last place, before the source turns it into a Python float. */
  function UlpError(f: nat, e: int, z: Fp): real {
    Abs(Decimal(f, e) - Value(z)) / TwoTo(z.exp)
  }

  /** It is the distance from the exact decimal, measured in the weight 2^exp of the last bit of the significand. */
  lemma UlpErrorIs(f: nat, e: int, z: Fp, b: real)
    ensures UlpError(f, e, z) < b <==> Distance(Decimal(f, e), z) < b * TwoTo(z.exp)
    ensures UlpError(f, e, z) == b <==> Distance(Decimal(f, e), z) == b * TwoTo(z.exp)
  {
    var s, d := TwoTo(z.exp), Distance(Decimal(f, e), z);
    hide TwoTo, Value, Decimal;
    var t := UlpError(f, e, z);
    assert t * s == d;
    if t < b {
      ScaleLt(t, b, s);
    } else if t > b {
      ScaleLt(b, t, s);
    }
  }

  // ---------------------------------------------------------------------------------------------
  // The grid of multiples of 2^k. Below, Fp(n, k) with any n stands for the multiple n * 2^k.

  lemma ScaleLe(a: real, b: real, s: real)
    requires a <= b && s >= 0.0
    ensures a * s <= b * s
  {
  }

  lemma ScaleLt(a: real, b: real, s: real)
    requires a < b && s > 0.0
    ensures a * s < b * s
  {
  }

  lemma Distribute(a: real, b: real, s: real)
    ensures (a + b) * s == a * s + b * s
  {
  }

  lemma NextMultiple(n: nat, k: int)
    ensures Value(Fp(n + 1, k)) == Value(Fp(n, k)) + TwoTo(k)
  {
    assert (n + 1) as real == n as real + 1.0;
    Distribute(n as real, 1.0, TwoTo(k));
  }

  /** How the multiple m * 2^k lies against q * 2^k. */
  lemma {:induction false} GridStep(q: nat, m: nat, k: int)
    ensures m < q ==> Value(Fp(m, k)) <= Value(Fp(q, k)) - TwoTo(k)
    ensures m == q + 1 ==> Value(Fp(m, k)) == Value(Fp(q, k)) + TwoTo(k)
    ensures m > q + 1 ==> Value(Fp(m, k)) >= Value(Fp(q, k)) + TwoTo(k) + TwoTo(k)
    decreases if m < q then q - m else m - q
  {
    hide Value;
    if m < q {
      NextMultiple(m, k);
      GridStep(q, m + 1, k);
    } else if m > q {
      NextMultiple(m - 1, k);
      GridStep(q, m - 1, k);
    }
  }

  /** A multiple of 2^(k+d) is a multiple of 2^k. */
  lemma FinerGrid(n: nat, k: int, d: nat)
    ensures Value(Fp(n, k + d)) == Value(Fp(n * Pow(2, d), k))
  {
    TwoToShift(k, d);
    Associate(n as real, Pow(2, d) as real, TwoTo(k));
  }

  lemma LowerExponentIsSmaller(z: Fp, w: Fp)
    requires Normalized(z) && Normalized(w) && z.exp < w.exp
    ensures Value(z) < Value(w)
  {
    var d := w.exp - z.exp;
    FinerGrid(w.sig, z.exp, d);
    assert Pow(2, d) == 2 * Pow(2, d - 1);
    assert w.sig * Pow(2, d) == w.sig * 2 * Pow(2, d - 1) >= w.sig * 2;
    GridStep(w.sig * Pow(2, d), z.sig, z.exp);
  }

  /** A float whose exponent is at least k is a multiple of 2^k; one of a lower exponent lies below every normalised
      multiple. */
  lemma FloatOnGrid(w: Fp, k: int) returns (m: nat)
    requires Normalized(w)
    ensures w.exp >= k ==> Value(w) == Value(Fp(m, k))
    ensures w.exp < k ==> forall q: nat :: Normalized(Fp(q, k)) ==> Value(w) < Value(Fp(q, k))
  {
    m := 0;
    if w.exp >= k {
      m := w.sig * Pow(2, w.exp - k);
      FinerGrid(w.sig, k, w.exp - k);
    } else {
      forall q: nat | Normalized(Fp(q, k)) ensures Value(w) < Value(Fp(q, k)) {
        LowerExponentIsSmaller(w, Fp(q, k));
      }
    }
  }

  lemma NextValue(z: Fp)
    requires Normalized(z)
    ensures Normalized(NextFloat(z))
    ensures Value(NextFloat(z)) == Value(Fp(z.sig + 1, z.exp))
    ensures Value(NextFloat(z)) == Value(z) + TwoTo(z.exp)
  {
    GridStep(z.sig, z.sig + 1, z.exp);
    if z.sig == MAX_SIG {
      FinerGrid(MIN_SIG, z.exp, 1);
      assert Pow(2, 1) == 2;
    }
  }

  // ---------------------------------------------------------------------------------------------
  // Rounding is a function: the specification determines the float, and it is monotone.

  /** A normalised float is determined by its value. */
  lemma SameValue(z: Fp, w: Fp)
    requires Normalized(z) && Normalized(w) && Value(z) == Value(w)
    ensures z == w
  {
    hide Value;
    if z.exp < w.exp {
      LowerExponentIsSmaller(z, w);
    } else if w.exp < z.exp {
      LowerExponentIsSmaller(w, z);
    } else {
      GridStep(z.sig, w.sig, z.exp);
      GridStep(w.sig, z.sig, z.exp);
    }
  }

  /** The next float up is the smallest normalised float above, whatever the exponents. */
  lemma NextIsBetween(z: Fp, w: Fp)
    requires Normalized(z) && Normalized(w) && Value(z) < Value(w)
    ensures Normalized(NextFloat(z)) && Value(z) < Value(NextFloat(z)) <= Value(w)
  {
    hide Value;
    NextValue(z);
    var m := FloatOnGrid(w, z.exp);
    if w.exp >= z.exp {
      GridStep(z.sig, m, z.exp);
    } else {
      LowerExponentIsSmaller(w, z);
    }
  }

  lemma BetweenIsCloser(x: real, a: real, n: real, b: real)
    requires a < n < b && Abs(x - a) == Abs(x - b)
    ensures Abs(x - n) < Abs(x - a)
  {
  }

  /** Between two floats equally far from x, both with even significands, lies a closer one. */
  lemma TieIsBroken(x: real, z: Fp, w: Fp)
    requires Normalized(z) && Normalized(w) && Value(z) < Value(w)
    requires z.sig % 2 == 0 && w.sig % 2 == 0 && Distance(x, z) == Distance(x, w)
    ensures Normalized(NextFloat(z)) && Distance(x, NextFloat(z)) < Distance(x, z)
  {
    hide Value;
    var n := NextFloat(z);
    NextIsBetween(z, w);
    assert n.sig == z.sig + 1 && n.exp == z.exp;
    if Value(n) == Value(w) {
      SameValue(n, w);
    } else {
      BetweenIsCloser(x, Value(z), Value(n), Value(w));
    }
  }

  /** Two correct roundings of one number are the same float. */
  lemma RoundsToUnique(x: real, z: Fp, w: Fp)
    requires RoundsTo(x, z) && RoundsTo(x, w)
    ensures z == w
  {
    hide Value;
    assert Distance(x, z) == Distance(x, w);
    if Value(z) < Value(w) {
      TieIsBroken(x, z, w);
    } else if Value(w) < Value(z) {
      TieIsBroken(x, w, z);
    } else {
      SameValue(z, w);
    }
  }

  /** A larger number never rounds to a smaller float. */
  lemma RoundingIsMonotone(x: real, y: real, z: Fp, w: Fp)
    requires x <= y && RoundsTo(x, z) && RoundsTo(y, w)
    ensures Value(z) <= Value(w)
  {
    hide Value;
    if Value(w) < Value(z) {
      assert Distance(x, z) <= Distance(x, w) && Distance(y, w) <= Distance(y, z);
      RoundsToUnique(x, z, w);
    }
  }

  // ---------------------------------------------------------------------------------------------
  // ratio_to_float rounds correctly.

  /** On the grid of step s, n is the multiple nearest to q*s + d, ties to even n. */
  predicate RoundsOnGrid(q: nat, d: real, s: real, n: nat) {
    n == if d < s - d || (d == s - d && q % 2 == 0) then q else q + 1
  }

  /** Every other multiple is at least as far, and strictly farther unless n is even. */
  lemma GridNearest(q: nat, d: real, k: int, n: nat, m: nat, x: real)
    requires 0.0 <= d < TwoTo(k) && RoundsOnGrid(q, d, TwoTo(k), n) && x == Value(Fp(q, k)) + d
    ensures Distance(x, Fp(n, k)) <= Distance(x, Fp(m, k))
    ensures Distance(x, Fp(n, k)) <= d && Distance(x, Fp(n, k)) <= TwoTo(k) - d
    ensures m != n && Distance(x, Fp(n, k)) == Distance(x, Fp(m, k)) ==> n % 2 == 0
  {
    hide Value;
    GridStep(q, n, k);
    GridStep(q, m, k);
  }

  /** A normalised float that is the nearest multiple of 2^k to a number with normalised whole part q is its
      rounding. */
  lemma GridRoundingIsRounding(q: nat, d: real, k: int, n: nat, x: real, z: Fp)
    requires Normalized(Fp(q, k)) && 0.0 <= d < TwoTo(k) && RoundsOnGrid(q, d, TwoTo(k), n)
    requires x == Value(Fp(q, k)) + d
    requires Normalized(z) && Value(z) == Value(Fp(n, k)) && z.sig % 2 == n % 2
    ensures RoundsTo(x, z) && Distance(x, z) <= TwoTo(k) - d && Distance(x, z) <= d
  {
    hide Value;
    GridNearest(q, d, k, n, q, x);
    forall w | Normalized(w)
      ensures Distance(x, z) <= Distance(x, w)
      ensures Distance(x, z) == Distance(x, w) && Value(w) != Value(z) ==> z.sig % 2 == 0
    {
      var m := FloatOnGrid(w, k);
      if w.exp >= k {
        GridNearest(q, d, k, n, m, x);
      } else {
        assert Value(w) < Value(Fp(q, k));
      }
    }
  }

  /** u/v scaled by 2^k, with u/v = q + r/v, is q*2^k + d for the fraction d = (r/v)*2^k. */
  lemma SplitQuotient(u: nat, v: nat, k: int, x: real) returns (d: real)
    requires v > 0 && u as real * TwoTo(k) == x * v as real
    ensures x == Value(Fp(u / v, k)) + d
    ensures d * v as real == (u % v) as real * TwoTo(k)
    ensures 0.0 <= d < TwoTo(k)
  {
    var q, r, s, y := u / v, u % v, TwoTo(k), v as real;
    d := x - q as real * s;
    assert u == q * v + r;
    assert u as real == q as real * y + r as real;
    assert u as real * s == (q as real * s) * y + r as real * s;
    assert d * y == r as real * s;
    ScaleLt(r as real, y, s);
    if d < 0.0 {
      ScaleLt(d, 0.0, y);
      assert false;
    }
    if d >= s {
      ScaleLe(s, d, y);
      assert false;
    }
  }

  lemma CancelOrder(a: real, b: real, s: real)
    requires s > 0.0
    ensures a * s < b * s <==> a < b
    ensures a * s == b * s <==> a == b
  {
    if a < b { ScaleLt(a, b, s); } else if b < a { ScaleLt(b, a, s); }
  }

  /** Comparing r with v - r decides on which side of the midpoint the number lies. */
  lemma HalfwayTest(v: nat, r: nat, d: real, s: real)
    requires 0 <= r < v && s > 0.0 && d * v as real == r as real * s
    ensures r < v - r <==> d < s - d
    ensures r == v - r <==> d == s - d
  {
    var y, t := v as real, (r + r) as real;
    assert t == r as real + r as real;
    assert (d + d) * y == t * s;
    assert s * y == y * s;
    CancelOrder(t, y, s);
    CancelOrder(d + d, s, y);
  }

  /** ratio_to_float(u, v, k) rounds (u/v)*2^k correctly whenever the quotient is a normalised significand,
      the carry out of MAX_SIG included; below MAX_SIG no carry is taken. The error is at most half a step 2^k,
      and exactly half only when the remainder is half of v. */
  lemma RatioToFloatRounds(u: nat, v: nat, k: int, x: real)
    requires v > 0 && MIN_SIG <= u / v <= MAX_SIG
    requires u as real * TwoTo(k) == x * v as real
    ensures RoundsTo(x, RatioToFloat(u, v, k))
    ensures Distance(x, RatioToFloat(u, v, k)) <= TwoTo(k) / 2.0
    ensures 2 * (u % v) != v ==> Distance(x, RatioToFloat(u, v, k)) < TwoTo(k) / 2.0
    ensures u / v < MAX_SIG ==> RatioToFloat(u, v, k).exp == k
  {
    var d := SplitQuotient(u, v, k, x);
    RoundingStep(u / v, u % v, v, k, d, x);
  }

  lemma RoundingStep(q: nat, r: nat, v: nat, k: int, d: real, x: real)
    requires r < v && Normalized(Fp(q, k)) && 0.0 <= d < TwoTo(k)
    requires d * v as real == r as real * TwoTo(k) && x == Value(Fp(q, k)) + d
    ensures RoundsTo(x, RoundHalfEven(q, r, v, k))
    ensures Distance(x, RoundHalfEven(q, r, v, k)) <= TwoTo(k) / 2.0
    ensures 2 * r != v ==> Distance(x, RoundHalfEven(q, r, v, k)) < TwoTo(k) / 2.0
  {
    hide Value;
    HalfwayTest(v, r, d, TwoTo(k));
    NextValue(Fp(q, k));
    var z := RoundHalfEven(q, r, v, k);
    var n := if z == Fp(q, k) then q else q + 1;
    GridRoundingIsRounding(q, d, k, n, x, z);
  }
}
