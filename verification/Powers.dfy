// Integer powers, and powers of two and ten with any integer exponent as exact reals.
module Powers {

  function Pow(b: nat, n: nat): (p: nat)
    ensures b > 0 ==> p > 0
  {
    if n == 0 then 1 else b * Pow(b, n - 1)
  }

  lemma MulAssociates(a: int, b: int, c: int)
    ensures a * (b * c) == (a * b) * c
  {
  }

  lemma {:induction false} PowAdd(b: nat, m: nat, n: nat)
    ensures Pow(b, m + n) == Pow(b, m) * Pow(b, n)
  {
    if m > 0 {
      PowAdd(b, m - 1, n);
      assert Pow(b, m + n) == b * Pow(b, m - 1 + n);
      MulAssociates(b, Pow(b, m - 1), Pow(b, n));
    }
  }

  /** 10^n splits into 2^n * 5^n. */
  lemma {:induction false} PowTen(n: nat)
    ensures Pow(10, n) == Pow(2, n) * Pow(5, n)
  {
    if n > 0 {
      PowTen(n - 1);
      var a, b := Pow(2, n - 1), Pow(5, n - 1);
      assert 10 * (a * b) == (2 * a) * (5 * b);
    }
  }

  lemma {:induction false} PowMonotone(b: nat, m: nat, n: nat)
    requires b > 0 && m <= n
    ensures Pow(b, m) <= Pow(b, n)
    decreases n
  {
    if m < n {
      PowMonotone(b, m, n - 1);
      assert Pow(b, n) == b * Pow(b, n - 1) >= Pow(b, n - 1);
    }
  }

  /** 2^k for any integer k, exactly. */
  function TwoTo(k: int): (r: real)
    ensures r > 0.0
    decreases if k < 0 then -k else k
  {
    if k == 0 then 1.0 else if k > 0 then 2.0 * TwoTo(k - 1) else TwoTo(k + 1) / 2.0
  }

  /** 10^e for any integer e, exactly. */
  function TenTo(e: int): (r: real)
    ensures r > 0.0
    decreases if e < 0 then -e else e
  {
    if e == 0 then 1.0 else if e > 0 then 10.0 * TenTo(e - 1) else TenTo(e + 1) / 10.0
  }

  lemma TwoToSucc(k: int)
    ensures TwoTo(k + 1) == 2.0 * TwoTo(k)
  {
  }

  lemma Associate(a: real, b: real, c: real)
    ensures (a * b) * c == a * (b * c)
  {
  }

  /** A higher exponent multiplies by a whole power of two. */
  lemma TwicePower(d: nat)
    ensures Pow(2, d + 1) as real == 2.0 * Pow(2, d) as real
  {
    assert Pow(2, d + 1) == 2 * Pow(2, d);
  }

  /** 2^k shifted by d. */
  function Shifted(k: int, d: nat): real {
    Pow(2, d) as real * TwoTo(k)
  }

  lemma ShiftedOnce(k: int, d: nat)
    ensures Shifted(k, d + 1) == 2.0 * Shifted(k, d)
  {
    TwicePower(d);
    hide Pow, TwoTo;
    Associate(2.0, Pow(2, d) as real, TwoTo(k));
  }

  lemma {:induction false} ShiftedIs(k: int, d: nat)
    ensures TwoTo(k + d) == Shifted(k, d)
    decreases d
  {
    if d > 0 {
      hide Shifted, TwoTo;
      ShiftedIs(k, d - 1);
      ShiftedOnce(k, d - 1);
      TwoToSucc(k + d - 1);
    }
  }

  lemma TwoToShift(k: int, d: nat)
    ensures TwoTo(k + d) == Pow(2, d) as real * TwoTo(k)
  {
    ShiftedIs(k, d);
  }

  lemma {:induction false} TenToWhole(e: nat)
    ensures TenTo(e) == Pow(10, e) as real
  {
    if e > 0 {
      TenToWhole(e - 1);
    }
  }

  /** A negative power of ten is the reciprocal of a whole one. */
  lemma {:induction false} TenToNegative(m: nat)
    ensures TenTo(0 - m) * Pow(10, m) as real == 1.0
  {
    if m > 0 {
      TenToNegative(m - 1);
      assert Pow(10, m) as real == 10.0 * Pow(10, m - 1) as real;
      Associate(TenTo(0 - m), 10.0, Pow(10, m - 1) as real);
    }
  }

  /** Opposite powers of two cancel. */
  lemma {:induction false} TwoToInverse(k: nat)
    ensures TwoTo(k) * TwoTo(0 - k) == 1.0
  {
    if k > 0 {
      TwoToInverse(k - 1);
      Associate(TwoTo(k - 1), 2.0, TwoTo(0 - k));
    }
  }
}
