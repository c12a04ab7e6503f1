// The scaling loop of algorithm_m (src/etc/dec2flt_table.py): what it computes, and exactly when it stops.
module ScalingLoop {
  import opened Powers
  import opened Dec2Flt

  /** The loop variables u, v and k. */
  datatype Scaling = Scaling(u: nat, v: nat, k: int) {
    predicate Valid() {
      u > 0 && v > 0
    }

    function Quotient(): nat
      requires v > 0
    {
      u / v
    }

    predicate Done()
      requires v > 0
    {
      MIN_SIG <= Quotient() < MAX_SIG
    }

    /** (u/v) * 2^k = x, without the division. */
    ghost predicate Represents(x: real) {
      u as real * TwoTo(k) == x * v as real
    }
  }

  function Start(f: nat, e: int): (s: Scaling)
    requires f > 0
    ensures s.Valid()
  {
    if e < 0 then
      Scaling(f, Pow(10, -e), 0)
    else
      assert f * Pow(10, e) >= Pow(10, e);
      Scaling(f * Pow(10, e), 1, 0)
  }

  /** One pass through the loop body. */
  function Step(s: Scaling): (t: Scaling)
    requires s.Valid() && !s.Done()
    ensures t.Valid()
  {
    if s.Quotient() < MIN_SIG then Scaling(2 * s.u, s.v, s.k - 1) else Scaling(s.u, 2 * s.v, s.k + 1)
  }

  /** The state after n passes; a stopped loop stays as it is. */
  function After(s: Scaling, n: nat): (t: Scaling)
    requires s.Valid()
    ensures t.Valid()
    decreases n
  {
    if n == 0 || s.Done() then s else After(Step(s), n - 1)
  }

  ghost predicate Halts(s: Scaling)
    requires s.Valid()
  {
    exists n: nat :: After(s, n).Done()
  }

  /** x * 2^j. */
  function Scaled(x: real, j: int): real {
    x * TwoTo(j)
  }

  /** Some power-of-two scaling of x has floor exactly MAX_SIG. */
  ghost predicate Stuck(x: real) {
    exists j: int :: Scaled(x, j).Floor == MAX_SIG
  }

  // ---------------------------------------------------------------------------------------------
  // What a pass keeps.

  lemma StartRepresents(f: nat, e: int)
    requires f > 0
    ensures Start(f, e).Represents(Decimal(f, e))
  {
    if e < 0 {
      TenToNegative(-e);
      Associate(f as real, TenTo(e), Pow(10, -e) as real);
    } else {
      TenToWhole(e);
    }
  }

  lemma HalfTheUnit(a: real, p: real, q: real, c: real)
    requires a * p == c && p == 2.0 * q
    ensures (2.0 * a) * q == c
  {
    assert (2.0 * a) * q == a * (2.0 * q);
  }

  lemma TwiceTheUnit(a: real, p: real, q: real, x: real, b: real)
    requires a * p == x * b && q == 2.0 * p
    ensures a * q == x * (2.0 * b)
  {
    assert a * q == 2.0 * (a * p) && x * (2.0 * b) == 2.0 * (x * b);
  }

  lemma StepRepresents(s: Scaling, x: real)
    requires s.Valid() && !s.Done() && s.Represents(x)
    ensures Step(s).Represents(x)
  {
    hide TwoTo;
    TwoToSucc(s.k - 1);
    TwoToSucc(s.k);
    if s.Quotient() < MIN_SIG {
      HalfTheUnit(s.u as real, TwoTo(s.k), TwoTo(s.k - 1), x * s.v as real);
    } else {
      TwiceTheUnit(s.u as real, TwoTo(s.k), TwoTo(s.k + 1), x, s.v as real);
    }
  }

  lemma {:induction false} AfterRepresents(s: Scaling, n: nat, x: real)
    requires s.Valid() && s.Represents(x)
    ensures After(s, n).Represents(x)
    decreases n
  {
    if n > 0 && !s.Done() {
      StepRepresents(s, x);
      AfterRepresents(Step(s), n - 1, x);
    }
  }

  lemma {:induction false} AfterAdd(s: Scaling, m: nat, n: nat)
    requires s.Valid()
    ensures After(After(s, m), n) == After(s, m + n)
    decreases m
  {
    if m > 0 && !s.Done() {
      AfterAdd(Step(s), m - 1, n);
    }
  }

  // ---------------------------------------------------------------------------------------------
  // Quotients under doubling.

  lemma MulLe(a: int, b: int, v: nat)
    requires a <= b
    ensures a * v <= b * v
  {
  }

  lemma QuotientLess(u: nat, v: nat, c: nat)
    requires v > 0
    ensures u / v < c <==> u < c * v
  {
    var q, r := u / v, u % v;
    assert u == q * v + r;
    if q < c {
      MulLe(q + 1, c, v);
    } else {
      MulLe(c, q, v);
    }
  }

  lemma QuotientIs(a: nat, b: nat, q: nat)
    requires b > 0 && q * b <= a < (q + 1) * b
    ensures a / b == q
  {
    QuotientLess(a, b, q);
    QuotientLess(a, b, q + 1);
  }

  lemma DoubleNumerator(u: nat, v: nat)
    requires v > 0
    ensures 2 * u / v == 2 * (u / v) || 2 * u / v == 2 * (u / v) + 1
  {
    var q, r := u / v, u % v;
    assert u == q * v + r;
    if 2 * r < v {
      QuotientIs(2 * u, v, 2 * q);
    } else {
      QuotientIs(2 * u, v, 2 * q + 1);
    }
  }

  lemma DoubleDenominator(u: nat, v: nat)
    requires v > 0
    ensures u / (2 * v) == u / v / 2
  {
    var q, h := u / v, u / v / 2;
    QuotientLess(u, v, q);
    QuotientLess(u, v, q + 1);
    MulLe(2 * h, q, v);
    MulLe(q + 1, 2 * h + 2, v);
    HalfBounds(u, v, h);
    QuotientIs(u, 2 * v, h);
  }

  lemma HalfBounds(u: nat, v: nat, h: nat)
    requires (2 * h) * v <= u < (2 * h + 2) * v
    ensures h * (2 * v) <= u < (h + 1) * (2 * v)
  {
  }

  /** u/v is x scaled by 2^-k. */
  lemma RepresentsAsRatio(s: Scaling, x: real)
    requires s.Valid() && s.Represents(x)
    ensures s.u as real == Scaled(x, 0 - s.k) * s.v as real
  {
    InverseOf(s.k);
    Cancel(s.u as real, TwoTo(s.k), TwoTo(0 - s.k), x, s.v as real);
  }

  /** The quotient is the floor of x scaled by 2^-k. */
  lemma QuotientIsFloor(s: Scaling, x: real)
    requires s.Valid() && s.Represents(x)
    ensures Scaled(x, 0 - s.k).Floor == s.Quotient()
    ensures s.Quotient() as real <= Scaled(x, 0 - s.k) < (s.Quotient() + 1) as real
  {
    RepresentsAsRatio(s, x);
    hide Scaled, Scaling.Represents;
    FloorOfRatio(Scaled(x, 0 - s.k), s.u, s.v);
  }

  lemma InverseOf(k: int)
    ensures TwoTo(k) * TwoTo(0 - k) == 1.0
  {
    if k >= 0 {
      TwoToInverse(k);
    } else {
      TwoToInverse(0 - k);
      assert 0 - (0 - k) == k;
      assert TwoTo(0 - k) * TwoTo(k) == TwoTo(k) * TwoTo(0 - k);
    }
  }

  lemma FractionPart(y: real, b: real, q: real, r: real)
    requires 0.0 <= r < b && y * b == q * b + r
    ensures q <= y < q + 1.0
  {
    Distribute(q, 1.0, b);
    CancelOrder(y, q, b);
    CancelOrder(y, q + 1.0, b);
  }

  lemma FloorOfRatio(y: real, u: nat, v: nat)
    requires v > 0 && u as real == y * v as real
    ensures (u / v) as real <= y < (u / v + 1) as real
    ensures y.Floor == u / v
  {
    DivisionAsReal(u, v);
    FractionPart(y, v as real, (u / v) as real, (u % v) as real);
  }

  lemma DivisionAsReal(u: nat, v: nat)
    requires v > 0
    ensures u as real == (u / v) as real * v as real + (u % v) as real
    ensures 0.0 <= (u % v) as real < v as real
  {
    ProductAsReal(u / v, v);
    assert u == (u / v) * v + u % v;
  }

  lemma ProductAsReal(a: nat, b: nat)
    ensures (a * b) as real == a as real * b as real
  {
  }

  lemma Cancel(a: real, p: real, r: real, x: real, b: real)
    requires a * p == x * b && p * r == 1.0
    ensures a == (x * r) * b
  {
    Associate(a, p, r);
    assert (x * b) * r == (x * r) * b;
  }

  // ---------------------------------------------------------------------------------------------
  // Exactly when the loop stops.

  /** A stopped loop means that no scaling has floor MAX_SIG: 2^-k gives a smaller one, every larger scaling at least
      2*MIN_SIG, every smaller one less than MAX_SIG. */
  lemma DoneIsNotStuck(s: Scaling, x: real)
    requires s.Valid() && s.Done() && s.Represents(x)
    ensures !Stuck(x)
  {
    QuotientIsFloor(s, x);
    hide Scaled, Scaling.Represents;
    forall j: int ensures Scaled(x, j).Floor != MAX_SIG {
      var y := Scaled(x, 0 - s.k);
      if j > 0 - s.k {
        LargerScaling(x, 0 - s.k, j);
      } else if j < 0 - s.k {
        LargerScaling(x, j, 0 - s.k);
      }
    }
  }

  lemma ScaledSucc(x: real, j: int)
    ensures Scaled(x, j + 1) == 2.0 * Scaled(x, j)
  {
    TwoToSucc(j);
    assert x * (2.0 * TwoTo(j)) == 2.0 * (x * TwoTo(j));
  }

  /** A larger power of two scales a positive number to at least twice as much. */
  lemma {:induction false} LargerScaling(x: real, i: int, j: int)
    requires i < j && (Scaled(x, i) >= 0.0 || Scaled(x, j) >= 0.0)
    ensures Scaled(x, j) >= 2.0 * Scaled(x, i) >= 0.0
    decreases j - i
  {
    hide Scaled;
    ScaledSucc(x, j - 1);
    if i < j - 1 {
      LargerScaling(x, i, j - 1);
    }
  }

  /** Distance to the window, on the side the loop is on. */
  function Measure(s: Scaling): nat
    requires s.Valid()
  {
    if s.u < MIN_SIG * s.v then MIN_SIG * s.v - s.u
    else if s.u >= MAX_SIG * s.v then s.u - s.v
    else 0
  }

  /** Away from the quotient MAX_SIG a pass comes strictly closer and never jumps over the window. */
  lemma Progress(s: Scaling)
    requires s.Valid() && !s.Done()
    requires s.Quotient() != MAX_SIG && Step(s).Quotient() != MAX_SIG
    ensures Measure(Step(s)) < Measure(s)
    ensures s.Quotient() < MIN_SIG ==> Step(s).Quotient() < MAX_SIG
    ensures s.Quotient() >= MAX_SIG ==> Step(s).Quotient() >= MIN_SIG
  {
    var t := Step(s);
    QuotientLess(s.u, s.v, MIN_SIG);
    QuotientLess(s.u, s.v, MAX_SIG);
    QuotientLess(t.u, t.v, MIN_SIG);
    QuotientLess(t.u, t.v, MAX_SIG);
    DoubleNumerator(s.u, s.v);
    DoubleDenominator(s.u, s.v);
  }

  lemma NeverMax(s: Scaling, x: real)
    requires s.Valid() && s.Represents(x) && !Stuck(x)
    ensures s.Quotient() != MAX_SIG
  {
    QuotientIsFloor(s, x);
  }

  lemma TwiceMore(m: nat, x: nat)
    ensures Pow(2, m + 1) * x == Pow(2, m) * (2 * x)
  {
    assert Pow(2, m + 1) == 2 * Pow(2, m);
    MulAssociates(Pow(2, m), 2, x);
  }

  /** On a number that is not stuck the loop stops; it doubles only one of u and v, once in each of its n passes. */
  lemma {:induction false} NotStuckHalts(s: Scaling, x: real) returns (n: nat)
    requires s.Valid() && s.Represents(x) && !Stuck(x)
    ensures After(s, n).Done() && forall m: nat :: m < n ==> !After(s, m).Done()
    ensures s.Quotient() < MIN_SIG ==> After(s, n) == Scaling(Pow(2, n) * s.u, s.v, s.k - n)
    ensures s.Quotient() >= MAX_SIG ==> After(s, n) == Scaling(s.u, Pow(2, n) * s.v, s.k + n)
    ensures s.Done() ==> n == 0
    decreases Measure(s)
  {
    assert Pow(2, 0) == 1 && Pow(2, 1) == 2;
    hide Measure, Scaling.Quotient, Scaling.Represents, Stuck, Pow;
    n := 0;
    if !s.Done() {
      NeverMax(s, x);
      StepRepresents(s, x);
      NeverMax(Step(s), x);
      Progress(s);
      var m := NotStuckHalts(Step(s), x);
      n := m + 1;
      TwiceMore(m, s.u);
      TwiceMore(m, s.v);
    }
  }

  /** The loop of algorithm_m(f, e) stops if and only if no power-of-two scaling of f*10^e has floor 2^64 - 1. */
  lemma LoopStopsIff(f: nat, e: int)
    requires f > 0
    ensures Halts(Start(f, e)) <==> !Stuck(Decimal(f, e))
  {
    var s, x := Start(f, e), Decimal(f, e);
    StartRepresents(f, e);
    if !Stuck(x) {
      var n := NotStuckHalts(s, x);
    }
    if Halts(s) {
      var n: nat :| After(s, n).Done();
      AfterRepresents(s, n, x);
      DoneIsNotStuck(After(s, n), x);
    }
  }

  // ---------------------------------------------------------------------------------------------
  // What happens when it does not stop.

  /** On a stuck number the loop comes to the quotient MAX_SIG. */
  lemma {:induction false} StuckReachesMax(s: Scaling, x: real) returns (n: nat)
    requires s.Valid() && s.Represents(x) && Stuck(x)
    ensures After(s, n).Quotient() == MAX_SIG
    decreases Measure(s)
  {
    hide Measure, Scaling.Represents, Stuck;
    if s.Done() {
      DoneIsNotStuck(s, x);
    }
    n := 0;
    if s.Quotient() != MAX_SIG {
      StepRepresents(s, x);
      if Step(s).Quotient() == MAX_SIG {
        n := 1;
        assert After(s, 1) == After(Step(s), 0);
      } else {
        Progress(s);
        var m := StuckReachesMax(Step(s), x);
        n := m + 1;
      }
    }
  }

  /** From the quotient MAX_SIG one pass halves u/v to just below the window and the next doubles it back. */
  lemma MaxTwoPasses(s: Scaling)
    requires s.Valid() && s.Quotient() == MAX_SIG
    ensures !s.Done() && Step(s) == Scaling(s.u, 2 * s.v, s.k + 1) && !Step(s).Done()
    ensures Step(Step(s)) == Scaling(2 * s.u, 2 * s.v, s.k) && Step(Step(s)).Quotient() == MAX_SIG
  {
    DoubleDenominator(s.u, s.v);
    SameQuotient(s.u, s.v, 2);
  }

  lemma PullTwo(m: nat, b: nat)
    requires m > 0
    ensures Pow(2, m) * b == Pow(2, m - 1) * (2 * b)
    ensures Pow(2, m) * b == 2 * (Pow(2, m - 1) * b)
  {
    var p := Pow(2, m - 1);
    assert Pow(2, m) == 2 * p;
    assert (2 * p) * b == p * (2 * b);
  }

  /** So every other state is the same again but for the common factor by which u and v have both grown. */
  lemma {:induction false} MaxAlternates(s: Scaling, m: nat)
    requires s.Valid() && s.Quotient() == MAX_SIG
    ensures After(s, 2 * m) == Scaling(Pow(2, m) * s.u, Pow(2, m) * s.v, s.k)
    ensures After(s, 2 * m + 1) == Scaling(Pow(2, m) * s.u, 2 * (Pow(2, m) * s.v), s.k + 1)
    decreases m
  {
    MaxTwoPasses(s);
    var t := Step(s);
    if m == 0 {
      assert After(s, 1) == After(t, 0);
    } else {
      hide Scaling.Quotient, Step;
      var r := Step(t);
      MaxAlternates(r, m - 1);
      assert After(s, 2 * m) == After(t, 2 * m - 1) == After(r, 2 * (m - 1));
      assert After(s, 2 * m + 1) == After(t, 2 * m) == After(r, 2 * (m - 1) + 1);
      PullTwo(m, s.u);
      PullTwo(m, s.v);
    }
  }

  lemma SameQuotient(u: nat, v: nat, p: nat)
    requires v > 0 && p > 0
    ensures (p * u) / (p * v) == u / v
  {
    var q, r := u / v, u % v;
    assert u == q * v + r;
    ScaledDivision(u, v, p, q, r);
    QuotientIs(p * u, p * v, q);
  }

  lemma ScaledDivision(u: nat, v: nat, p: nat, q: nat, r: nat)
    requires u == q * v + r && r < v && p > 0
    ensures q * (p * v) <= p * u < (q + 1) * (p * v)
  {
    assert p * u == q * (p * v) + p * r;
    MulLe(r + 1, v, p);
  }

  /** When some scaling of f*10^e has floor 2^64 - 1, the loop never stops: from some pass on it alternates for ever
      between one ratio u/v with exponent k and half that ratio with exponent k + 1. */
  lemma StuckLoopsForever(f: nat, e: int) returns (n: nat, t: Scaling)
    requires f > 0 && Stuck(Decimal(f, e))
    ensures t == After(Start(f, e), n) && t.Quotient() == MAX_SIG
    ensures forall m: nat :: After(Start(f, e), n + 2 * m) == Scaling(Pow(2, m) * t.u, Pow(2, m) * t.v, t.k)
    ensures forall m: nat :: After(Start(f, e), n + 2 * m + 1) == Scaling(Pow(2, m) * t.u, 2 * (Pow(2, m) * t.v), t.k + 1)
  {
    var s := Start(f, e);
    StartRepresents(f, e);
    n := StuckReachesMax(s, Decimal(f, e));
    t := After(s, n);
    forall m: nat
      ensures After(s, n + 2 * m) == Scaling(Pow(2, m) * t.u, Pow(2, m) * t.v, t.k)
      ensures After(s, n + 2 * m + 1) == Scaling(Pow(2, m) * t.u, 2 * (Pow(2, m) * t.v), t.k + 1)
    {
      AfterAdd(s, n, 2 * m);
      AfterAdd(s, n, 2 * m + 1);
      MaxAlternates(t, m);
    }
  }

  /** The loop does run for ever on an input of the function's own: f = 2^64 - 1, e = 0. */
  lemma StuckExample()
    ensures Stuck(Decimal(0xFFFF_FFFF_FFFF_FFFF, 0)) && !Halts(Start(0xFFFF_FFFF_FFFF_FFFF, 0))
  {
    assert TenTo(0) == 1.0 && TwoTo(0) == 1.0;
    assert Scaled(Decimal(MAX_SIG, 0), 0).Floor == MAX_SIG;
    LoopStopsIff(MAX_SIG, 0);
  }

  // ---------------------------------------------------------------------------------------------
  // algorithm_m.

  /** On a number that is not stuck every pass keeps the number represented and comes closer to the window. */
  lemma PassApproaches(s: Scaling, x: real)
    requires s.Valid() && !s.Done() && s.Represents(x) && !Stuck(x)
    ensures Step(s).Represents(x) && Measure(Step(s)) < Measure(s)
  {
    NeverMax(s, x);
    StepRepresents(s, x);
    NeverMax(Step(s), x);
    Progress(s);
  }

  /** Clinger's AlgorithmM: f * 10^e correctly rounded, within half a unit in the last place. */
  method AlgorithmM(f: nat, e: int) returns (z: Fp)
    requires f > 0 && !Stuck(Decimal(f, e))
    ensures RoundsTo(Decimal(f, e), z)
    ensures Distance(Decimal(f, e), z) <= TwoTo(z.exp) / 2.0
    ensures UlpError(f, e, z) <= 0.5
  {
    var u, v;
    if e < 0 {
      u := f;
      v := Pow(10, -e);
    } else {
      u := f * Pow(10, e);
      v := 1;
    }
    var k := 0;
    ghost var d := Decimal(f, e);
    assert Scaling(u, v, k) == Start(f, e);
    StartRepresents(f, e);
    var x := u / v;
    while true
      invariant u > 0 && v > 0 && x == u / v
      invariant Scaling(u, v, k).Represents(d)
      decreases Measure(Scaling(u, v, k))
    {
      hide Measure, Scaling.Represents, Stuck, Decimal;
      ghost var s := Scaling(u, v, k);
      if !s.Done() {
        PassApproaches(s, d);
      }
      if x < MIN_SIG {
        u := 2 * u;
        k := k - 1;
      } else if x >= MAX_SIG {
        v := 2 * v;
        k := k + 1;
      } else {
        break;
      }
      assert Scaling(u, v, k) == Step(s);
      x := u / v;
    }
    z := RatioToFloat(u, v, k);
    RatioWithinHalfUlp(u, v, k, f, e);
  }

  /** What the loop leaves is rounded correctly, with error at most half a unit in the last place. */
  lemma RatioWithinHalfUlp(u: nat, v: nat, k: int, f: nat, e: int)
    requires v > 0 && Scaling(u, v, k).Done() && Scaling(u, v, k).Represents(Decimal(f, e))
    ensures RoundsTo(Decimal(f, e), RatioToFloat(u, v, k))
    ensures var z := RatioToFloat(u, v, k);
      && Distance(Decimal(f, e), z) <= TwoTo(z.exp) / 2.0 && UlpError(f, e, z) <= 0.5
      && (2 * (u % v) != v ==> Distance(Decimal(f, e), z) < TwoTo(z.exp) / 2.0 && UlpError(f, e, z) < 0.5)
  {
    hide RoundsTo, RatioToFloat, Value, TwoTo, Decimal, UlpError;
    RatioToFloatRounds(u, v, k, Decimal(f, e));
    UlpErrorIs(f, e, RatioToFloat(u, v, k), 0.5);
  }

  // ---------------------------------------------------------------------------------------------
  // The generator's assertion on powers of ten.

  lemma {:induction false} PowerOfTwoNotFivefold(n: nat)
    ensures Pow(2, n) % 5 != 0
  {
    if n > 0 {
      PowerOfTwoNotFivefold(n - 1);
    }
  }

  lemma {:induction false} PowerOfFiveIsOdd(n: nat)
    ensures Pow(5, n) % 2 == 1
  {
    if n > 0 {
      PowerOfFiveIsOdd(n - 1);
    }
  }

  /** The odd part of a number is unique. */
  lemma {:induction false} OddPart(a: nat, b: nat, c: nat, d: nat)
    requires Pow(2, a) * b == Pow(2, c) * d && b % 2 == 1 && d % 2 == 1
    ensures a == c && b == d
    decreases a + c
  {
    assert Pow(2, 0) == 1;
    hide Pow;
    if a > 0 { PullTwo(a, b); }
    if c > 0 { PullTwo(c, d); }
    if a > 0 && c > 0 {
      OddPart(a - 1, b, c - 1, d);
    }
  }

  /** No power of five lies between 2^64 and 2^65. */
  lemma NoPowerOfFiveInWindow(n: nat)
    ensures Pow(5, n) < 2 * MIN_SIG || Pow(5, n) > 4 * MIN_SIG
  {
    assert Pow(5, 1) == 5 && Pow(5, 3) == 125;
    PowAdd(5, 3, 3);
    PowAdd(5, 3, 6);
    PowAdd(5, 9, 9);
    PowAdd(5, 9, 18);
    PowAdd(5, 1, 27);
    hide Pow;
    if n <= 27 {
      PowMonotone(5, n, 27);
    } else {
      PowMonotone(5, 28, n);
    }
  }

  /** A negative power of ten, scaled by a power of two, is never halfway between two integers. */
  lemma NegativePowerNoTie(n: nat, m: nat, q: nat)
    requires m > 0
    ensures 2 * Pow(2, n) != (2 * q + 1) * Pow(10, m)
  {
    var p := Pow(10, m - 1);
    assert Pow(10, m) == 10 * p && Pow(2, n + 1) == 2 * Pow(2, n);
    PowerOfTwoNotFivefold(n + 1);
    hide Pow;
    MultipleOfFive(2 * q + 1, p);
  }

  lemma MultipleOfFive(a: nat, p: nat)
    ensures (a * (10 * p)) % 5 == 0
  {
    assert a * (10 * p) == 5 * (2 * (a * p));
  }

  /** A positive power of ten, divided by a power of two, is never halfway between two normalised significands:
      w/2 is such a midpoint. */
  lemma PositivePowerNoTie(n: nat, e: nat, w: nat)
    requires w % 2 == 1 && 2 * MIN_SIG < w < 4 * MIN_SIG
    ensures 2 * Pow(10, e) != w * Pow(2, n)
  {
    if 2 * Pow(10, e) == w * Pow(2, n) {
      hide Pow;
      PowTen(e);
      PullTwo(e + 1, Pow(5, e));
      PowerOfFiveIsOdd(e);
      assert w * Pow(2, n) == Pow(2, n) * w;
      OddPart(e + 1, Pow(5, e), n, w);
      NoPowerOfFiveInWindow(e);
    }
  }

  /** A remainder of half the denominator puts the ratio halfway between two integers. */
  lemma HalfRemainder(u: nat, v: nat)
    requires v > 0 && 2 * (u % v) == v
    ensures 2 * u == (2 * (u / v) + 1) * v
  {
    var q, r := u / v, u % v;
    assert u == q * v + r;
  }

  /** The loop on 10^e never ends with a remainder of exactly half the denominator. */
  lemma PowerOfTenNoTie(e: int, n: nat)
    requires !Stuck(Decimal(1, e)) && After(Start(1, e), n).Done()
    ensures var t := After(Start(1, e), n); 2 * (t.u % t.v) != t.v
  {
    var s := Start(1, e);
    StartRepresents(1, e);
    var c := NotStuckHalts(s, Decimal(1, e));
    StoppedStays(s, c, n);
    hide After, Stuck, Decimal, Scaling.Represents, Scaling.Quotient, Pow;
    if e < 0 {
      SmallStart(e);
      NegativeTieFree(c, -e);
    } else if s.Quotient() >= MAX_SIG {
      PositiveTieFree(After(s, c), c, e);
    }
  }

  lemma NotHalf(u: nat, v: nat)
    requires v > 0 && 2 * u != (2 * (u / v) + 1) * v
    ensures 2 * (u % v) != v
  {
    if 2 * (u % v) == v {
      HalfRemainder(u, v);
    }
  }

  lemma NegativeTieFree(n: nat, m: nat)
    requires m > 0 && Pow(10, m) > 0
    ensures 2 * (Pow(2, n) % Pow(10, m)) != Pow(10, m)
  {
    hide Pow;
    NegativePowerNoTie(n, m, Pow(2, n) / Pow(10, m));
    NotHalf(Pow(2, n), Pow(10, m));
  }

  lemma PositiveTieFree(t: Scaling, n: nat, e: nat)
    requires t.v > 0 && t.u == Pow(10, e) && t.v == Pow(2, n) && t.Done()
    ensures 2 * (t.u % t.v) != t.v
  {
    hide Pow;
    PositivePowerNoTie(n, e, 2 * t.Quotient() + 1);
    NotHalf(t.u, t.v);
  }

  lemma SmallStart(e: int)
    requires e < 0
    ensures Start(1, e).Quotient() < MIN_SIG
  {
    assert Pow(10, -e) == 10 * Pow(10, -e - 1);
    QuotientLess(1, Pow(10, -e), 1);
  }

  /** Two stopped states of one run are the same. */
  lemma StoppedStays(s: Scaling, m: nat, n: nat)
    requires s.Valid() && After(s, m).Done() && After(s, n).Done()
    ensures After(s, m) == After(s, n)
  {
    if m <= n {
      AfterAdd(s, m, n - m);
    } else {
      AfterAdd(s, n, m - n);
    }
  }

  /** What the generator asserts of every table entry, before the conversion to a Python float: for f = 1 and any e on which
      the loop stops, the rounding of 10^e is off by strictly less than half a unit in the last place. */
  lemma TableEntryBelowHalfUlp(e: int, z: Fp)
    requires !Stuck(Decimal(1, e)) && RoundsTo(Decimal(1, e), z)
    ensures Distance(Decimal(1, e), z) < TwoTo(z.exp) / 2.0
    ensures UlpError(1, e, z) < 0.5
  {
    var s, x := Start(1, e), Decimal(1, e);
    StartRepresents(1, e);
    var n := NotStuckHalts(s, x);
    AfterRepresents(s, n, x);
    var t := After(s, n);
    PowerOfTenNoTie(e, n);
    RatioWithinHalfUlp(t.u, t.v, t.k, 1, e);
    hide *;
    RoundsToUnique(x, z, RatioToFloat(t.u, t.v, t.k));
  }
}
