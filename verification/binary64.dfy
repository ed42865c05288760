/** The rounding of binary64: to the nearest number with a 53-bit significand, ties to even. The
    exponent is unbounded here; no value of the score formulas leaves the range of the format. */
module Binary64 {
  import opened ScoreArithmetic

  const HalfExact := 0x10_0000_0000_0000      // 2^52

  function Pow2(k: nat): (r: nat)
    ensures r > k
  {
    if k == 0 then 1 else 2 * Pow2(k - 1)
  }

  /** Two to the power e. */
  function Power(e: int): (r: real)
    ensures r > 0.0
    decreases if e < 0 then -e else e
  {
    if e == 0 then 1.0 else if e > 0 then 2.0 * Power(e - 1) else Power(e + 1) / 2.0
  }

  predicate Binade(x: real, e: int) {
    Power(e) <= x < Power(e + 1)
  }

  lemma PowerNext(e: int)
    ensures Power(e + 1) == 2.0 * Power(e)
  {
  }

  lemma {:induction false} PowerShift(e: int, k: nat)
    ensures Power(e + k) == Mul(Pow2(k) as real, Power(e))
  {
    if k > 0 {
      PowerShift(e, k - 1);
      PowerNext(e + k - 1);
      Doubled(Pow2(k) as real, Pow2(k - 1) as real, Power(e));
    }
  }

  lemma Doubled(a: real, b: real, c: real)
    requires a == 2.0 * b
    ensures Mul(a, c) == 2.0 * Mul(b, c)
  {
  }

  lemma {:induction false} Pow2Add(a: nat, b: nat)
    ensures Pow2(a + b) == Pow2(a) * Pow2(b)
  {
    if a > 0 {
      Pow2Add(a - 1, b);
      Twice(Pow2(a - 1), Pow2(b), Pow2(a));
    }
  }

  lemma Twice(x: int, y: int, z: int)
    requires z == 2 * x
    ensures z * y == 2 * (x * y)
  {
  }

  lemma SmallPowers()
    ensures Pow2(1) == 2 && Pow2(2) == 4 && Pow2(3) == 8 && Pow2(7) == 128 && Pow2(10) == 1024
  {
  }

  lemma Pow40()
    ensures Pow2(40) == 1099511627776
  {
    SmallPowers();
    Pow2Add(10, 10);
    Pow2Add(20, 20);
  }

  lemma Pow52()
    ensures Pow2(52) == HalfExact
  {
    SmallPowers();
    Pow40();
    Pow2Add(40, 10);
    Pow2Add(50, 2);
  }

  lemma Powers()
    ensures Pow2(47) == 140737488355328 && Pow2(52) == HalfExact && Pow2(53) == Exact
    ensures Pow2(55) == 36028797018963968 && Pow2(62) == Int64Limit / 2
  {
    SmallPowers();
    Pow40();
    Pow52();
    Pow2Add(40, 7);
    Pow2Add(52, 1);
    Pow2Add(52, 3);
    Pow2Add(52, 10);
  }

  lemma {:induction false} PowerMonotone(e: int, f: int)
    requires e <= f
    ensures Power(e) <= Power(f)
    decreases f - e
  {
    if e < f {
      PowerMonotone(e, f - 1);
      PowerNext(f - 1);
    }
  }

  lemma {:induction false} BinadeBetween(x: real, lo: int, hi: int)
    requires lo < hi && Power(lo) <= x < Power(hi)
    ensures exists e :: Binade(x, e)
    decreases hi - lo
  {
    if x < Power(lo + 1) {
      assert Binade(x, lo);
    } else {
      BinadeBetween(x, lo + 1, hi);
    }
  }

  /** Every positive number has an exponent. */
  lemma BinadeExists(x: real)
    requires x > 0.0
    ensures exists e :: Binade(x, e)
  {
    var hi := x.Floor + 1;
    PowerShift(0, hi);
    assert Power(0) == 1.0;
    assert Mul(Pow2(hi) as real, 1.0) == Pow2(hi) as real;
    assert x < hi as real < Pow2(hi) as real == Power(hi);
    var k := (1.0 / x).Floor + 1;
    PowerShift(-k, k);
    assert Mul(Pow2(k) as real, Power(-k)) == 1.0;
    AtLeastInverse(x, Pow2(k) as real, Power(-k));
    if x < Power(-k + hi + k) {
      BinadeBetween(x, -k, hi);
    }
  }

  lemma AtLeastInverse(x: real, p: real, s: real)
    requires x > 0.0 && 1.0 / x <= p && Mul(p, s) == 1.0
    ensures s <= x
  {
    assert 1.0 / x * x == 1.0;
    MultiplyMonotone(1.0 / x, p, x);
    if s > x {
      MultiplyStrict(x, s, p);
    }
  }

  lemma BinadeUnique(x: real, e: int, f: int)
    requires Binade(x, e) && Binade(x, f)
    ensures e == f
  {
    if e < f {
      PowerMonotone(e + 1, f);
    }
    if f < e {
      PowerMonotone(f + 1, e);
    }
  }

  ghost function Exponent(x: real): (e: int)
    requires x > 0.0
    ensures Binade(x, e)
  {
    BinadeExists(x);
    var e :| Binade(x, e);
    e
  }

  /** The nearest integer, ties to even. */
  function RoundEven(y: real): int {
    var n := y.Floor;
    var d := y - n as real;
    if d < 0.5 || (d == 0.5 && n % 2 == 0) then n else n + 1
  }

  lemma RoundEvenNear(y: real)
    ensures -0.5 <= RoundEven(y) as real - y <= 0.5
  {
  }

  lemma RoundEvenMonotone(x: real, y: real)
    requires x <= y
    ensures RoundEven(x) <= RoundEven(y)
  {
  }

  /** The spacing of the numbers in a binade. */
  function Ulp(e: int): (u: real)
    ensures u > 0.0
  {
    Power(e - 52)
  }

  // Products and quotients with a spacing, behind names.

  function Mul(a: real, u: real): real { a * u }

  function Over(x: real, u: real): real
    requires u > 0.0
  {
    x / u
  }

  lemma MulOver(x: real, u: real)
    requires u > 0.0
    ensures Mul(Over(x, u), u) == x
  {
  }

  lemma OverMul(a: real, u: real)
    requires u > 0.0
    ensures Over(Mul(a, u), u) == a
  {
  }

  lemma OverMonotone(x: real, y: real, u: real)
    requires u > 0.0 && x <= y
    ensures Over(x, u) <= Over(y, u)
  {
  }

  lemma MulMonotone(a: real, b: real, u: real)
    requires u > 0.0 && a <= b
    ensures Mul(a, u) <= Mul(b, u)
  {
  }

  lemma MulHalfMore(b: real, c: real, u: real)
    requires c == b + 0.5
    ensures Mul(c, u) == Mul(b, u) + 0.5 * u
  {
  }

  lemma HalfAbove(a: real, b: real, u: real)
    requires a <= b + 0.5 && u > 0.0
    ensures Mul(a, u) <= Mul(b, u) + 0.5 * u
  {
    MulHalfMore(b, b + 0.5, u);
    MulMonotone(a, b + 0.5, u);
  }

  lemma HalfBelow(a: real, b: real, u: real)
    requires a + 0.5 <= b && u > 0.0
    ensures Mul(a, u) + 0.5 * u <= Mul(b, u)
  {
    MulHalfMore(a, a + 0.5, u);
    MulMonotone(a + 0.5, b, u);
  }

  /** The multiple of the spacing u nearest to x. */
  function Grid(x: real, u: real): real
    requires u > 0.0
  {
    Mul(RoundEven(Over(x, u)) as real, u)
  }

  ghost function RoundPositive(x: real): real
    requires x > 0.0
  {
    Grid(x, Ulp(Exponent(x)))
  }

  ghost function Nearest(x: real): real {
    if x == 0.0 then 0.0 else if x > 0.0 then RoundPositive(x) else -RoundPositive(-x)
  }

  lemma UlpOf(e: int)
    ensures Power(e) == Mul(HalfExact as real, Ulp(e)) && Power(e + 1) == Mul(Exact as real, Ulp(e))
  {
    Powers();
    PowerShift(e - 52, 52);
    PowerNext(e);
  }

  lemma GridNear(x: real, u: real)
    requires u > 0.0
    ensures -0.5 * u <= Grid(x, u) - x <= 0.5 * u
  {
    var y := Over(x, u);
    RoundEvenNear(y);
    MulOver(x, u);
    HalfAbove(RoundEven(y) as real, y, u);
    HalfAbove(y, RoundEven(y) as real, u);
  }

  lemma GridMonotone(x: real, y: real, u: real)
    requires u > 0.0 && x <= y
    ensures Grid(x, u) <= Grid(y, u)
  {
    OverMonotone(x, y, u);
    RoundEvenMonotone(Over(x, u), Over(y, u));
    MulMonotone(RoundEven(Over(x, u)) as real, RoundEven(Over(y, u)) as real, u);
  }

  lemma GridKeeps(n: int, u: real, x: real)
    requires u > 0.0 && x == Mul(n as real, u)
    ensures Grid(x, u) == x
  {
    OverMul(n as real, u);
    assert RoundEven(n as real) == n;
  }

  lemma GridIs(x: real, u: real, n: int, z: real)
    requires u > 0.0 && z == Mul(n as real, u) && -0.5 * u < x - z < 0.5 * u
    ensures Grid(x, u) == z
  {
    var y := Over(x, u);
    MulOver(x, u);
    if y >= n as real + 0.5 {
      HalfBelow(n as real, y, u);
    }
    if y <= n as real - 0.5 {
      HalfBelow(y, n as real, u);
    }
    assert RoundEven(y) == n;
  }

  /** Rounding errs by at most half a spacing and stays within the binade and its end. */
  lemma PositiveBounds(x: real, e: int)
    requires Binade(x, e)
    ensures x > 0.0 && RoundPositive(x) == Grid(x, Ulp(e))
    ensures Power(e) <= RoundPositive(x) <= Power(e + 1)
  {
    assert Power(e) > 0.0;
    BinadeUnique(x, e, Exponent(x));
    UlpOf(e);
    GridKeeps(HalfExact, Ulp(e), Power(e));
    GridKeeps(Exact, Ulp(e), Power(e + 1));
    GridMonotone(Power(e), x, Ulp(e));
    GridMonotone(x, Power(e + 1), Ulp(e));
  }

  /** Half a spacing is one part in 2^53. */
  lemma PositiveNear(x: real)
    requires x > 0.0
    ensures Exact as real * Abs(RoundPositive(x) - x) <= x
  {
    var e := Exponent(x);
    UlpOf(e);
    PositiveBounds(x, e);
    GridNear(x, Ulp(e));
  }

  lemma PositiveMonotone(x: real, y: real)
    requires 0.0 < x <= y
    ensures RoundPositive(x) <= RoundPositive(y)
  {
    var e, f := Exponent(x), Exponent(y);
    PositiveBounds(x, e);
    PositiveBounds(y, f);
    if e == f {
      GridMonotone(x, y, Ulp(e));
    } else {
      Separated(x, y, e, f);
    }
  }

  lemma Separated(x: real, y: real, e: int, f: int)
    requires Binade(x, e) && Binade(y, f) && x <= y && e != f
    ensures Power(e + 1) <= Power(f)
  {
    if f < e {
      PowerMonotone(f + 1, e);
    }
    PowerMonotone(e + 1, f);
  }

  /** A number that is a whole count of spacings is kept. */
  lemma PositiveKeeps(x: real, e: int, n: int)
    requires Binade(x, e) && x == Mul(n as real, Ulp(e))
    ensures x > 0.0 && RoundPositive(x) == x
  {
    PositiveBounds(x, e);
    GridKeeps(n, Ulp(e), x);
  }

  /** Numbers with at most 53 significant bits are kept. */
  lemma KeepsShort(x: real, m: int, g: int)
    requires 0 < m <= Exact && x == Mul(m as real, Power(g))
    ensures x > 0.0 && RoundPositive(x) == x
  {
    MulPositive(m as real, Power(g));
    var e := Exponent(x);
    if e - 52 <= g {
      WithinGrid(x, m, g, e);
    } else {
      AtTheEnd(x, m, Power(g), g, e);
      UlpOf(e);
      PositiveKeeps(x, e, HalfExact);
    }
  }

  lemma WithinGrid(x: real, m: int, g: int, e: int)
    requires x == Mul(m as real, Power(g)) && Binade(x, e) && e - 52 <= g
    ensures x > 0.0 && RoundPositive(x) == x
  {
    var k := g - (e - 52);
    PowerShift(e - 52, k);
    Regroup(m, Pow2(k), Ulp(e), Power(g));
    PositiveKeeps(x, e, m * Pow2(k));
  }

  lemma MulPositive(a: real, b: real)
    requires a > 0.0 && b > 0.0
    ensures Mul(a, b) > 0.0
  {
  }

  /** With a larger exponent than the significand spans, the number is a power of two. */
  lemma AtTheEnd(x: real, m: int, s: real, g: int, e: int)
    requires 0 < m <= Exact && s == Power(g) && x == Mul(m as real, s) && Binade(x, e) && e - 52 > g
    ensures x == Power(e)
  {
    EndOf(g);
    PowerMonotone(g + 53, e);
    MulMonotone(m as real, Exact as real, s);
  }

  lemma EndOf(g: int)
    ensures Power(g + 53) == Mul(Exact as real, Power(g))
  {
    Powers();
    PowerShift(g, 53);
  }

  lemma Regroup(m: int, k: int, u: real, s: real)
    requires s == Mul(k as real, u)
    ensures Mul(m as real, s) == Mul((m * k) as real, u)
  {
    CastProduct(m, k);
    assert m as real * (k as real * u) == (m as real * k as real) * u;
  }

  // What ScoreArithmetic asks of a rounding.

  lemma NearestIsOrdered(x: real, y: real)
    ensures x <= y ==> Nearest(x) <= Nearest(y)
  {
    if x <= y {
      if x > 0.0 {
        PositiveMonotone(x, y);
      } else if y < 0.0 {
        PositiveMonotone(-y, -x);
      }
      if y > 0.0 {
        PositiveSign(y);
      }
      if x < 0.0 {
        PositiveSign(-x);
      }
    }
  }

  lemma PositiveSign(x: real)
    requires x > 0.0
    ensures RoundPositive(x) > 0.0
  {
    PositiveBounds(x, Exponent(x));
    assert Power(Exponent(x)) > 0.0;
  }

  lemma NearestIsNear(x: real)
    ensures Exact as real * Abs(Nearest(x) - x) <= Abs(x)
  {
    if x > 0.0 {
      PositiveNear(x);
    } else if x < 0.0 {
      PositiveNear(-x);
    }
  }

  lemma NearestKeeps(n: int)
    requires Fits(n)
    ensures Nearest(n as real / 2.0) == n as real / 2.0
  {
    if n > 0 {
      HalfKept(n);
    } else if n < 0 {
      HalfKept(-n);
      assert -(n as real / 2.0) == (-n) as real / 2.0;
    }
  }

  lemma HalfKept(n: int)
    requires n > 0 && Fits(n)
    ensures n as real / 2.0 > 0.0 && RoundPositive(n as real / 2.0) == n as real / 2.0
  {
    if n % 2 == 0 {
      assert Power(0) == 1.0;
      KeepsShort(n as real / 2.0, n / 2, 0);
    } else {
      PowerNext(-1);
      assert Power(0) == 1.0 && Power(-1) == 0.5;
      KeepsShort(n as real / 2.0, n, -1);
    }
  }

  lemma NearestKeepsLimit()
    ensures Nearest(Int64Limit as real / 2.0) == Int64Limit as real / 2.0
  {
    Powers();
    PowerShift(0, 62);
    KeepsShort(Int64Limit as real / 2.0, 1, 62);
  }

  ghost function Fl(): real -> real {
    (x: real) => Nearest(x)
  }

  /** Rounding to nearest has every property the arithmetic of scores uses. */
  lemma NearestRounds()
    ensures Rounds(Fl())
  {
    var fl := Fl();
    forall x: real, y: real
      ensures Ordered(fl, x, y)
    {
      NearestIsOrdered(x, y);
    }
    forall n: int | Fits(n)
      ensures Keeps(fl, n)
    {
      NearestKeeps(n);
    }
    forall x: real
      ensures Near(fl, x)
    {
      NearestIsNear(x);
    }
    NearestKeepsLimit();
  }

  /** The value of a rounding, from its binade and the integer nearest to its significand. */
  lemma NearestIs(x: real, e: int, n: int, z: real)
    requires Binade(x, e) && z == Mul(n as real, Ulp(e)) && -0.5 * Ulp(e) < x - z < 0.5 * Ulp(e)
    ensures Nearest(x) == z
  {
    PositiveBounds(x, e);
    GridIs(x, Ulp(e), n, z);
  }

  /** Quarters are kept. */
  lemma QuarterKept(n: int)
    requires -Exact <= n <= Exact
    ensures Nearest(n as real / 4.0) == n as real / 4.0
  {
    assert Power(-2) == 0.25;
    if n > 0 {
      assert Mul(n as real, Power(-2)) == n as real / 4.0;
      KeepsShort(n as real / 4.0, n, -2);
    } else if n < 0 {
      assert Mul((-n) as real, Power(-2)) == (-n) as real / 4.0;
      KeepsShort((-n) as real / 4.0, -n, -2);
      assert -(n as real / 4.0) == (-n) as real / 4.0;
    }
  }

  /** For a percentage that is a multiple of 25 every rounding on the way is exact. */
  lemma QuarterProduct(s: int, q: int)
    requires 0 < s <= 100 && -4 < q <= 36
    ensures Product(Fl(), s, 25 * q) == (s * (4 + q)) as real / 4.0
  {
    NearestRounds();
    KeepsInt(Fl(), s);
    KeepsInt(Fl(), 25 * q);
    QuarterKept(q);
    QuarterKept(4 + q);
    assert (25 * q) as real / 100.0 == q as real / 4.0;
    assert 1.0 + q as real / 4.0 == (4 + q) as real / 4.0;
    assert Factor(Fl(), 25 * q) == (4 + q) as real / 4.0;
    QuarterTimes(s, 4 + q);
  }

  lemma QuarterTimes(s: int, k: int)
    requires 0 < s <= 100 && 0 < k <= 40
    ensures Times(Fl(), s as real, k as real / 4.0) == (s * k) as real / 4.0
  {
    SmallInts(s, k);
    CastProduct(s, k);
    QuarterOf(s as real, k as real);
    QuarterKept(s * k);
  }

  lemma SmallInts(s: int, k: int)
    requires 0 < s <= 100 && 0 < k <= 40
    ensures 0 < s * k <= 4000
  {
    assert s * k <= 100 * k;
  }

  lemma QuarterOf(x: real, y: real)
    ensures x * (y / 4.0) == (x * y) / 4.0
  {
  }

  /** A percentage that is a multiple of 25 scales exactly as half-up does, at ties as well. */
  lemma QuartersScaleExactly(wild: int -> int, s: int, p: int)
    requires 0 < s <= 100 && -100 < p <= 900 && p % 25 == 0
    ensures ScaleScore(Machine(Fl(), wild), s, p) == ExactScale(s, p)
  {
    var q := p / 25;
    assert p == 25 * q;
    QuarterProduct(s, q);
    SmallInts(s, 4 + q);
    QuarterRound(s * (4 + q));
    HundredQuarters(s, q);
  }

  lemma QuarterRound(m: int)
    requires 0 < m <= 4000
    ensures Round(m as real / 4.0) == (m + 2) / 4
  {
    RoundIs(m as real / 4.0, (m + 2) / 4);
  }

  lemma HundredQuarters(s: int, q: int)
    ensures (s * (100 + 25 * q) + 50) / 100 == (s * (4 + q) + 2) / 4
    ensures q == 0 ==> (s * (4 + q) + 2) / 4 == s
  {
    var m := s * (4 + q);
    assert s * (100 + 25 * q) == 25 * m;
    assert 25 * m + 50 == 25 * (m + 2);
  }

  /** Scaling 50 by 15 percent is a tie, 57.5, and binary64 answers 57 where half-up is 58. */
  lemma BinaryTieRoundsDown(wild: int -> int)
    ensures ScaleScore(Machine(Fl(), wild), 50, 15) == 57 && ExactScale(50, 15) == 58
  {
    FirstRounding();
    SecondRounding();
    ThirdRounding();
    NearestRounds();
    TieRoundsDown(Machine(Fl(), wild));
  }

  lemma FirstRounding()
    ensures Nearest(0.15) == 5404319552844595.0 / 36028797018963968.0
  {
    Powers();
    Spacing(-3, 55, 36028797018963968);
    assert Power(-3) == 0.125 && Power(-2) == 0.25;
    NearestIs(0.15, -3, 5404319552844595, 5404319552844595.0 / 36028797018963968.0);
  }

  lemma SecondRounding()
    ensures Nearest(1.0 + 5404319552844595.0 / 36028797018963968.0) == 2589569785738035.0 / 2251799813685248.0
  {
    Powers();
    Spacing(0, 52, HalfExact);
    assert Power(0) == 1.0 && Power(1) == 2.0;
    NearestIs(1.0 + 5404319552844595.0 / 36028797018963968.0, 0, 5179139571476070, 2589569785738035.0 / 2251799813685248.0);
  }

  lemma ThirdRounding()
    ensures Nearest(50.0 * (2589569785738035.0 / 2251799813685248.0)) == 8092405580431359.0 / 140737488355328.0
  {
    Powers();
    Spacing(5, 47, 140737488355328);
    assert Power(5) == 32.0 && Power(6) == 64.0;
    NearestIs(50.0 * (2589569785738035.0 / 2251799813685248.0), 5, 8092405580431359, 8092405580431359.0 / 140737488355328.0);
  }

  lemma Spacing(e: int, k: nat, p: nat)
    requires e - 52 + k == 0 && p == Pow2(k)
    ensures Ulp(e) == 1.0 / p as real
  {
    PowerShift(e - 52, k);
    assert Power(0) == 1.0;
    Reciprocal(p as real, Ulp(e));
  }

  lemma Reciprocal(p: real, s: real)
    requires p > 0.0 && Mul(p, s) == 1.0
    ensures s == 1.0 / p
  {
  }
}
