/** The arithmetic of scores. Every floating operation is the exact one followed by a rounding
    `fl`, of which only `Rounds` is used; that binary64 has it is proved in binary64.dfy. */
module ScoreArithmetic {
  const Exact := 0x20_0000_0000_0000      // 2^53
  const Int64Limit := 0x8000_0000_0000_0000
  const DefaultThreshold := 5

  /** A machine: its rounding, and what it makes of a float beyond the range of an int. */
  datatype Machine = Machine(fl: real -> real, wild: int -> int)

  /** n/2 has at most 53 significant bits: integers up to 2^53, other halves up to 2^52. */
  predicate Fits(n: int) {
    -2 * Exact <= n <= 2 * Exact && (n % 2 == 0 || -Exact <= n <= Exact)
  }

  /** Rounding is monotone, keeps the integers and halves that fit, and errs by one part in 2^53. */
  ghost predicate Rounds(fl: real -> real) {
    && (forall x: real, y: real :: Ordered(fl, x, y))
    && (forall n: int :: Fits(n) ==> Keeps(fl, n))
    && (forall x: real :: Normal(x) ==> Near(fl, x))
    && fl(Int64Limit as real / 2.0) == Int64Limit as real / 2.0
  }

  ghost predicate Ordered(fl: real -> real, x: real, y: real) {
    x <= y ==> fl(x) <= fl(y)
  }

  ghost predicate Keeps(fl: real -> real, n: int) {
    fl(n as real / 2.0) == n as real / 2.0
  }

  predicate Normal(x: real) {
    Exact as real * Abs(x) >= 1.0
  }

  ghost predicate Near(fl: real -> real, x: real) {
    Exact as real * Abs(fl(x) - x) <= Abs(x)
  }

  function Abs(x: real): real { if x < 0.0 then -x else x }

  /** Half away from zero. */
  function Round(x: real): int {
    if x >= 0.0 then (x + 0.5).Floor else -((0.5 - x).Floor)
  }

  function ToInt(m: Machine, n: int): int {
    if -Int64Limit <= n < Int64Limit then n else m.wild(n)
  }

  function Min(a: int, b: int): int { if a <= b then a else b }

  function Max(a: int, b: int): int { if a <= b then b else a }

  function EffectiveThreshold(threshold: int): int {
    if threshold <= 0 then DefaultThreshold else threshold
  }

  /** What Calibrate computes before it rounds. */
  function Raw(fl: real -> real, anomaly: int, threshold: int): real
    requires fl(threshold as real) != 0.0
  {
    fl(fl(fl(100.0 * fl(anomaly as real)) / fl(threshold as real)) / 2.0)
  }

  /** A threshold is at least one, so a rounding never makes it zero; the guard is for other `fl`. */
  function Calibrate(m: Machine, anomaly: int, threshold: int): int {
    if anomaly <= 0 || m.fl(EffectiveThreshold(threshold) as real) == 0.0 then 0
    else Min(ToInt(m, Round(Raw(m.fl, anomaly, EffectiveThreshold(threshold)))), 100)
  }

  function ScaleScore(m: Machine, score: int, percent: int): int {
    if percent == 0 || score <= 0 then Max(score, 0)
    else Min(Max(ToInt(m, Round(Product(m.fl, score, percent))), 0), 100)
  }

  function Product(fl: real -> real, score: int, percent: int): real {
    Times(fl, fl(score as real), Factor(fl, percent))
  }

  function Times(fl: real -> real, x: real, y: real): real {
    fl(x * y)
  }

  function Factor(fl: real -> real, percent: int): real {
    fl(1.0 + fl(fl(percent as real) / 100.0))
  }

  /** Calibration without floats: 50 * anomaly / threshold, half up, at most 100. */
  function ExactCalibrate(anomaly: nat, threshold: int): int
    requires threshold > 0
  {
    Min((100 * anomaly + threshold) / (2 * threshold), 100)
  }

  // Rounding to an integer.

  lemma RoundMonotone(x: real, y: real)
    requires x <= y
    ensures Round(x) <= Round(y)
  {
  }

  lemma RoundBounds(x: real, lo: int, hi: int)
    requires lo as real <= x <= hi as real
    ensures lo <= Round(x) <= hi
  {
  }

  lemma RoundIs(x: real, n: int)
    requires n as real - 0.5 <= x < n as real + 0.5 && x >= 0.0
    ensures Round(x) == n
  {
  }

  lemma KeepsInt(fl: real -> real, n: int)
    requires Rounds(fl) && -Exact <= n <= Exact
    ensures fl(n as real) == n as real
  {
    assert Keeps(fl, 2 * n);
    assert (2 * n) as real / 2.0 == n as real;
  }

  lemma DivideMonotone(x: real, y: real, c: real)
    requires x <= y && c > 0.0
    ensures x / c <= y / c
  {
  }

  lemma DivideAntitone(x: real, c: real, d: real)
    requires x >= 0.0 && 0.0 < c <= d
    ensures x / d <= x / c
  {
    assert x / d * d == x;
    assert x / c * c == x;
    if x / d > x / c {
      MultiplyStrict(x / c, x / d, d);
      MultiplyMonotone(c, d, x / c);
    }
  }

  lemma MultiplyMonotone(x: real, y: real, c: real)
    requires x <= y && c >= 0.0
    ensures x * c <= y * c && c * x <= c * y
  {
  }

  lemma MultiplyStrict(x: real, y: real, c: real)
    requires x < y && c > 0.0
    ensures x * c < y * c
  {
  }

  // Calibration.

  lemma Monotone(fl: real -> real, x: real, y: real)
    requires Rounds(fl) && x <= y
    ensures fl(x) <= fl(y)
  {
    assert Ordered(fl, x, y);
  }

  lemma QuotientMonotone(x: real, y: real, c: real, d: real)
    requires 0.0 <= x <= y && 0.0 < d <= c
    ensures 0.0 <= x / c <= y / d
  {
    DivideMonotone(0.0, x, c);
    DivideMonotone(x, y, c);
    DivideAntitone(y, d, c);
  }

  /** More anomaly, or a lower threshold, never makes the raw value smaller. */
  lemma RawMonotone(fl: real -> real, a: int, b: int, s: int, t: int)
    requires Rounds(fl) && 0 <= a <= b && 0 < t <= s
    ensures 0.0 < fl(t as real) <= fl(s as real)
    ensures 0.0 <= Raw(fl, a, s) <= Raw(fl, b, t)
  {
    KeepsInt(fl, 0);
    KeepsInt(fl, 1);
    Monotone(fl, 1 as real, t as real);
    Monotone(fl, t as real, s as real);
    Monotone(fl, 0 as real, a as real);
    Monotone(fl, a as real, b as real);
    Monotone(fl, 0 as real, 100.0 * fl(a as real));
    Monotone(fl, 100.0 * fl(a as real), 100.0 * fl(b as real));
    var x, y := fl(100.0 * fl(a as real)), fl(100.0 * fl(b as real));
    var c, d := fl(s as real), fl(t as real);
    QuotientMonotone(x, y, c, d);
    Monotone(fl, 0 as real, x / c);
    Monotone(fl, x / c, y / d);
    Monotone(fl, 0 as real, fl(x / c) / 2.0);
    Monotone(fl, fl(x / c) / 2.0, fl(y / d) / 2.0);
  }

  /** With anomaly scores that fit a float exactly, the conversion to int is in range. */
  lemma RawFits(fl: real -> real, a: int, t: int)
    requires Rounds(fl) && 0 <= a <= Exact && 0 < t
    ensures fl(t as real) > 0.0
    ensures 0 <= Round(Raw(fl, a, t)) < Int64Limit
  {
    KeepsInt(fl, 1);
    KeepsInt(fl, a);
    RawMonotone(fl, a, a, t, 1);
    var limit := Int64Limit as real / 2.0;
    assert 100.0 * a as real <= limit;
    Monotone(fl, 100.0 * a as real, limit);
    var x := fl(100.0 * a as real);
    assert x / fl(1 as real) == x;
    Monotone(fl, x, limit);
    KeepsInt(fl, 0);
    Monotone(fl, 0 as real, 100.0 * a as real);
    Monotone(fl, 0 as real, x);
    Monotone(fl, fl(x) / 2.0, limit);
    RoundBounds(Raw(fl, a, t), 0, Int64Limit / 2);
  }

  lemma CalibrateRange(m: Machine, anomaly: int, threshold: int)
    requires Rounds(m.fl) && anomaly <= Exact
    ensures 0 <= Calibrate(m, anomaly, threshold) <= 100
  {
    if anomaly > 0 {
      RawFits(m.fl, anomaly, EffectiveThreshold(threshold));
    }
  }

  /** More anomaly or a lower threshold never lowers the calibrated score. */
  lemma CalibrateMonotone(m: Machine, a: int, b: int, s: int, t: int)
    requires Rounds(m.fl) && a <= b <= Exact && 0 < t <= s
    ensures Calibrate(m, a, s) <= Calibrate(m, b, t)
  {
    CalibrateRange(m, b, t);
    if a > 0 {
      RawFits(m.fl, a, s);
      RawFits(m.fl, b, t);
      RawMonotone(m.fl, a, b, s, t);
      RoundMonotone(Raw(m.fl, a, s), Raw(m.fl, b, t));
    }
  }

  /** Two roundings in a row lose less than three parts in 2^53. */
  lemma TwoRoundings(fl: real -> real, x: real)
    requires Rounds(fl) && Exact as real * x >= 4.0
    ensures Exact as real * (2.0 * fl(fl(x) / 2.0) - x) <= 3.0 * x
  {
    var y := fl(x) / 2.0;
    assert Near(fl, x);
    var e := Exact as real;
    assert e * fl(x) <= (e + 1.0) * x;
    assert e * fl(x) >= (e - 1.0) * x;
    assert Normal(y) by {
      assert e * fl(x) >= e * x - x;
      assert x * e >= 2.0 * x + 2.0;
    }
    assert Near(fl, y);
    assert e * fl(y) <= (e + 1.0) * y;
    assert e * (2.0 * fl(y)) <= (e + 1.0) * fl(x);
    assert fl(x) <= 2.0 * x;
  }

  /** For every anomaly score below 2^53/300 the floating formula is exact: it is half-up
      rounding of 50 * anomaly / threshold in whole numbers. */
  lemma CalibrateIsExact(m: Machine, a: int, t: int)
    requires Rounds(m.fl) && 0 < a && 300 * a < Exact && 0 < t <= Exact
    ensures Calibrate(m, a, t) == ExactCalibrate(a, t)
  {
    var fl, q := m.fl, (100 * a + t) / (2 * t);
    KeepsInt(fl, a);
    KeepsInt(fl, t);
    KeepsInt(fl, 100 * a);
    assert 100.0 * a as real == (100 * a) as real;
    var x := (100 * a) as real / t as real;
    assert Raw(fl, a, t) == fl(fl(x) / 2.0);
    var _, u := QuotientBounds(a, t);
    Expand(q, t);
    BelowQuotient(2 * q - 1, 100 * a, t);
    RawBelow(fl, a, t, q, x);
    RawAbove(fl, q, x);
    RawMonotone(fl, a, a, t, t);
    RoundIs(Raw(fl, a, t), q);
    RawFits(fl, a, t);
  }

  /** The quotient in exact calibration, with its product by the threshold. */
  lemma QuotientBounds(a: int, t: int) returns (q: int, u: int)
    requires 0 < a && 0 < t
    ensures q == (100 * a + t) / (2 * t) && u == q * t
    ensures 2 * u - t <= 100 * a < 2 * u + t
    ensures 0 <= q <= 100 * a
  {
    q := (100 * a + t) / (2 * t);
    u := q * t;
    DivisionBounds(100 * a + t, 2 * t, q);
    Expand(q, t);
    Grows(q, t, u);
  }

  lemma DivisionBounds(n: int, d: int, q: int)
    requires 0 < n && 0 < d && q == n / d
    ensures 0 <= q && q * d <= n < q * d + d
  {
  }

  lemma Grows(q: int, t: int, u: int)
    requires 0 < t && 0 <= q && u == q * t
    ensures u >= q && (q >= 1 ==> u >= t)
  {
  }

  lemma Expand(q: int, t: int)
    ensures q * (2 * t) == 2 * (q * t)
    ensures (2 * q - 1) * t == 2 * (q * t) - t
    ensures (2 * q + 1) * t == 2 * (q * t) + t
  {
  }

  lemma BelowQuotient(k: int, n: int, d: int)
    requires 0 < d && k * d <= n
    ensures k as real <= n as real / d as real
  {
    var x := n as real / d as real;
    assert x * d as real == n as real;
    if k as real > x {
      MultiplyStrict(x, k as real, d as real);
    }
  }

  lemma RawAbove(fl: real -> real, q: int, x: real)
    requires Rounds(fl) && 0 <= 3 * q <= Exact && (2 * q - 1) as real <= x
    ensures q as real - 0.5 <= fl(fl(x) / 2.0)
  {
    KeepsInt(fl, 2 * q - 1);
    Monotone(fl, (2 * q - 1) as real, x);
    assert Keeps(fl, 2 * q - 1);
    Monotone(fl, (2 * q - 1) as real / 2.0, fl(x) / 2.0);
  }

  lemma RawBelow(fl: real -> real, a: int, t: int, q: int, x: real)
    requires Rounds(fl) && 0 < a && 300 * a < Exact && 0 < t <= Exact
    requires x == (100 * a) as real / t as real && 100 * a < (2 * q + 1) * t
    ensures fl(fl(x) / 2.0) < q as real + 0.5
  {
    var e, z := Exact as real, fl(fl(x) / 2.0);
    LargeEnough(100 * a, t);
    TwoRoundings(fl, x);
    CastProduct(2 * q + 1, t);
    assert x * t as real == (100 * a) as real;
    BelowTie(e, 2.0 * z, x, t as real, (100 * a) as real, (2 * q + 1) as real, ((2 * q + 1) * t) as real);
  }

  lemma LargeEnough(n: int, t: int)
    requires 4 <= n && 0 < t <= Exact
    ensures Exact as real * (n as real / t as real) >= 4.0
  {
    var e := Exact as real;
    DivideAntitone(n as real, t as real, e);
    assert n as real / e * e == n as real;
    MultiplyMonotone(n as real / e, n as real / t as real, e);
  }

  /** Multiplied through by the divisor, the gap to the next tie is below one unit. */
  lemma GapBelowOne(e: real, g: real, x: real, d: real, n: real, h: real)
    requires 0.0 < d && x * d == n && h == g * d
    requires e * g <= 3.0 * x && 0.0 < 3.0 * n < e
    ensures h < 1.0
  {
    Scaled(e, g, x, d, n, h);
    assert h >= 1.0 ==> e * h >= e;
  }

  lemma Scaled(e: real, g: real, x: real, d: real, n: real, h: real)
    requires e * g <= 3.0 * x && d > 0.0 && x * d == n && h == g * d
    ensures e * h <= 3.0 * n
  {
    assert e * g * d <= 3.0 * x * d;
    assert e * g * d == e * h;
  }

  lemma BelowTie(e: real, w: real, x: real, d: real, n: real, k: real, kd: real)
    requires 0.0 < d && x * d == n && k * d == kd && n + 1.0 <= kd
    requires e * (w - x) <= 3.0 * x && 0.0 < 3.0 * n < e
    ensures w < k
  {
    var g := w - x;
    GapBelowOne(e, g, x, d, n, g * d);
    assert g * d == w * d - n;
    assert w >= k ==> w * d >= k * d;
  }

  /** An anomaly score at its threshold is worth 50; at twice the threshold, everything. */
  lemma CalibrateLandmarks(m: Machine, a: int, t: int)
    requires Rounds(m.fl) && 0 < a && 300 * a < Exact && 0 < t <= Exact
    ensures a == t ==> Calibrate(m, a, t) == 50
    ensures a >= t ==> Calibrate(m, a, t) >= 50
    ensures Calibrate(m, a, t) == 100 <==> 100 * a >= 199 * t
    ensures Calibrate(m, a, t) == 0 <==> 100 * a < t
  {
    CalibrateIsExact(m, a, t);
    var q, u := Landmarks(a, t);
  }

  /** A threshold that is not set, or makes no sense, is 5; no anomalies are worth nothing. */
  lemma CalibrateDefaults(m: Machine, a: int, t: int)
    ensures t <= 0 ==> Calibrate(m, a, t) == Calibrate(m, a, 5)
    ensures a <= 0 ==> Calibrate(m, a, t) == 0
  {
  }

  lemma Landmarks(a: int, t: int) returns (q: int, u: int)
    requires 0 < a && 0 < t
    ensures ExactCalibrate(a, t) == Min(q, 100)
    ensures 2 * u - t <= 100 * a < 2 * u + t
    ensures 0 <= q && if q < 1 then u <= 0 else u >= t
    ensures if q < 50 then u <= 49 * t else u >= 50 * t
    ensures if q < 51 then u <= 50 * t else u >= 51 * t
    ensures if q < 100 then u <= 99 * t else u >= 100 * t
  {
    q, u := QuotientBounds(a, t);
    Compare(q, t, u);
    CompareEnds(q, t, u);
  }

  lemma Compare(q: int, t: int, u: int)
    requires t > 0 && u == q * t
    ensures if q < 50 then u <= 49 * t else u >= 50 * t
    ensures if q < 51 then u <= 50 * t else u >= 51 * t
  {
  }

  lemma CompareEnds(q: int, t: int, u: int)
    requires t > 0 && u == q * t
    ensures if q < 1 then u <= 0 else u >= t
    ensures if q < 100 then u <= 99 * t else u >= 100 * t
  {
  }

  // Scaling.

  lemma FactorMonotone(fl: real -> real, p: int, q: int)
    requires Rounds(fl) && -100 <= p <= q <= 900
    ensures 0.0 <= Factor(fl, p) <= Factor(fl, q) <= 10.0
    ensures p == -100 ==> Factor(fl, p) == 0.0
    ensures p <= 0 ==> Factor(fl, p) <= 1.0
    ensures q >= 0 ==> Factor(fl, q) >= 1.0
  {
    KeepsInt(fl, p);
    KeepsInt(fl, q);
    KeepsInt(fl, -1);
    KeepsInt(fl, 0);
    KeepsInt(fl, 1);
    KeepsInt(fl, 9);
    KeepsInt(fl, 10);
    var x, y := p as real / 100.0, q as real / 100.0;
    Monotone(fl, (-1) as real, x);
    Monotone(fl, x, y);
    Monotone(fl, y, 9 as real);
    Monotone(fl, 0 as real, 1.0 + fl(x));
    Monotone(fl, 1.0 + fl(x), 1.0 + fl(y));
    Monotone(fl, 1.0 + fl(y), 10 as real);
    if p <= 0 {
      Monotone(fl, x, 0 as real);
      Monotone(fl, 1.0 + fl(x), 1 as real);
    }
    if q >= 0 {
      Monotone(fl, 0 as real, y);
      Monotone(fl, 1 as real, 1.0 + fl(y));
    }
  }

  lemma ScaledBounds(s: real, t: real, f: real, g: real, x: real, y: real)
    requires 0.0 < s <= t <= 100.0 && 0.0 <= f <= g <= 10.0 && x == s * f && y == t * g
    ensures 0.0 <= x <= y <= 1000.0
    ensures f <= 1.0 ==> x <= s
    ensures g >= 1.0 ==> y >= t
  {
    BothLarger(s, t, f, g);
    Tenfold(g, t);
    NonNegative(s, f);
    if f <= 1.0 {
      AtMostOnce(s, f);
    }
    if g >= 1.0 {
      AtLeastOnce(t, g);
    }
  }

  lemma BothLarger(s: real, t: real, f: real, g: real)
    requires 0.0 <= s <= t && 0.0 <= f <= g
    ensures s * f <= t * g
  {
    assert s * f <= s * g;
    assert s * g <= t * g;
  }

  lemma NonNegative(x: real, y: real)
    requires x >= 0.0 && y >= 0.0
    ensures x * y >= 0.0
  {
  }

  lemma Tenfold(g: real, t: real)
    requires g <= 10.0 && t >= 0.0
    ensures t * g <= 10.0 * t
  {
  }

  lemma AtMostOnce(s: real, f: real)
    requires f <= 1.0 && s >= 0.0
    ensures s * f <= s
  {
  }

  lemma AtLeastOnce(t: real, g: real)
    requires g >= 1.0 && t >= 0.0
    ensures t * g >= t
  {
  }

  lemma ProductMonotone(fl: real -> real, s: int, t: int, p: int, q: int)
    requires Rounds(fl) && 0 < s <= t <= 100 && -100 <= p <= q <= 900
    ensures 0.0 <= Product(fl, s, p) <= Product(fl, t, q) <= 1000.0
    ensures p == -100 ==> Product(fl, s, p) == 0.0
    ensures p <= 0 ==> Product(fl, s, p) <= s as real
    ensures q >= 0 ==> Product(fl, t, q) >= t as real
  {
    KeepsInt(fl, s);
    KeepsInt(fl, t);
    FactorMonotone(fl, p, q);
    TimesMonotone(fl, s, t, Factor(fl, p), Factor(fl, q));
  }

  lemma TimesMonotone(fl: real -> real, s: int, t: int, f: real, g: real)
    requires Rounds(fl) && 0 < s <= t <= 100 && 0.0 <= f <= g <= 10.0
    ensures 0.0 <= Times(fl, s as real, f) <= Times(fl, t as real, g) <= 1000.0
    ensures f == 0.0 ==> Times(fl, s as real, f) == 0.0
    ensures f <= 1.0 ==> Times(fl, s as real, f) <= s as real
    ensures g >= 1.0 ==> Times(fl, t as real, g) >= t as real
  {
    var x, y := s as real * f, t as real * g;
    ScaledBounds(s as real, t as real, f, g, x, y);
    RoundedBounds(fl, s, t, x, y);
    TimesIs(fl, s as real, f, x);
    TimesIs(fl, t as real, g, y);
    if f == 0.0 {
      assert x == 0.0;
    }
  }

  lemma TimesIs(fl: real -> real, c: real, f: real, x: real)
    requires x == c * f
    ensures Times(fl, c, f) == fl(x)
  {
  }

  lemma RoundedBounds(fl: real -> real, s: int, t: int, x: real, y: real)
    requires Rounds(fl) && 0 < s <= t <= 100 && 0.0 <= x <= y <= 1000.0
    ensures 0.0 <= fl(x) <= fl(y) <= 1000.0
    ensures x == 0.0 ==> fl(x) == 0.0
    ensures x <= s as real ==> fl(x) <= s as real
    ensures y >= t as real ==> fl(y) >= t as real
  {
    KeepsInt(fl, s);
    KeepsInt(fl, t);
    KeepsInt(fl, 0);
    KeepsInt(fl, 1000);
    Monotone(fl, 0 as real, x);
    Monotone(fl, x, y);
    Monotone(fl, y, 1000 as real);
    if x <= s as real {
      Monotone(fl, x, s as real);
    }
    if y >= t as real {
      Monotone(fl, t as real, y);
    }
  }

  lemma ScaleRange(m: Machine, score: int, percent: int)
    requires score <= 100
    ensures 0 <= ScaleScore(m, score, percent) <= 100
  {
  }

  /** Scaling is monotone in the score and in the percentage, also across zero percent where
      the code takes another branch. */
  lemma ScaleMonotone(m: Machine, s: int, t: int, p: int, q: int)
    requires Rounds(m.fl) && s <= t <= 100 && -100 <= p <= q <= 900
    ensures ScaleScore(m, s, p) <= ScaleScore(m, t, q)
  {
    if s > 0 {
      ProductMonotone(m.fl, s, t, p, q);
      RoundMonotone(Product(m.fl, s, p), Product(m.fl, t, q));
      RoundBounds(Product(m.fl, s, p), 0, 1000);
      RoundBounds(Product(m.fl, t, q), 0, 1000);
      if p <= 0 {
        RoundBounds(Product(m.fl, s, p), 0, s);
      }
      if q >= 0 {
        RoundBounds(Product(m.fl, t, q), t, 1000);
      }
    }
  }

  /** A raise never lowers a score, a cut never raises it, and a full cut removes it. */
  lemma ScaleDirection(m: Machine, s: int, p: int)
    requires Rounds(m.fl) && 0 <= s <= 100 && -100 <= p <= 900
    ensures p >= 0 ==> ScaleScore(m, s, p) >= s
    ensures p <= 0 ==> ScaleScore(m, s, p) <= s
    ensures p == -100 ==> ScaleScore(m, s, p) == 0
  {
    assert ScaleScore(m, s, 0) == s;
    ScaleMonotone(m, s, s, if p >= 0 then 0 else p, if p >= 0 then p else 0);
    if s > 0 && p == -100 {
      ProductMonotone(m.fl, s, s, p, p);
      RoundIs(Product(m.fl, s, p), 0);
    }
  }

  /** Scaling without floats: half up, at most 100. */
  function ExactScale(score: int, percent: int): int {
    Min((score * (100 + percent) + 50) / 100, 100)
  }

  /** Away from exact ties, scaling is half-up rounding in whole numbers. */
  lemma ScaleIsExact(m: Machine, s: int, p: int)
    requires Rounds(m.fl) && 0 < s <= 100 && -100 < p <= 900
    requires s * (100 + p) % 100 != 50
    ensures ScaleScore(m, s, p) == ExactScale(s, p)
  {
    var k := s * (100 + p);
    if p == 0 {
      assert (k + 50) / 100 == s;
    } else {
      ProductNear(m.fl, s, p);
      ProductMonotone(m.fl, s, s, p, p);
      assert 0 < k;
      NearestInteger(Product(m.fl, s, p), k);
      RoundBounds(Product(m.fl, s, p), 0, 1000);
    }
  }

  /** At every exact tie the result is the half-up one or one lower, so it is never more than one
      off, and only downwards. */
  lemma ScaleAtTies(m: Machine, s: int, p: int)
    requires Rounds(m.fl) && 0 < s <= 100 && -100 < p <= 900
    requires s * (100 + p) % 100 == 50
    ensures ExactScale(s, p) - 1 <= ScaleScore(m, s, p) <= ExactScale(s, p)
  {
    var k := s * (100 + p);
    assert p != 0;
    ProductNear(m.fl, s, p);
    ProductMonotone(m.fl, s, s, p, p);
    TieNeighbours(Product(m.fl, s, p), k);
    RoundBounds(Product(m.fl, s, p), 0, 1000);
  }

  lemma TieNeighbours(z: real, k: int)
    requires k % 100 == 50
    requires 0.0 <= z && k as real - 0.2 <= 100.0 * z <= k as real + 0.2
    ensures (k + 50) / 100 - 1 <= Round(z) <= (k + 50) / 100
  {
    var n := (k + 50) / 100;
    assert k == 100 * n - 50;
    if z < n as real - 0.5 {
      RoundIs(z, n - 1);
    } else {
      RoundIs(z, n);
    }
  }

  lemma NearestInteger(z: real, k: int)
    requires 0 < k && k % 100 != 50
    requires 0.0 <= z && k as real - 0.2 <= 100.0 * z <= k as real + 0.2
    ensures Round(z) == (k + 50) / 100
  {
    var n := (k + 50) / 100;
    assert 100 * n <= k + 50 < 100 * n + 100;
    assert 100 * n - 49 <= k <= 100 * n + 49;
    RoundIs(z, n);
  }

  /** The floating product is the exact one to a thousandth. */
  lemma ProductNear(fl: real -> real, s: int, p: int)
    requires Rounds(fl) && 0 < s <= 100 && -100 < p <= 900 && p != 0
    ensures (s * (100 + p)) as real - 0.2 <= 100.0 * Product(fl, s, p) <= (s * (100 + p)) as real + 0.2
  {
    KeepsInt(fl, s);
    FactorNear(fl, p);
    TimesNear(fl, s, p, 1.0 + p as real / 100.0, Factor(fl, p));
  }

  lemma TimesNear(fl: real -> real, s: int, p: int, x: real, f: real)
    requires Rounds(fl) && 0 < s <= 100 && -100 < p <= 900 && x == 1.0 + p as real / 100.0
    requires x - 0.00001 <= f <= x + 0.00001
    ensures (s * (100 + p)) as real - 0.2 <= 100.0 * Times(fl, s as real, f) <= (s * (100 + p)) as real + 0.2
  {
    Widened(x, f, s as real);
    ExactProduct(s, p, x);
    CloseBy(fl, s as real, f, s * (100 + p));
  }

  lemma CloseBy(fl: real -> real, c: real, f: real, k: int)
    requires Rounds(fl) && 1 <= k <= 100000 && k as real - 0.1 <= 100.0 * (c * f) <= k as real + 0.1
    ensures k as real - 0.2 <= 100.0 * Times(fl, c, f) <= k as real + 0.2
  {
    RoundsNear(fl, c * f);
  }

  lemma ExactProduct(s: int, p: int, x: real)
    requires 0 < s <= 100 && -100 < p <= 900 && x == 1.0 + p as real / 100.0
    ensures 100.0 * (s as real * x) == (s * (100 + p)) as real
    ensures 1 <= s * (100 + p) <= 100000
  {
    RealProduct(s, 100 + p, x);
    ProductBounds(s, 100 + p);
  }

  lemma ProductBounds(s: int, k: int)
    requires 0 < s <= 100 && 0 < k <= 1000
    ensures 1 <= s * k <= 100000
  {
    assert s * k <= 100 * k;
  }

  lemma RealProduct(s: int, k: int, x: real)
    requires 100.0 * x == k as real
    ensures 100.0 * (s as real * x) == (s * k) as real
  {
    assert 100.0 * (s as real * x) == s as real * (100.0 * x);
    CastProduct(s, k);
  }

  lemma CastProduct(s: int, k: int)
    ensures s as real * k as real == (s * k) as real
  {
  }

  lemma Widened(x: real, f: real, c: real)
    requires x - 0.00001 <= f <= x + 0.00001 && 0.0 <= c <= 100.0
    ensures c * x - 0.001 <= c * f <= c * x + 0.001
  {
    SmallProduct(f - x, c);
    assert c * f == c * x + (f - x) * c;
  }

  lemma SmallProduct(e: real, c: real)
    requires -0.00001 <= e <= 0.00001 && 0.0 <= c <= 100.0
    ensures -0.001 <= e * c <= 0.001
  {
    AtMostTiny(e, c);
    AtLeastTiny(e, c);
  }

  lemma AtMostTiny(e: real, c: real)
    requires e <= 0.00001 && c >= 0.0
    ensures e * c <= 0.00001 * c
  {
  }

  lemma AtLeastTiny(e: real, c: real)
    requires e >= -0.00001 && c >= 0.0
    ensures e * c >= -0.00001 * c
  {
  }

  lemma FactorNear(fl: real -> real, p: int)
    requires Rounds(fl) && -100 < p <= 900 && p != 0
    ensures 1.0 + p as real / 100.0 - 0.00001 <= Factor(fl, p) <= 1.0 + p as real / 100.0 + 0.00001
  {
    KeepsInt(fl, p);
    var w := p as real / 100.0;
    if p > 0 {
      RoundsNear(fl, w);
      RoundsNear(fl, 1.0 + fl(w));
    } else {
      NegativeNear(fl, p);
      RoundsNear(fl, 1.0 + fl(w));
    }
  }

  lemma RoundsNear(fl: real -> real, x: real)
    requires Rounds(fl) && 0.001 <= x <= 2000.0
    ensures x - 0.000001 <= fl(x) <= x + 0.000001
  {
    assert Normal(x);
    assert Near(fl, x);
  }

  lemma NegativeNear(fl: real -> real, p: int)
    requires Rounds(fl) && -100 < p < 0
    ensures p as real / 100.0 - 0.000001 <= fl(p as real / 100.0) <= p as real / 100.0 + 0.000001
  {
    var x := p as real / 100.0;
    assert Normal(x);
    assert Near(fl, x);
  }

  /** At an exact tie the result can be one lower: 50 raised by 15 percent is 57.5, and the three
      roundings binary64 makes leave it just below, so the code answers 57 where half-up is 58. */
  lemma TieRoundsDown(m: Machine)
    requires Rounds(m.fl)
    requires m.fl(0.15) == 5404319552844595.0 / 36028797018963968.0
    requires m.fl(1.0 + 5404319552844595.0 / 36028797018963968.0) == 2589569785738035.0 / 2251799813685248.0
    requires m.fl(50.0 * (2589569785738035.0 / 2251799813685248.0)) == 8092405580431359.0 / 140737488355328.0
    ensures ScaleScore(m, 50, 15) == 57 && ExactScale(50, 15) == 58
  {
    KeepsInt(m.fl, 15);
    KeepsInt(m.fl, 50);
    assert 15 as real / 100.0 == 0.15;
    RoundIs(Product(m.fl, 50, 15), 57);
  }
}
