/** The percentage of `newSnapshot`, computed the way the program computes it: two binary64
    operations (a division and a multiplication by 100, each rounded to nearest, ties to even,
    section 4.3.1 of IEEE 754-2019) and a truncation to int.

    Every value that occurs is 0 or lies in the normal range, so a positive float is a mantissa
    and a count of binary places. The exponent range of binary64 is never left. */
module Binary64 {

  const MANTISSA := 0x10_0000_0000_0000  // 2^52

  /** The counts up to which the percentages are characterised. */
  const COUNT_LIMIT := 0x1000_0000_0000  // 2^44

  /** The number mantissa / 2^places. */
  datatype Float = Float(mantissa: nat, places: nat)

  function Pow2(n: nat): (p: nat)
    ensures p > 0
  {
    if n == 0 then 1 else 2 * Pow2(n - 1)
  }

  /** num/den rounded to an integer, ties to even. */
  function HalfEven(num: nat, den: nat): nat
    requires den > 0
  {
    var q, r := num / den, num % den;
    if 2 * r < den || (2 * r == den && q % 2 == 0) then q else q + 1
  }

  /** num/den rounded to a 53-bit mantissa, trying `places` binary places and upwards. */
  function Round(num: nat, den: nat, places: nat): Float
    requires 0 < num && num * Pow2(places) < 2 * MANTISSA * den
    decreases MANTISSA * den - num * Pow2(places)
  {
    var scaled := num * Pow2(places);
    if scaled < MANTISSA * den then
      Doubled(num, places);
      Round(num, den, places + 1)
    else
      Float(HalfEven(scaled, den), places)
  }

  lemma Doubled(num: nat, places: nat)
    requires num > 0
    ensures num * Pow2(places + 1) == 2 * (num * Pow2(places)) > num * Pow2(places)
  {
    var p := Pow2(places);
    assert Pow2(places + 1) == 2 * p;
    assert num * (2 * p) == 2 * (num * p);
    assert num * p > 0;
  }

  /** The float is the nearest 53-bit number to num/den, after scaling by `scale`. */
  ghost predicate Nearest(num: nat, den: nat, mantissa: nat, scale: nat) {
    && MANTISSA * den <= num * scale < 2 * MANTISSA * den
    && 2 * (mantissa * den - num * scale) <= den
    && 2 * (num * scale - mantissa * den) <= den
  }

  lemma HalfEvenIsNearest(num: nat, den: nat)
    requires den > 0
    ensures 2 * (HalfEven(num, den) * den - num) <= den
    ensures 2 * (num - HalfEven(num, den) * den) <= den
  {
    assert num == num / den * den + num % den;
    assert (num / den + 1) * den == num / den * den + den;
  }

  lemma {:induction false} RoundIsNearest(num: nat, den: nat, places: nat)
    requires 0 < num && num * Pow2(places) < 2 * MANTISSA * den
    ensures var r := Round(num, den, places); Nearest(num, den, r.mantissa, Pow2(r.places))
    decreases MANTISSA * den - num * Pow2(places)
  {
    var scaled := num * Pow2(places);
    if scaled < MANTISSA * den {
      Doubled(num, places);
      RoundIsNearest(num, den, places + 1);
    } else {
      HalfEvenIsNearest(scaled, den);
    }
  }

  lemma MulMonotone(x: int, y: int, z: nat)
    requires x <= y
    ensures x * z <= y * z
  {
    assert (y - x) * z >= 0;
  }

  lemma Cancel(x: int, y: int, z: nat)
    requires x * z <= y * z && z > 0
    ensures x <= y
  {
    if x > y {
      MulMonotone(y + 1, x, z);
    }
  }

  lemma AtMostOne(e: nat, t: nat, m: nat, a: nat)
    requires 0 < e <= t && Nearest(e, t, m, a)
    ensures 0 < m <= a
  {
    MulMonotone(e, t, a);
    if m > a {
      MulMonotone(a + 1, m, t);
    }
  }

  /** A fraction of at most 1 rounds to at most 1, so 100 times it stays in range. */
  lemma QuotientAtMostOne(e: nat, t: nat)
    requires 0 < e <= t
    ensures e * Pow2(0) < 2 * MANTISSA * t
    ensures 0 < Round(e, t, 0).mantissa <= Pow2(Round(e, t, 0).places)
  {
    RoundIsNearest(e, t, 0);
    AtMostOne(e, t, Round(e, t, 0).mantissa, Pow2(Round(e, t, 0).places));
  }

  /** int(float64(e) / float64(t) * 100) */
  function Percent(e: nat, t: nat): int
    requires e <= t
  {
    if e == 0 then 0
    else
      QuotientAtMostOne(e, t);
      var q := Round(e, t, 0);
      var p := Round(100 * q.mantissa, Pow2(q.places), 0);
      p.mantissa / Pow2(p.places)
  }

  /** Rounding never takes a percentage out of 0..100. */
  lemma PercentInRange(e: nat, t: nat)
    requires e <= t && 0 < t
    ensures 0 <= Percent(e, t) <= 100
  {
    hide Round, Pow2;
    if e > 0 {
      QuotientAtMostOne(e, t);
      ProductAtMostHundred(Round(e, t, 0).mantissa, Pow2(Round(e, t, 0).places));
    }
  }

  lemma ProductAtMostHundred(m: nat, a: nat)
    requires 0 < m <= a
    ensures 100 * m * Pow2(0) < 2 * MANTISSA * a
    ensures var p := Round(100 * m, a, 0); 0 <= p.mantissa / Pow2(p.places) <= 100
  {
    assert Pow2(0) == 1;
    hide Round, Pow2, Nearest;
    var p := Round(100 * m, a, 0);
    RoundIsNearest(100 * m, a, 0);
    HundredTimes(m, a, p.mantissa, Pow2(p.places));
    DivisionAtMost(p.mantissa, Pow2(p.places), 100);
  }

  lemma DivisionAtMost(m: nat, b: nat, f: nat)
    requires b > 0 && m <= f * b
    ensures 0 <= m / b <= f
  {
    var q := m / b;
    assert q * b <= m;
    Cancel(q, f, b);
  }

  lemma HundredTimes(m: nat, a: nat, mantissa: nat, scale: nat)
    requires 0 < m <= a && Nearest(100 * m, a, mantissa, scale)
    ensures mantissa <= 100 * scale
  {
    MulMonotone(100 * m, 100 * a, scale);
    assert 100 * a * scale == 100 * scale * a;
    assert (200 * scale + 1) * a == 2 * (100 * scale * a) + a;
    assert 2 * mantissa * a == 2 * (mantissa * a);
    Cancel(2 * mantissa, 200 * scale + 1, a);
  }

  /** The whole percentages at which the two roundings fall short of the exact value. */
  predicate Short(k: int) {
    k == 29 || k == 57 || k == 58
  }

  /** What the percentage should be, less one in the three cases where rounding loses it. */
  function ExactPercent(e: nat, t: nat): int
    requires e <= t && t > 0
  {
    var k := 100 * e / t;
    if 100 * e == k * t && Short(k) then k - 1 else k
  }

  lemma MantissaIsLarge(num: nat, den: nat, mantissa: nat, scale: nat)
    requires den > 0 && Nearest(num, den, mantissa, scale)
    ensures MANTISSA <= mantissa
  {
    if mantissa < MANTISSA {
      MulMonotone(mantissa + 1, MANTISSA, den);
    }
  }

  /** The second scale is far larger than t, and at most a fiftieth of the first. */
  lemma Scales(e: nat, t: nat, m1: nat, a: nat, m2: nat, b: nat)
    requires 0 < e <= t && a > 0
    requires Nearest(e, t, m1, a) && Nearest(100 * m1, a, m2, b)
    ensures MANTISSA <= 100 * b && 50 * b <= a
  {
    AtMostOne(e, t, m1, a);
    MantissaIsLarge(e, t, m1, a);
    var c := 100 * b;
    assert m1 * c == 100 * m1 * b;
    MulMonotone(m1, a, c);
    assert a * c == c * a;
    Cancel(MANTISSA, c, a);
    MulMonotone(MANTISSA, m1, c);
  }

  lemma Scaled(x: int, y: int, bound: int, z: nat)
    requires 2 * (x - y) <= bound
    ensures 2 * (x * z) <= 2 * (y * z) + bound * z
  {
    MulMonotone(2 * (x - y), bound, z);
    assert 2 * (x - y) * z == 2 * (x * z) - 2 * (y * z);
  }

  lemma Regroup(x: int, y: int, z: int, u: int)
    ensures x * y * (z * u) == x * z * (y * u) == x * u * (z * y)
    ensures x * y * z == x * (y * z)
  {
  }

  lemma Combine(x: int, y: int, w: int, at: int, bt: int)
    requires 2 * x <= 2 * y + at && 2 * y <= 2 * x + at
    requires 2 * y <= 2 * w + bt && 2 * w <= 2 * y + bt && bt <= 2 * at
    ensures 2 * x <= 2 * w + 3 * at && 2 * w <= 2 * x + 3 * at
  {
  }

  /** Both rounding errors together, with the denominators cleared. */
  lemma ErrorBound(e: nat, t: nat, m1: nat, a: nat, m2: nat, b: nat)
    requires 0 < e <= t && a > 0
    requires Nearest(e, t, m1, a) && Nearest(100 * m1, a, m2, b)
    ensures 2 * (m2 * a * t) <= 2 * (100 * e * (a * b)) + 3 * (a * t)
    ensures 2 * (100 * e * (a * b)) <= 2 * (m2 * a * t) + 3 * (a * t)
  {
    Scales(e, t, m1, a, m2, b);
    SecondError(t, m1, a, m2, b);
    FirstError(e, t, m1, a, 100 * b);
    Identities(e, t, m1, a, b);
    Combine(m2 * a * t, m1 * t * (100 * b), e * a * (100 * b), a * t, t * (100 * b));
  }

  lemma Identities(e: nat, t: nat, m1: nat, a: nat, b: nat)
    ensures 100 * m1 * b * t == m1 * t * (100 * b)
    ensures 100 * e * (a * b) == e * a * (100 * b)
    ensures 50 * b <= a ==> t * (100 * b) <= 2 * (a * t)
  {
    if 50 * b <= a {
      MulMonotone(50 * b, a, t);
    }
  }

  lemma SecondError(t: nat, m1: nat, a: nat, m2: nat, b: nat)
    requires Nearest(100 * m1, a, m2, b)
    ensures 2 * (m2 * a * t) <= 2 * (100 * m1 * b * t) + a * t
    ensures 2 * (100 * m1 * b * t) <= 2 * (m2 * a * t) + a * t
  {
    Scaled(m2 * a, 100 * m1 * b, a, t);
    Scaled(100 * m1 * b, m2 * a, a, t);
  }

  lemma FirstError(e: nat, t: nat, m1: nat, a: nat, c: nat)
    requires Nearest(e, t, m1, a)
    ensures 2 * (m1 * t * c) <= 2 * (e * a * c) + t * c
    ensures 2 * (e * a * c) <= 2 * (m1 * t * c) + t * c
  {
    Scaled(m1 * t, e * a, t, c);
    Scaled(e * a, m1 * t, t, c);
  }

  lemma Squeeze(ft: int, ft1: int, e100: int, mid: int, ab: nat, at: nat)
    requires ft + 1 <= e100 && e100 + 1 <= ft1 && 2 * at <= ab
    requires 2 * mid <= 2 * (e100 * ab) + 3 * at && 2 * (e100 * ab) <= 2 * mid + 3 * at
    ensures ft * ab <= mid && mid + at <= ft1 * ab + at / 2
  {
    MulMonotone(ft + 1, e100, ab);
    MulMonotone(e100 + 1, ft1, ab);
  }

  lemma ScaleGap(t: nat, a: nat, b: nat)
    requires 0 < t <= COUNT_LIMIT && a > 0 && MANTISSA <= 100 * b
    ensures 0 < a * t && 2 * (a * t) <= a * b
  {
    MulMonotone(2 * t, b, a);
    MulMonotone(1, t, a);
  }

  /** The two roundings are too small to carry the value across a whole number when the exact
      percentage is not one. `f` is the exact percentage rounded down. */
  lemma RoundingStaysBetween(e: nat, t: nat, f: nat, m1: nat, a: nat, m2: nat, b: nat)
    requires 0 < e <= t <= COUNT_LIMIT
    requires f * t < 100 * e < (f + 1) * t
    requires a > 0 && Nearest(e, t, m1, a) && Nearest(100 * m1, a, m2, b)
    ensures f * b <= m2 < (f + 1) * b
  {
    Scales(e, t, m1, a, m2, b);
    ErrorBound(e, t, m1, a, m2, b);
    ScaleGap(t, a, b);
    Squeeze(f * t, (f + 1) * t, 100 * e, m2 * a * t, a * b, a * t);
    Conclude(f, t, a, b, m2);
  }

  lemma Conclude(f: nat, t: nat, a: nat, b: nat, m2: nat)
    requires a * t > 0
    requires f * t * (a * b) <= m2 * a * t && m2 * a * t + a * t <= (f + 1) * t * (a * b) + a * t / 2
    ensures f * b <= m2 < (f + 1) * b
  {
    var at := a * t;
    Regroup(f, t, a, b);
    Regroup(f + 1, t, a, b);
    Regroup(m2, a, t, b);
    assert f * t * (a * b) == f * b * at;
    assert (f + 1) * t * (a * b) == (f + 1) * b * at;
    assert m2 * a * t == m2 * at;
    Cancel(f * b, m2, at);
    if m2 >= (f + 1) * b {
      MulMonotone((f + 1) * b, m2, at);
    }
  }

  lemma QuotientBetween(m: int, b: int, f: int)
    requires b > 0 && f * b <= m < (f + 1) * b
    ensures m / b == f
  {
    var q := m / b;
    assert q * b <= m < q * b + b;
    if q < f {
      MulMonotone(q + 1, f, b);
    } else if q > f {
      MulMonotone(f + 1, q, b);
    }
  }

  lemma DivisionBounds(x: nat, t: nat)
    requires t > 0
    ensures x / t * t <= x < (x / t + 1) * t
  {
  }

  lemma UniqueDivision(n: nat, d: nat, q: nat, r: nat)
    requires n == q * d + r && r < d
    ensures n / d == q && n % d == r
  {
    QuotientBetween(n, d, q);
  }

  lemma NonNegative(x: int, z: nat)
    requires z > 0 && x * z >= 0
    ensures x >= 0
  {
    Cancel(0, x, z);
  }

  lemma HalfEvenOfEqualFractions(n1: nat, d1: nat, n2: nat, d2: nat)
    requires d1 > 0 && d2 > 0 && n1 * d2 == n2 * d1
    ensures HalfEven(n1, d1) == HalfEven(n2, d2)
  {
    var q, r := n1 / d1, n1 % d1;
    var r2 := n2 - q * d2;
    Remainder(n1, d1, n2, d2, q, r);
    NonNegative(r2, d1);
    Proportional(r, d1, r2, d2);
    UniqueDivision(n2, d2, q, r2);
  }

  lemma Remainder(n1: nat, d1: nat, n2: nat, d2: nat, q: nat, r: nat)
    requires n1 == q * d1 + r && n1 * d2 == n2 * d1
    ensures (n2 - q * d2) * d1 == r * d2 >= 0
  {
    assert n1 * d2 == q * d1 * d2 + r * d2;
    assert (n2 - q * d2) * d1 == n2 * d1 - q * d2 * d1;
    assert q * d1 * d2 == q * d2 * d1;
  }

  lemma Proportional(r1: nat, d1: nat, r2: nat, d2: nat)
    requires d1 > 0 && d2 > 0 && r2 * d1 == r1 * d2
    ensures r1 < d1 <==> r2 < d2
    ensures 2 * r1 < d1 <==> 2 * r2 < d2
    ensures 2 * r1 == d1 <==> 2 * r2 == d2
  {
  }

  lemma SameFraction(n1: nat, d1: nat, n2: nat, d2: nat, p: nat)
    requires d1 > 0 && d2 > 0 && n1 * d2 == n2 * d1
    ensures n1 * p * d2 == n2 * p * d1
    ensures n1 * p < MANTISSA * d1 <==> n2 * p < MANTISSA * d2
  {
    assert n1 * p * d2 == n1 * d2 * p == n2 * d1 * p == n2 * p * d1;
    SameBinade(n1 * p, d1, n2 * p, d2);
  }

  lemma SameBinade(n1: nat, d1: nat, n2: nat, d2: nat)
    requires d1 > 0 && d2 > 0 && n1 * d2 == n2 * d1
    ensures n1 < MANTISSA * d1 <==> n2 < MANTISSA * d2
  {
  }

  lemma {:induction false} RoundOfEqualFractions(n1: nat, d1: nat, n2: nat, d2: nat, places: nat)
    requires 0 < n1 && n1 * Pow2(places) < 2 * MANTISSA * d1
    requires 0 < n2 && n2 * Pow2(places) < 2 * MANTISSA * d2
    requires n1 * d2 == n2 * d1
    ensures Round(n1, d1, places) == Round(n2, d2, places)
    decreases MANTISSA * d1 - n1 * Pow2(places)
  {
    SameFraction(n1, d1, n2, d2, Pow2(places));
    if n1 * Pow2(places) < MANTISSA * d1 {
      Doubled(n1, places);
      Doubled(n2, places);
      RoundOfEqualFractions(n1, d1, n2, d2, places + 1);
    } else {
      HalfEvenOfEqualFractions(n1 * Pow2(places), d1, n2 * Pow2(places), d2);
    }
  }

  lemma {:induction false} RoundAt(num: nat, den: nat, places: nat, target: nat)
    requires places <= target && 0 < num && MANTISSA * den <= num * Pow2(target) < 2 * MANTISSA * den
    ensures num * Pow2(places) < 2 * MANTISSA * den
    ensures places < target ==> num * Pow2(places) < MANTISSA * den
    ensures Round(num, den, places) == Float(HalfEven(num * Pow2(target), den), target)
    decreases target - places
  {
    if places < target {
      RoundAt(num, den, places + 1, target);
      Doubled(num, places);
    }
  }

  lemma PowersOfTwo()
    ensures Pow2(46) == 0x400000000000
    ensures Pow2(47) == 0x800000000000
    ensures Pow2(48) == 0x1000000000000
    ensures Pow2(49) == 0x2000000000000
    ensures Pow2(50) == 0x4000000000000
    ensures Pow2(51) == 0x8000000000000
    ensures Pow2(52) == 0x10000000000000
    ensures Pow2(53) == 0x20000000000000
    ensures Pow2(54) == 0x40000000000000
    ensures Pow2(55) == 0x80000000000000
    ensures Pow2(56) == 0x100000000000000
    ensures Pow2(57) == 0x200000000000000
    ensures Pow2(58) == 0x400000000000000
    ensures Pow2(59) == 0x800000000000000
  {
    assert Pow2(10) == 1024;
    assert Pow2(20) == 1024 * 1024;
    assert Pow2(30) == 1024 * 1024 * 1024;
    assert Pow2(40) == 1024 * 1024 * 1024 * 1024;
  }

  /** k/100 rounded to 1/scale, and 100 times that rounded to 1/(scale/ratio) and truncated. */
  function Staged(k: nat, scale: nat, ratio: nat): int
    requires 0 < ratio <= scale
  {
    HalfEven(100 * HalfEven(k * scale, 100), ratio) / (scale / ratio)
  }

  /** The two scales are the right ones for k/100, and the staged computation is exact there. */
  predicate Settled(k: nat, scale: nat, ratio: nat) {
    && 0 < k <= 100 && 0 < ratio <= scale
    && MANTISSA * 100 <= k * scale < 2 * MANTISSA * 100
    && MANTISSA * ratio <= 100 * HalfEven(k * scale, 100) < 2 * MANTISSA * ratio
    && Staged(k, scale, ratio) == ExactPercent(k, 100)
  }

  lemma TwoRoundings(k: nat, places1: nat, scale1: nat, places2: nat, scale2: nat)
    requires 0 < k <= 100 && scale1 == Pow2(places1) && scale2 == Pow2(places2)
    requires MANTISSA * 100 <= k * scale1 < 2 * MANTISSA * 100
    requires MANTISSA * scale1 <= 100 * HalfEven(k * scale1, 100) * scale2 < 2 * MANTISSA * scale1
    ensures Percent(k, 100) == HalfEven(100 * HalfEven(k * scale1, 100) * scale2, scale1) / scale2
  {
    RoundAt(k, 100, 0, places1);
    QuotientAtMostOne(k, 100);
    RoundAt(100 * HalfEven(k * scale1, 100), scale1, 0, places2);
  }

  lemma StagedPercent(k: nat, places1: nat, scale1: nat, places2: nat, scale2: nat, ratio: nat, product: nat)
    requires 0 < k <= 100 && scale1 == Pow2(places1) && scale2 == Pow2(places2)
    requires scale1 == scale2 * ratio && ratio > 0 && product == 100 * HalfEven(k * scale1, 100)
    requires MANTISSA * 100 <= k * scale1 < 2 * MANTISSA * 100
    requires MANTISSA * ratio <= product < 2 * MANTISSA * ratio
    ensures Percent(k, 100) == HalfEven(product, ratio) / scale2
  {
    Rescaled(product, ratio, scale2, scale1);
    TwoRoundings(k, places1, scale1, places2, scale2);
  }

  lemma ExactDivision(x: nat, y: nat, z: nat)
    requires x == y * z && z > 0
    ensures x / z == y
  {
    QuotientBetween(x, z, y);
  }

  lemma SettledPercent(k: nat, places1: nat, scale1: nat, places2: nat, scale2: nat, ratio: nat)
    requires scale1 == Pow2(places1) && scale2 == Pow2(places2) && scale1 == scale2 * ratio
    requires Settled(k, scale1, ratio)
    ensures Percent(k, 100) == ExactPercent(k, 100)
  {
    ExactDivision(scale1, scale2, ratio);
    StagedPercent(k, places1, scale1, places2, scale2, ratio, 100 * HalfEven(k * scale1, 100));
  }

  lemma Reorder(x: int, y: int, z: int)
    ensures x * y * z == x * (y * z)
  {
  }

  lemma Rescaled(num: nat, den: nat, c: nat, denc: nat)
    requires den > 0 && c > 0 && denc == c * den
    requires MANTISSA * den <= num < 2 * MANTISSA * den
    ensures MANTISSA * denc <= num * c < 2 * MANTISSA * denc
    ensures HalfEven(num * c, denc) == HalfEven(num, den)
  {
    Between(num, MANTISSA * den, 2 * (MANTISSA * den), c);
    Reorder(MANTISSA, den, c);
    HalfEvenRescaled(num, den, c, denc);
  }

  lemma Between(x: int, lo: int, hi: int, c: nat)
    requires lo <= x < hi && c > 0
    ensures lo * c <= x * c < hi * c
  {
    MulMonotone(lo, x, c);
    MulMonotone(x + 1, hi, c);
  }

  lemma HalfEvenRescaled(num: nat, den: nat, c: nat, denc: nat)
    requires den > 0 && c > 0 && denc == c * den
    ensures denc > 0 && HalfEven(num * c, denc) == HalfEven(num, den)
  {
    Reorder(num, c, den);
    MulMonotone(1, c, den);
    HalfEvenOfEqualFractions(num * c, denc, num, den);
  }

  // For a whole percentage only the hundred fractions k/100 have to be looked at. Each lemma
  // below takes those whose two roundings fall into the same pair of binades.

  lemma Band1(k: nat)
    requires 1 <= k < 2
    ensures Settled(k, 0x800000000000000, 128)
  {
  }

  lemma Band2(k: nat)
    requires 2 <= k < 4
    ensures Settled(k, 0x400000000000000, 128)
  {
  }

  lemma Band4(k: nat)
    requires 4 <= k < 7
    ensures Settled(k, 0x200000000000000, 128)
  {
  }

  lemma Band7(k: nat)
    requires 7 <= k < 8
    ensures Settled(k, 0x100000000000000, 64)
  {
  }

  lemma Band8(k: nat)
    requires 8 <= k < 13
    ensures Settled(k, 0x100000000000000, 128)
  {
  }

  lemma Band13(k: nat)
    requires 13 <= k < 16
    ensures Settled(k, 0x80000000000000, 64)
  {
  }

  lemma Band16(k: nat)
    requires 16 <= k < 25
    ensures Settled(k, 0x80000000000000, 128)
  {
  }

  lemma Band25(k: nat)
    requires 25 <= k < 28
    ensures Settled(k, 0x40000000000000, 64)
  {
    assert Settled(25, 0x40000000000000, 64) && Settled(26, 0x40000000000000, 64) && Settled(27, 0x40000000000000, 64);
  }

  lemma Band28(k: nat)
    requires 28 <= k < 32
    ensures Settled(k, 0x40000000000000, 64)
  {
    assert Settled(28, 0x40000000000000, 64);
    assert Settled(29, 0x40000000000000, 64);
    assert Settled(30, 0x40000000000000, 64);
    assert Settled(31, 0x40000000000000, 64);
  }

  lemma Band32(k: nat)
    requires 32 <= k < 50
    ensures Settled(k, 0x40000000000000, 128)
  {
  }

  lemma Band50(k: nat)
    requires 50 <= k < 54
    ensures Settled(k, 0x20000000000000, 64)
  {
    assert Settled(50, 0x20000000000000, 64);
    assert Settled(51, 0x20000000000000, 64);
    assert Settled(52, 0x20000000000000, 64);
    assert Settled(53, 0x20000000000000, 64);
  }

  lemma Band54(k: nat)
    requires 54 <= k < 57
    ensures Settled(k, 0x20000000000000, 64)
  {
    assert Settled(54, 0x20000000000000, 64);
    assert Settled(55, 0x20000000000000, 64);
    assert Settled(56, 0x20000000000000, 64);
  }

  lemma Band57(k: nat)
    requires 57 <= k < 61
    ensures Settled(k, 0x20000000000000, 64)
  {
    assert Settled(57, 0x20000000000000, 64);
    assert Settled(58, 0x20000000000000, 64);
    assert Settled(59, 0x20000000000000, 64);
    assert Settled(60, 0x20000000000000, 64);
  }

  lemma Band61(k: nat)
    requires 61 <= k < 64
    ensures Settled(k, 0x20000000000000, 64)
  {
    assert Settled(61, 0x20000000000000, 64);
    assert Settled(62, 0x20000000000000, 64);
    assert Settled(63, 0x20000000000000, 64);
  }

  lemma Band64(k: nat)
    requires 64 <= k < 100
    ensures Settled(k, 0x20000000000000, 128)
  {
  }

  lemma Band100(k: nat)
    requires 100 <= k < 101
    ensures Settled(k, 0x10000000000000, 64)
  {
  }

  lemma Hundredths(k: nat)
    requires 0 < k <= 100
    ensures Percent(k, 100) == ExactPercent(k, 100)
  {
    PowersOfTwo();
    if k < 2 { Band1(k); SettledPercent(k, 59, 0x800000000000000, 52, 0x10000000000000, 128); }
    else if k < 4 { Band2(k); SettledPercent(k, 58, 0x400000000000000, 51, 0x8000000000000, 128); }
    else if k < 7 { Band4(k); SettledPercent(k, 57, 0x200000000000000, 50, 0x4000000000000, 128); }
    else if k < 8 { Band7(k); SettledPercent(k, 56, 0x100000000000000, 50, 0x4000000000000, 64); }
    else if k < 13 { Band8(k); SettledPercent(k, 56, 0x100000000000000, 49, 0x2000000000000, 128); }
    else if k < 16 { Band13(k); SettledPercent(k, 55, 0x80000000000000, 49, 0x2000000000000, 64); }
    else if k < 25 { Band16(k); SettledPercent(k, 55, 0x80000000000000, 48, 0x1000000000000, 128); }
    else if k < 28 { Band25(k); SettledPercent(k, 54, 0x40000000000000, 48, 0x1000000000000, 64); }
    else if k < 32 { Band28(k); SettledPercent(k, 54, 0x40000000000000, 48, 0x1000000000000, 64); }
    else if k < 50 { Band32(k); SettledPercent(k, 54, 0x40000000000000, 47, 0x800000000000, 128); }
    else if k < 54 { Band50(k); SettledPercent(k, 53, 0x20000000000000, 47, 0x800000000000, 64); }
    else if k < 57 { Band54(k); SettledPercent(k, 53, 0x20000000000000, 47, 0x800000000000, 64); }
    else if k < 61 { Band57(k); SettledPercent(k, 53, 0x20000000000000, 47, 0x800000000000, 64); }
    else if k < 64 { Band61(k); SettledPercent(k, 53, 0x20000000000000, 47, 0x800000000000, 64); }
    else if k < 100 { Band64(k); SettledPercent(k, 53, 0x20000000000000, 46, 0x400000000000, 128); }
    else { Band100(k); SettledPercent(k, 52, 0x10000000000000, 46, 0x400000000000, 64); }
  }

  lemma WholePercent(e: nat, t: nat, k: nat)
    requires 0 < e <= t && 100 * e == k * t
    ensures Percent(e, t) == if Short(k) then k - 1 else k
  {
    Cancel(k, 100, t);
    QuotientAtMostOne(e, t);
    QuotientAtMostOne(k, 100);
    RoundOfEqualFractions(e, t, k, 100, 0);
    Hundredths(k);
  }

  lemma FractionalPercent(e: nat, t: nat, f: nat)
    requires 0 < e <= t <= COUNT_LIMIT && f * t < 100 * e < (f + 1) * t
    ensures Percent(e, t) == f
  {
    QuotientAtMostOne(e, t);
    var q := Round(e, t, 0);
    var p := Round(100 * q.mantissa, Pow2(q.places), 0);
    RoundIsNearest(e, t, 0);
    RoundIsNearest(100 * q.mantissa, Pow2(q.places), 0);
    RoundingStaysBetween(e, t, f, q.mantissa, Pow2(q.places), p.mantissa, Pow2(p.places));
    QuotientBetween(p.mantissa, Pow2(p.places), f);
  }

  lemma PositivePercent(e: nat, t: nat, f: nat)
    requires 0 < e <= t <= COUNT_LIMIT && f * t <= 100 * e < (f + 1) * t
    ensures Percent(e, t) == if 100 * e == f * t && Short(f) then f - 1 else f
  {
    if 100 * e == f * t {
      WholePercent(e, t, f);
    } else {
      FractionalPercent(e, t, f);
    }
  }

  lemma ExactPercentAt(e: nat, t: nat, f: nat)
    requires e <= t && f * t <= 100 * e < (f + 1) * t
    ensures ExactPercent(e, t) == if 100 * e == f * t && Short(f) then f - 1 else f
  {
    QuotientBetween(100 * e, t, f);
  }

  /** The program's percentage is the exact one rounded down, except that a window with exactly
      29, 57 or 58 percent reads one less. */
  lemma PercentIsExact(e: nat, t: nat)
    requires e <= t && 0 < t <= COUNT_LIMIT
    ensures Percent(e, t) == ExactPercent(e, t)
  {
    if e == 0 {
      ExactPercentAt(0, t, 0);
    } else {
      var f := 100 * e / t;
      DivisionBounds(100 * e, t);
      PositivePercent(e, t, f);
      ExactPercentAt(e, t, f);
    }
  }
}
