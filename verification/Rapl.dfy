/** RAPL power limits: milliwatts against raw counts of 2^-p watts
    (src/Device/CPU/Intel/Registers/MSR_PKG_POWER_LIMIT.h and MSR_RAPL_POWER_UNIT.h).
    Every unit is a power of two, so the source's double expressions are exact up to
    the final truncation and are written here as integer divisions. */
module Rapl {
  import opened Basics
  import opened Words

  function FloorDiv(a: nat, b: nat): (q: nat)
    requires b >= 1
    ensures q * b <= a < (q + 1) * b
  {
    a / b
  }

  /** `static_cast<int>(mw / power / 1000)`, truncating towards zero. */
  function Enc(mw: int, p: nat): int {
    if mw >= 0 then FloorDiv(mw * Pow2(p), 1000) else -(FloorDiv(-mw * Pow2(p), 1000) as int)
  }

  /** `static_cast<int>(raw * power * 1000)`. */
  function Dec(raw: nat, p: nat): nat {
    FloorDiv(raw * 1000, Pow2(p))
  }

  /** A quotient computed in real numbers and truncated. */
  lemma FloorOfQuotient(a: nat, b: nat, x: real)
    requires b >= 1 && x * b as real == a as real
    ensures FloorDiv(a, b) == x.Floor
  {
    var q := FloorDiv(a, b);
    IntProduct(q, b);
    IntProduct(q + 1, b);
    RealLess(q as real, x, b as real);
    RealLess(x, (q + 1) as real, b as real);
    hide FloorDiv;
    assert q as real <= x < q as real + 1.0;
  }

  lemma RealLess(x: real, y: real, c: real)
    requires c > 0.0
    ensures x * c <= y * c ==> x <= y
    ensures x * c < y * c ==> x < y
  {
    if x > y { assert (x - y) * c > 0.0; }
    if x == y { assert x * c == y * c; }
  }

  lemma TimesUnit(a: real, T: real, c: real)
    requires T > 0.0
    ensures a * (1.0 / T) * c * T == a * c
  {
    var u := 1.0 / T;
    assert u * T == 1.0;
    Regroup(a, u, c, T);
    assert a * c * (u * T) == a * c;
  }

  lemma Regroup(a: real, u: real, c: real, T: real)
    ensures a * u * c * T == a * c * (u * T)
  {
  }

  /** A quotient that the source takes by multiplying with a unit of 1/b. */
  lemma FloorOfUnits(n: nat, a: real, c: real, b: nat)
    requires b >= 1 && a * c == n as real
    ensures FloorDiv(n, b) == (a * (1.0 / b as real) * c).Floor
  {
    TimesUnit(a, b as real, c);
    FloorOfQuotient(n, b, a * (1.0 / b as real) * c);
  }

  lemma PerUnit(a: real, T: real)
    requires T > 0.0
    ensures 1.0 / T != 0.0 && a / (1.0 / T) == a * T
  {
    var u := 1.0 / T;
    assert u * T == 1.0;
    var q := a / u;
    assert q * u == a;
    assert q * u * T == q * (u * T);
  }

  lemma IntProduct(a: int, b: int)
    ensures a as real * b as real == (a * b) as real
  {
  }

  /** Both conversions are the source's expressions over real numbers, truncated. */
  lemma ConversionsAreSource(raw: nat, mw: nat, p: nat)
    ensures var power := 1.0 / Pow2(p) as real;
      && power != 0.0
      && Dec(raw, p) == (raw as real * power * 1000.0).Floor
      && Enc(mw, p) == (mw as real / power / 1000.0).Floor
  {
    hide Pow2, FloorDiv;
    IntProduct(raw, 1000);
    FloorOfUnits(raw * 1000, raw as real, 1000.0, Pow2(p));
    PerUnit(mw as real, Pow2(p) as real);
    IntProduct(mw, Pow2(p));
    FloorOfQuotient(mw * Pow2(p), 1000, mw as real / (1.0 / Pow2(p) as real) / 1000.0);
  }

  /** What one get followed by one set of the same limit leaves in the field. */
  function Cycle(raw: nat, p: nat): (r: nat)
    ensures r <= raw
  {
    CycleNeverRaises(raw, p);
    Enc(Dec(raw, p), p)
  }

  function Cycles(k: nat, raw: nat, p: nat): nat {
    if k == 0 then raw else Cycles(k - 1, Cycle(raw, p), p)
  }

  lemma CycleNeverRaises(raw: nat, p: nat)
    ensures 0 <= Enc(Dec(raw, p), p) <= raw
  {
    var d := Dec(raw, p);
    assert Enc(d, p) * 1000 <= d * Pow2(p) <= raw * 1000;
  }

  /** b divides a exactly when a is its floor quotient times b. */
  lemma DividesIff(a: nat, b: nat)
    requires b >= 1
    ensures a % b == 0 <==> FloorDiv(a, b) * b == a
  {
    assert a == (a / b) * b + a % b;
  }

  lemma LessCancel(a: int, b: int, c: nat)
    requires a * c < b * c
    ensures a < b
  {
    if a >= b { MulLe(b, a, c); }
  }

  /** The fixed points are exactly the counts with 2^p dividing 1000 * raw. */
  lemma FixedPoints(raw: nat, p: nat)
    ensures Cycle(raw, p) == raw <==> (1000 * raw) % Pow2(p) == 0
  {
    var d := Dec(raw, p);
    DividesIff(raw * 1000, Pow2(p));
    assert raw * 1000 == 1000 * raw;
    var n := Enc(d, p);
    assert n * 1000 <= d * Pow2(p) < (n + 1) * 1000;
  }

  /** Setting mw and reading it back never gains and loses less than 1000/2^p + 1 mW;
      nothing is lost exactly when 1000 divides mw * 2^p. */
  lemma SetGetLoss(mw: nat, p: nat)
    ensures Enc(mw, p) >= 0 && Dec(Enc(mw, p), p) <= mw
    ensures (mw - Dec(Enc(mw, p), p) - 1) * Pow2(p) < 1000
    ensures Dec(Enc(mw, p), p) == mw <==> (mw * Pow2(p)) % 1000 == 0
  {
    LossArithmetic(mw, Pow2(p), Enc(mw, p), Dec(Enc(mw, p), p));
    DividesIff(mw * Pow2(p), 1000);
  }

  lemma LossArithmetic(x: nat, P: nat, n: nat, d: nat)
    requires P >= 1
    requires n * 1000 <= x * P < (n + 1) * 1000
    requires d * P <= n * 1000 < (d + 1) * P
    ensures d <= x && (x - d - 1) * P < 1000
    ensures d == x <==> n * 1000 == x * P
  {
    LessCancel(d, x + 1, P) by {
      assert (x + 1) * P == x * P + P;
    }
    assert (x - d - 1) * P == x * P - (d + 1) * P;
    if n * 1000 == x * P {
      LessCancel(x, d + 1, P);
    }
  }

  /** The distance between fixed points: 2^p over gcd(2^p, 1000). */
  function Grid(p: nat): (g: nat)
    ensures g >= 1
  {
    if p <= 3 then 1 else Pow2(p - 3)
  }

  lemma {:induction false} OddFactor(n: nat, k: nat)
    ensures (125 * n) % Pow2(k) == 0 <==> n % Pow2(k) == 0
  {
    if k != 0 {
      var q := Pow2(k - 1);
      HalfMod(125 * n, q);
      HalfMod(n, q);
      if n % 2 == 0 {
        OddFactor(n / 2, k - 1);
        assert 125 * n / 2 == 125 * (n / 2);
      }
    }
  }

  lemma HalfMod(x: nat, q: nat)
    requires q >= 1
    ensures x % (2 * q) == 0 <==> x % 2 == 0 && (x / 2) % q == 0
  {
    if x % (2 * q) == 0 {
      var t := x / (2 * q);
      assert x == (2 * q) * t == 2 * (q * t);
      ModOfMultiple(q, t);
    }
    if x % 2 == 0 && (x / 2) % q == 0 {
      var t := x / 2 / q;
      assert x == 2 * (q * t) == (2 * q) * t;
      ModOfMultiple(2 * q, t);
    }
  }

  lemma ModOfMultiple(q: nat, t: nat)
    requires q >= 1
    ensures (q * t) % q == 0 && FloorDiv(q * t, q) == t
  {
    var u := FloorDiv(q * t, q);
    assert q * t == t * q;
    LessCancel(t, u + 1, q);
    assert (t + 1) * q == t * q + q;
    LessCancel(u, t + 1, q);
    DividesIff(q * t, q);
  }

  lemma EighthMod(raw: nat, q: nat)
    requires q >= 1
    ensures (1000 * raw) % (8 * q) == 0 <==> (125 * raw) % q == 0
  {
    assert 8 * q == 2 * (4 * q) && 4 * q == 2 * (2 * q);
    assert (1000 * raw) / 2 == 500 * raw && (500 * raw) / 2 == 250 * raw && (250 * raw) / 2 == 125 * raw;
    assert (1000 * raw) % 2 == 0 && (500 * raw) % 2 == 0 && (250 * raw) % 2 == 0;
    HalfMod(1000 * raw, 4 * q);
    HalfMod(500 * raw, 2 * q);
    HalfMod(250 * raw, q);
  }

  lemma Pow2Eighth(p: nat)
    requires p >= 3
    ensures Pow2(p) == 8 * Pow2(p - 3)
  {
    assert Pow2(p - 1) == 2 * Pow2(p - 2);
  }

  lemma SmallPow2Divides(raw: nat, p: nat)
    requires p <= 3
    ensures (1000 * raw) % Pow2(p) == 0
  {
    Pow2Values();
    assert p == 0 || p == 1 || p == 2 || p == 3;
  }

  lemma GridIsFixed(raw: nat, p: nat)
    ensures Cycle(raw, p) == raw <==> raw % Grid(p) == 0
  {
    FixedPoints(raw, p);
    if p <= 3 {
      SmallPow2Divides(raw, p);
    } else {
      Pow2Eighth(p);
      EighthMod(raw, Pow2(p - 3));
      OddFactor(raw, p - 3);
    }
  }

  lemma CycleMonotone(a: nat, b: nat, p: nat)
    requires a <= b
    ensures Cycle(a, p) <= Cycle(b, p)
  {
    FloorDivMonotone(a * 1000, b * 1000, Pow2(p));
    MulLe(Dec(a, p), Dec(b, p), Pow2(p));
    FloorDivMonotone(Dec(a, p) * Pow2(p), Dec(b, p) * Pow2(p), 1000);
  }

  lemma FloorDivMonotone(a: nat, b: nat, c: nat)
    requires a <= b && c >= 1
    ensures FloorDiv(a, c) <= FloorDiv(b, c)
  {
    LessCancel(FloorDiv(a, c), FloorDiv(b, c) + 1, c);
  }

  /** The largest multiple of g not above raw. */
  function FloorTo(raw: nat, g: nat): (low: nat)
    requires g >= 1
  {
    raw - raw % g
  }

  lemma FloorToProperties(raw: nat, g: nat)
    requires g >= 1
    ensures FloorTo(raw, g) <= raw && FloorTo(raw, g) % g == 0
    ensures forall n: nat :: FloorTo(raw, g) < n <= raw ==> n % g != 0 && FloorTo(n, g) == FloorTo(raw, g)
    ensures FloorTo(FloorTo(raw, g), g) == FloorTo(raw, g)
  {
    var low := FloorTo(raw, g);
    assert low == g * (raw / g);
    ModOfMultiple(g, raw / g);
    forall n: nat | low < n <= raw ensures n % g == n - low {
      SameCell(low, n, g);
    }
  }

  /** Repeated get/set cycles stop at the largest fixed point not above the start, after at
      most raw cycles, and stay there. */
  lemma {:induction false} CyclesReachLargestFixedPoint(k: nat, raw: nat, p: nat)
    requires k >= raw
    ensures var low := FloorTo(raw, Grid(p));
      && Cycles(k, raw, p) == low
      && Cycle(low, p) == low
      && forall n: nat :: low < n <= raw ==> Cycle(n, p) != n
    decreases k
  {
    var low := FloorTo(raw, Grid(p));
    FloorToProperties(raw, Grid(p));
    GridIsFixed(low, p);
    forall n: nat | low < n <= raw ensures Cycle(n, p) != n {
      GridIsFixed(n, p);
    }
    if raw == low {
      FixedStays(k, raw, p);
    } else {
      var next := Cycle(raw, p);
      CycleMonotone(low, raw, p);
      assert low <= next < raw;
      assert FloorTo(next, Grid(p)) == low;
      CyclesReachLargestFixedPoint(k - 1, next, p);
    }
  }

  /** Within one cell above a multiple of g the remainder is the distance. */
  lemma SameCell(low: nat, n: nat, g: nat)
    requires g >= 1 && low % g == 0 && low < n < low + g
    ensures n % g == n - low
  {
    var a, b := low / g, n / g;
    assert low == a * g && n == b * g + n % g;
    assert (a + 1) * g == a * g + g;
    LessCancel(b, a + 1, g);
    assert (b + 1) * g == b * g + g;
    LessCancel(a, b + 1, g);
  }

  lemma {:induction false} FixedStays(k: nat, raw: nat, p: nat)
    requires Cycle(raw, p) == raw
    ensures Cycles(k, raw, p) == raw
  {
    if k != 0 {
      FixedStays(k - 1, raw, p);
    }
  }

  /** One cycle can lose more than one count when the unit is finer than a milliwatt. */
  lemma CycleLosesManyCounts()
    ensures Cycle(8191, 15) == 8159
  {
    Pow2Values();
  }
}
