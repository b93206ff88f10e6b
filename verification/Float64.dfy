/** The chunk count is computed in float64: two conversions, a division and a ceiling. Rounding is to the nearest
    representable number, ties to even (section 4.3.1 of IEEE 754-2019). */
module Float64 {
  import opened Chunking

  const P53 := 0x20_0000_0000_0000

  function Pow2(k: int): real
    decreases if k < 0 then -k else k
  {
    if k == 0 then 1.0 else if k > 0 then 2.0 * Pow2(k - 1) else Pow2(k + 1) / 2.0
  }

  function Times(n: int, unit: real): real { n as real * unit }

  function Scaled(m: int, e: int): real { Times(m, Pow2(e)) }

  function Abs(x: real): real { if x < 0.0 then -x else x }

  /** The finite binary64 numbers: a significand of 53 bits times a power of two. */
  ghost predicate IsFloat(y: real) {
    exists m, e :: -P53 < m < P53 && -1074 <= e <= 971 && y == Scaled(m, e)
  }

  ghost predicate EvenMultiple(y: real, spacing: real) { exists n: int :: y == Times(2 * n, spacing) }

  /** y is the binary64 number nearest to x, and of two equally near ones the one with the even significand. */
  ghost predicate Rounds(x: real, y: real) {
    && IsFloat(y)
    && (forall z :: IsFloat(z) ==> Abs(x - y) <= Abs(x - z))
    && (forall z :: IsFloat(z) && z != y && Abs(x - z) == Abs(x - y) ==> EvenMultiple(y, Abs(y - z)))
  }

  // ----- rounding, computed -----

  /** The binade of x, searched for upwards from 2^-64. */
  function Exponent(x: real, e: int): int
    requires -64 <= e <= 64
    decreases 64 - e
  {
    if e == 64 || x < Pow2(e + 1) then e else Exponent(x, e + 1)
  }

  /** The distance between neighbouring floats in the binade of x. */
  function Unit(x: real): (u: real)
    ensures u > 0.0
  {
    PowPositive(Exponent(x, -64) - 52);
    Pow2(Exponent(x, -64) - 52)
  }

  function Quotient(x: real, unit: real): real
    requires unit > 0.0
  { x / unit }

  function NearestInt(q: real): int {
    var fraction := q - q.Floor as real;
    if fraction < 0.5 || (fraction == 0.5 && q.Floor % 2 == 0) then q.Floor else q.Floor + 1
  }

  /** Round a number between 2^-64 and 2^65: count the units of its binade, and settle the fraction. */
  function Round(x: real): real { Times(NearestInt(Quotient(x, Unit(x))), Unit(x)) }

  function Ceil(x: real): int { -((-x).Floor) }

  /** getNumberOfChunks. */
  function NumberOfChunks(fileSize: nat, chunkSize: nat): int
    requires fileSize < 0x8000_0000_0000_0000 && 0 < chunkSize < 0x8000_0000_0000_0000
  {
    if fileSize == 0 then 0
    else
      IntRounds(chunkSize);
      Ceil(Round(Quotient(Round(fileSize as real), Round(chunkSize as real))))
  }

  // ----- products of reals -----

  lemma DoubleRight(x: real, y: real)
    ensures x * (2.0 * y) == 2.0 * (x * y)
  {}

  lemma Associate(a: real, b: real, c: real)
    ensures a * (b * c) == (a * b) * c
  {}

  lemma Distribute(a: real, b: real, unit: real)
    ensures a * unit - b * unit == (a - b) * unit
  {}

  lemma ProductGrows(a: real, b: real, unit: real)
    requires a < b && unit > 0.0
    ensures a * unit < b * unit
  {
    Distribute(b, a, unit);
    assert (b - a) * unit > 0.0;
  }

  lemma ProductOrder(a: real, b: real, unit: real)
    requires unit > 0.0
    ensures a < b <==> a * unit < b * unit
    ensures a == b <==> a * unit == b * unit
  {
    if a < b { ProductGrows(a, b, unit); } else if b < a { ProductGrows(b, a, unit); }
  }

  lemma AbsScales(a: real, b: real, unit: real)
    requires unit > 0.0
    ensures Abs(a * unit - b * unit) == Abs(a - b) * unit
  {
    Distribute(a, b, unit);
    Distribute(b, a, unit);
    ProductOrder(a, b, unit);
  }

  // ----- powers of two -----

  lemma {:induction false} PowPositive(k: int)
    ensures Pow2(k) > 0.0
    decreases if k < 0 then -k else k
  {
    if k > 0 { PowPositive(k - 1); } else if k < 0 { PowPositive(k + 1); }
  }

  lemma PowStep(k: int)
    ensures Pow2(k + 1) == 2.0 * Pow2(k)
  {}

  lemma {:induction false} PowAdd(a: int, b: int)
    ensures Pow2(a + b) == Pow2(a) * Pow2(b)
    decreases if b < 0 then -b else b
  {
    if b > 0 {
      PowAdd(a, b - 1);
      PowStep(a + b - 1);
      PowStep(b - 1);
      DoubleRight(Pow2(a), Pow2(b - 1));
    } else if b < 0 {
      PowAdd(a, b + 1);
      PowStep(a + b);
      PowStep(b);
      DoubleRight(Pow2(a), Pow2(b));
    }
  }

  lemma {:induction false} PowMonotone(a: int, b: int)
    requires a <= b
    ensures Pow2(a) <= Pow2(b)
    decreases b - a
  {
    if a < b {
      PowMonotone(a, b - 1);
      PowStep(b - 1);
      PowPositive(b - 1);
    }
  }

  function IntPow(k: nat): nat { if k == 0 then 1 else 2 * IntPow(k - 1) }

  lemma {:induction false} IntPowIs(k: nat)
    ensures Pow2(k) == IntPow(k) as real && IntPow(k) > 0
  {
    if k > 0 { IntPowIs(k - 1); }
  }

  lemma BigPowers()
    ensures Pow2(52) == 4503599627370496.0 && Pow2(53) == P53 as real && Pow2(63) == 9223372036854775808.0
    ensures Pow2(64) == 18446744073709551616.0 && Pow2(65) == 36893488147419103232.0
  {
    assert Pow2(4) == 16.0;
    PowAdd(4, 4);
    PowAdd(8, 8);
    PowAdd(16, 16);
    PowAdd(32, 16);
    PowAdd(48, 4);
    PowStep(52);
    PowAdd(32, 32);
    PowStep(63);
    PowStep(64);
  }

  // ----- the computed rounding is the one of the standard -----

  lemma {:induction false} ExponentFits(x: real, e: int)
    requires -64 <= e <= 64 && Pow2(e) <= x < Pow2(65)
    ensures var k := Exponent(x, e); -64 <= k <= 64 && Pow2(k) <= x < Pow2(k + 1)
    decreases 64 - e
  {
    if e < 64 && x >= Pow2(e + 1) { ExponentFits(x, e + 1); }
  }

  lemma BinadeUnits(e: int)
    ensures Pow2(e + 52) == 4503599627370496.0 * Pow2(e) && Pow2(e + 53) == 9007199254740992.0 * Pow2(e)
  {
    BigPowers();
    PowAdd(52, e);
    PowAdd(53, e);
  }

  /** x lies in the binade of 2^52 to 2^53 units. */
  lemma InUnits(x: real) returns (e: int)
    requires Pow2(-64) <= x < Pow2(65)
    ensures -116 <= e <= 12 && Unit(x) == Pow2(e)
    ensures 4503599627370496.0 * Pow2(e) <= x < 9007199254740992.0 * Pow2(e)
  {
    ExponentFits(x, -64);
    e := Exponent(x, -64) - 52;
    BinadeUnits(e);
  }

  /** No integer is nearer to q; an equally near one is a neighbour, and then the chosen one is even. */
  lemma NearestIntPicks(q: real, j: int)
    ensures var n := NearestInt(q);
            && (n == q.Floor || n == q.Floor + 1)
            && Abs(q - n as real) <= Abs(q - j as real)
            && (j != n && Abs(q - n as real) == Abs(q - j as real) ==> n % 2 == 0 && Abs(n as real - j as real) == 1.0)
  {
    var w := q.Floor;
    var f := q - w as real;
    if j <= w {
      assert Abs(q - j as real) == f + (w - j) as real;
    } else {
      assert Abs(q - j as real) == (j - w) as real - f;
    }
  }

  lemma DistanceScales(x: real, q: real, y: real, n: real, unit: real) returns (d: real)
    requires unit > 0.0 && x == q * unit && y == n * unit
    ensures d == Abs(q - n) && Abs(x - y) == d * unit
  {
    d := Abs(q - n);
    AbsScales(q, n, unit);
  }

  lemma ScaledOrder(a: real, b: real, unit: real, scaledA: real, scaledB: real)
    requires unit > 0.0 && scaledA == a * unit && scaledB == b * unit
    ensures a <= b <==> scaledA <= scaledB
    ensures a == b <==> scaledA == scaledB
  {
    ProductOrder(a, b, unit);
    ProductOrder(b, a, unit);
  }

  /** Distances between multiples of the unit compare as the multipliers do. */
  lemma NearerMultiple(x: real, q: real, y: real, n: real, z: real, j: real, unit: real)
    requires unit > 0.0 && x == q * unit && y == n * unit && z == j * unit
    ensures Abs(x - y) <= Abs(x - z) <==> Abs(q - n) <= Abs(q - j)
    ensures Abs(x - y) == Abs(x - z) <==> Abs(q - n) == Abs(q - j)
  {
    var dn := DistanceScales(x, q, y, n, unit);
    var dj := DistanceScales(x, q, z, j, unit);
    ScaledOrder(dn, dj, unit, Abs(x - y), Abs(x - z));
  }

  /** Multiples of the unit one apart. */
  lemma Neighbours(y: real, n: real, z: real, j: real, unit: real)
    requires unit > 0.0 && y == n * unit && z == j * unit && Abs(n - j) == 1.0
    ensures Abs(y - z) == unit
  {
    var d := DistanceScales(y, n, z, j, unit);
  }

  /** The same for multiples of the unit. */
  lemma NearestMultiple(x: real, q: real, y: real, n: int, z: real, j: int, unit: real)
    requires unit > 0.0 && x == q * unit && n == NearestInt(q) && y == n as real * unit && z == j as real * unit
    ensures Abs(x - y) <= Abs(x - z)
    ensures z != y && Abs(x - y) == Abs(x - z) ==> n % 2 == 0 && Abs(y - z) == unit
  {
    NearestIntPicks(q, j);
    NearerMultiple(x, q, y, n as real, z, j as real, unit);
    if z != y && Abs(x - y) == Abs(x - z) { Neighbours(y, n as real, z, j as real, unit); }
  }

  lemma ScaledIsFloat(m: int, e: int)
    requires -P53 < m < P53 && -1074 <= e <= 971
    ensures IsFloat(Scaled(m, e))
  {}

  lemma Halve(unit: real)
    ensures P53 as real * unit == (P53 / 2) as real * (2.0 * unit)
  {}

  /** 2^53 units are one float of the next binade. */
  lemma UnitsAreFloat(n: int, e: int)
    requires 0 <= n <= P53 && -1074 <= e < 971
    ensures IsFloat(Times(n, Pow2(e)))
  {
    if n < P53 {
      ScaledIsFloat(n, e);
    } else {
      NextBinade(e);
      ScaledIsFloat(P53 / 2, e + 1);
    }
  }

  lemma NextBinade(e: int)
    ensures Times(P53, Pow2(e)) == Scaled(P53 / 2, e + 1)
  {
    PowStep(e);
    Halve(Pow2(e));
  }

  /** x counted in units, between 2^52 and 2^53 of them. */
  lemma UnitsOf(x: real, unit: real) returns (q: real)
    requires unit > 0.0 && 4503599627370496.0 * unit <= x < 9007199254740992.0 * unit
    ensures q == Quotient(x, unit) && x == q * unit && P53 / 2 <= q.Floor < P53
  {
    q := x / unit;
    ScaledOrder(q, 4503599627370496.0, unit, x, 4503599627370496.0 * unit);
    ScaledOrder(q, 9007199254740992.0, unit, x, 9007199254740992.0 * unit);
    FloorBetween(q, P53 / 2, P53);
  }

  lemma Rounded(x: real) returns (e: int, unit: real, q: real, n: int)
    requires Pow2(-64) <= x < Pow2(65)
    ensures -116 <= e <= 12 && unit == Pow2(e) && unit > 0.0
    ensures x == q * unit && n == NearestInt(q) && P53 / 2 <= q.Floor < P53
    ensures Round(x) == Times(n, unit)
  {
    e := InUnits(x);
    unit := Unit(x);
    q := UnitsOf(x, unit);
    n := NearestInt(q);
  }

  lemma FloorBetween(q: real, lo: int, hi: int)
    requires lo as real <= q < hi as real
    ensures lo <= q.Floor < hi
  {}

  lemma StepsInUnits(k: int, e: int) returns (times: nat)
    requires k >= e
    ensures Pow2(k) == Times(times, Pow2(e))
  {
    times := IntPow(k - e);
    IntPowIs(k - e);
    PowAdd(k - e, e);
  }

  lemma StepsBelow(k: int, e: int)
    requires k < e
    ensures 0.0 < Pow2(k) <= Pow2(e) / 2.0
  {
    PowMonotone(k, e - 1);
    PowStep(e - 1);
    PowPositive(k);
  }

  /** A float with larger steps than the unit is a whole number of units; one with smaller steps lies below the
      binade. */
  lemma FloatInUnits(m: int, k: int, e: int, z: real, unit: real) returns (j: int)
    requires -P53 < m < P53 && z == Scaled(m, k) && unit == Pow2(e)
    ensures z == Times(j, unit) || z < 4503599627370496.0 * unit
  {
    if k >= e {
      var times := StepsInUnits(k, e);
      j := m * times;
      WholeUnits(m, Pow2(k), times, unit, j);
    } else {
      j := 0;
      StepsBelow(k, e);
      FewerThanHalf(m, Pow2(k), unit);
    }
  }

  lemma WholeUnits(m: int, step: real, times: nat, unit: real, j: int)
    requires step == Times(times, unit) && j == m * times
    ensures Times(m, step) == Times(j, unit)
  {
    Associate(m as real, times as real, unit);
    assert j as real == m as real * times as real;
  }

  lemma FewerThanHalf(m: int, step: real, unit: real)
    requires m < P53 && 0.0 < step <= unit / 2.0
    ensures Times(m, step) < 4503599627370496.0 * unit
  {
    ProductGrows(m as real, P53 as real, step);
  }

  lemma EvenUnits(n: int, unit: real)
    requires n % 2 == 0
    ensures EvenMultiple(Times(n, unit), unit)
  {
    assert n == 2 * (n / 2);
  }

  lemma BelowBinade(x: real, q: real, w: int, unit: real, y: real, z: real)
    requires unit > 0.0 && x == q * unit && y == w as real * unit && P53 / 2 <= w && w as real <= q
    requires z < 4503599627370496.0 * unit
    ensures z < y <= x
  {
    ProductOrder(w as real, 4503599627370496.0, unit);
    ProductOrder(q, w as real, unit);
  }

  /** No float is nearer to x than the rounded one. */
  lemma NearestFloat(x: real, y: real, z: real, e: int, unit: real, q: real, n: int)
    requires unit == Pow2(e) && unit > 0.0 && x == q * unit && n == NearestInt(q) && y == Times(n, unit)
             && q.Floor >= P53 / 2
    requires IsFloat(z)
    ensures Abs(x - y) <= Abs(x - z) && (z != y && Abs(x - z) == Abs(x - y) ==> EvenMultiple(y, Abs(y - z)))
  {
    var m, k :| -P53 < m < P53 && -1074 <= k <= 971 && z == Scaled(m, k);
    var j := FloatInUnits(m, k, e, z, unit);
    NearestAmong(x, q, y, n, z, j, unit);
  }

  lemma NearestAmong(x: real, q: real, y: real, n: int, z: real, j: int, unit: real)
    requires unit > 0.0 && x == q * unit && n == NearestInt(q) && y == Times(n, unit) && q.Floor >= P53 / 2
    requires z == Times(j, unit) || z < 4503599627370496.0 * unit
    ensures Abs(x - y) <= Abs(x - z) && (z != y && Abs(x - z) == Abs(x - y) ==> EvenMultiple(y, Abs(y - z)))
  {
    if z == Times(j, unit) {
      NearestMultiple(x, q, y, n, z, j, unit);
      if n % 2 == 0 { EvenUnits(n, unit); }
    } else {
      var below := Times(q.Floor, unit);
      NearestMultiple(x, q, y, n, below, q.Floor, unit);
      BelowBinade(x, q, q.Floor, unit, below, z);
    }
  }

  /** The computed rounding is the nearest float, ties to even. */
  lemma RoundRounds(x: real)
    requires Pow2(-64) <= x < Pow2(65)
    ensures Rounds(x, Round(x))
  {
    var e, unit, q, n := Rounded(x);
    var y := Round(x);
    NearestIntPicks(q, 0);
    UnitsAreFloat(n, e);
    forall z | IsFloat(z)
      ensures Abs(x - y) <= Abs(x - z) && (z != y && Abs(x - z) == Abs(x - y) ==> EvenMultiple(y, Abs(y - z)))
    {
      NearestFloat(x, y, z, e, unit, q, n);
    }
  }

  // ----- consequences -----

  lemma Exact(x: real, y: real)
    requires Rounds(x, y) && IsFloat(x)
    ensures y == x
  {
    assert Abs(x - y) <= Abs(x - x);
  }

  /** Rounding does not cross a float. */
  lemma StaysAbove(x: real, y: real, z: real)
    requires Rounds(x, y) && IsFloat(z) && z <= x
    ensures z <= y
  {
    assert Abs(x - y) <= Abs(x - z);
  }

  lemma StaysBelow(x: real, y: real, z: real)
    requires Rounds(x, y) && IsFloat(z) && x <= z
    ensures y <= z
  {
    assert Abs(x - y) <= Abs(x - z);
  }

  lemma IntIsFloat(n: nat)
    requires n <= P53
    ensures IsFloat(n as real)
  {
    if n < P53 {
      assert n as real == Scaled(n, 0);
      ScaledIsFloat(n, 0);
    } else {
      assert Pow2(1) == 2.0;
      assert n as real == Scaled(P53 / 2, 1);
      ScaledIsFloat(P53 / 2, 1);
    }
  }

  lemma SmallestIsFloat()
    ensures IsFloat(Pow2(-64)) && 0.0 < Pow2(-64) < 1.0 && Pow2(-64) * Pow2(64) == 1.0
  {
    assert Pow2(-64) == Scaled(1, -64);
    ScaledIsFloat(1, -64);
    PowPositive(-64);
    PowMonotone(-64, -1);
    assert Pow2(-1) == 0.5;
    PowAdd(-64, 64);
  }

  lemma IntRounds(n: nat)
    requires 0 < n < 0x8000_0000_0000_0000
    ensures Rounds(n as real, Round(n as real)) && 1.0 <= Round(n as real) <= 9223372036854775808.0
    ensures n <= P53 ==> Round(n as real) == n as real
    ensures n >= P53 ==> Round(n as real) >= P53 as real
  {
    SmallestIsFloat();
    BigPowers();
    RoundRounds(n as real);
    IntIsFloat(1);
    IntIsFloat(P53);
    StaysAbove(n as real, Round(n as real), 1.0);
    assert Pow2(63) == Scaled(1, 63);
    ScaledIsFloat(1, 63);
    StaysBelow(n as real, Round(n as real), Pow2(63));
    if n <= P53 {
      IntIsFloat(n);
      Exact(n as real, Round(n as real));
    }
    if n >= P53 { StaysAbove(n as real, Round(n as real), P53 as real); }
  }

  // ----- the chunk count -----

  /** The binade of an integer. */
  lemma {:induction false} Binade(k: nat, e: nat) returns (r: nat)
    requires IntPow(e) <= k
    ensures r >= e && IntPow(r) <= k < 2 * IntPow(r)
    decreases k - e
  {
    IntPowExceeds(e);
    if k < 2 * IntPow(e) { r := e; } else { r := Binade(k, e + 1); }
  }

  lemma {:induction false} IntPowExceeds(e: nat)
    ensures IntPow(e) > e
  {
    if e > 0 { IntPowExceeds(e - 1); }
  }

  lemma {:induction false} IntPowSplits(a: nat, b: nat)
    ensures IntPow(a + b) == IntPow(a) * IntPow(b) && IntPow(a) <= IntPow(a + b)
  {
    if b == 0 {
    } else {
      IntPowSplits(a, b - 1);
      assert IntPow(a) * (2 * IntPow(b - 1)) == 2 * (IntPow(a) * IntPow(b - 1));
    }
  }

  lemma IntPow52()
    ensures IntPow(52) == P53 / 2
  {
    BigPowers();
    IntPowIs(52);
  }

  lemma IntProductOrder(a: nat, b: nat, c: nat)
    requires a <= b
    ensures a * c <= b * c
  {
    assert (b - a) * c >= 0;
  }

  lemma JustAbove(k: nat, p: nat, q: nat)
    requires p >= 2 && k < 2 * q && q * p == P53 / 2
    ensures k * p + 1 < P53
  {
    IntProductOrder(k + 1, 2 * q, p);
  }

  lemma SuccessorSum(k: nat, p: nat, u: real)
    requires p as real * u == 1.0
    ensures Times(k * p + 1, u) == k as real + u
  {
    Associate(k as real, p as real, u);
    assert (k * p) as real == k as real * p as real;
  }

  /** Close above an integer below 2^52 there is a float. */
  lemma FloatAbove(k: nat, c: nat) returns (u: real)
    requires k >= 1 && c >= 2 && k * c < P53
    ensures u > 0.0 && IsFloat(k as real + u) && u * c as real < 2.0
  {
    IntProductOrder(2, c, k);
    var d, p, q := Spacing(k);
    u := Pow2(-d);
    JustAbove(k, p, q);
    SuccessorSum(k, p, u);
    SmallSpacing(k, c, q, p, u);
    UnitsAreFloat(k * p + 1, -d);
  }

  /** The spacing of the floats around an integer below 2^52 is 2^-d, one p-th; the integer lies in the binade of q. */
  lemma Spacing(k: nat) returns (d: int, p: nat, q: nat)
    requires 1 <= k < P53 / 2
    ensures 0 < d <= 52 && Pow2(-d) > 0.0 && p as real * Pow2(-d) == 1.0 && p >= 2
    ensures q <= k < 2 * q && q * p == P53 / 2
  {
    d, p, q := SpacingCounts(k);
    Reciprocal(d);
  }

  lemma SpacingCounts(k: nat) returns (d: int, p: nat, q: nat)
    requires 1 <= k < P53 / 2
    ensures 0 < d <= 52 && p == IntPow(d) && p >= 2 && q <= k < 2 * q && q * p == P53 / 2
  {
    var b := BinadeBelow52(k);
    d := 52 - b;
    q := IntPow(b);
    p := IntPow(d);
    IntPow52();
    IntPowSplits(b, d);
    IntPowExceeds(d);
  }

  lemma BinadeBelow52(k: nat) returns (b: nat)
    requires 1 <= k < P53 / 2
    ensures b < 52 && IntPow(b) <= k < 2 * IntPow(b)
  {
    b := Binade(k, 0);
    IntPow52();
    if b >= 52 { IntPowSplits(52, b - 52); }
  }

  lemma Reciprocal(d: int)
    requires d >= 0
    ensures Pow2(-d) > 0.0 && IntPow(d) as real * Pow2(-d) == 1.0
  {
    PowPositive(-d);
    IntPowIs(d);
    PowAdd(d, -d);
  }

  lemma SpacingCount(c: nat, p: nat, q: nat)
    requires q * c < P53 && q * p == P53 / 2
    ensures c < 2 * p
  {
    if c >= 2 * p { IntProductOrder(2 * p, c, q); }
  }

  lemma SmallSpacing(k: nat, c: nat, q: nat, p: nat, u: real)
    requires q <= k && k * c < P53 && q * p == P53 / 2 && p as real * u == 1.0 && u > 0.0
    ensures u * c as real < 2.0
  {
    IntProductOrder(q, k, c);
    SpacingCount(c, p, q);
    LessThanTwo(c as real, p as real, u, u * c as real);
  }

  lemma LessThanTwo(c: real, p: real, u: real, cu: real)
    requires u > 0.0 && p * u == 1.0 && c < 2.0 * p && cu == c * u
    ensures cu < 2.0
  {
    ScaledOrder(c, 2.0 * p, u, cu, 2.0);
  }

  /** The rounded quotient stays above the largest integer below the exact one. */
  lemma RoundsAbove(x: real, y: real, k: nat, c: nat, f: nat)
    requires x * c as real == f as real && k * c < f <= P53 && k >= 1 && c >= 2 && Rounds(x, y) && k as real <= y
    ensures y > k as real
  {
    var u := FloatAbove(k, c);
    var gap := GapBelow(x, k, c, f);
    CloserAbove(x, k as real, gap, c as real, u, u * c as real, gap * c as real);
    assert Abs(x - y) <= Abs(x - (k as real + u));
  }

  lemma GapBelow(x: real, k: nat, c: nat, f: nat) returns (gap: real)
    requires x * c as real == f as real && k * c < f
    ensures gap == x - k as real && gap * c as real >= 1.0
  {
    gap := x - k as real;
    Distribute(x, k as real, c as real);
    assert (k * c) as real == k as real * c as real;
  }

  lemma CloserAbove(x: real, k: real, gap: real, c: real, u: real, uc: real, gc: real)
    requires c > 0.0 && u > 0.0 && uc == u * c && uc < 2.0 && gap == x - k && gc == gap * c && gc >= 1.0
    ensures Abs(x - (k + u)) < Abs(x - k)
  {
    ScaledOrder(u, 2.0 * gap, c, uc, 2.0 * gc);
  }

  lemma CeilBetween(y: real, n: int)
    requires (n - 1) as real < y <= n as real
    ensures Ceil(y) == n
  {}

  lemma QuotientRange(f: nat, divisor: real) returns (x: real)
    requires 1 <= f <= P53 && 1.0 <= divisor <= 9223372036854775808.0
    ensures x == Quotient(f as real, divisor) && x * divisor == f as real && Pow2(-64) <= x < Pow2(65)
    ensures f as real <= divisor ==> x <= 1.0
  {
    x := f as real / divisor;
    SmallestIsFloat();
    BigPowers();
    TinyTimes(Pow2(-64), divisor);
    ProductOrder(x, Pow2(-64), divisor);
    ProductOrder(x, Pow2(65), divisor);
    ProductOrder(x, 1.0, divisor);
    assert Pow2(65) * divisor >= Pow2(65) by { ProductOrder(divisor, 1.0, Pow2(65)); }
  }

  lemma TinyTimes(tiny: real, divisor: real)
    requires tiny > 0.0 && tiny * 18446744073709551616.0 == 1.0 && divisor <= 9223372036854775808.0
    ensures tiny * divisor < 1.0
  {
    ProductOrder(divisor, 18446744073709551616.0, tiny);
  }

  lemma IntTimes(n: nat, c: nat)
    ensures (n * c) as real == n as real * c as real
  {}

  lemma CompareToInt(x: real, f: nat, c: nat, n: nat)
    requires c >= 1 && x * c as real == f as real
    ensures x <= n as real <==> f <= n * c
  {
    IntTimes(n, c);
    ScaledOrder(x, n as real, c as real, f as real, (n * c) as real);
  }

  /** The quotient of two integers lies above one and at most at the other of two neighbouring integers. */
  lemma BetweenInts(x: real, f: nat, c: nat, n: nat)
    requires c >= 1 && n >= 1 && x * c as real == f as real && (n - 1) * c < f <= n * c
    ensures (n - 1) as real < x <= n as real
  {
    CompareToInt(x, f, c, n - 1);
    CompareToInt(x, f, c, n);
  }

  lemma CeilingAtMost(f: nat, c: nat)
    requires f >= 1 && c >= 1
    ensures 1 <= Ceiling(f, c) <= f && (c == 1 ==> Ceiling(f, c) == f)
  {
    var n := Ceiling(f, c);
    CeilingBounds(f, c);
    IntProductOrder(1, c, n - 1);
  }

  lemma RoundedBetween(x: real, y: real, n: nat)
    requires Rounds(x, y) && 1 <= n <= P53 && (n - 1) as real < x <= n as real && Pow2(-64) <= x
    ensures (n - 1) as real <= y <= n as real && y > 0.0
  {
    IntIsFloat(n);
    IntIsFloat(n - 1);
    SmallestIsFloat();
    StaysAbove(x, y, (n - 1) as real);
    StaysBelow(x, y, n as real);
    StaysAbove(x, y, Pow2(-64));
  }

  /** The rounded quotient lies where the exact one does: above n - 1 and at most at n. */
  lemma RoundedQuotient(x: real, y: real, f: nat, c: nat, n: nat)
    requires f <= P53 && c >= 1 && 1 <= n <= f && (c == 1 ==> n == f) && (n - 1) * c < f
    requires x * c as real == f as real && (n - 1) as real < x <= n as real && Pow2(-64) <= x && Rounds(x, y)
    ensures (n - 1) as real < y <= n as real
  {
    RoundedBetween(x, y, n);
    if c == 1 {
      IntIsFloat(n);
      Exact(x, y);
    } else if n > 1 {
      RoundsAbove(x, y, n - 1, c, f);
    }
  }

  lemma ChunkCountQuotient(x: real, f: nat, c: nat)
    requires 1 <= f <= P53 && c >= 1 && x * c as real == f as real && Pow2(-64) <= x < Pow2(65)
    ensures Ceil(Round(x)) == Ceiling(f, c)
  {
    CeilingBounds(f, c);
    CeilingAtMost(f, c);
    BetweenInts(x, f, c, Ceiling(f, c));
    RoundRounds(x);
    RoundedQuotient(x, Round(x), f, c, Ceiling(f, c));
    CeilBetween(Round(x), Ceiling(f, c));
  }

  lemma SmallQuotient(x: real)
    requires Pow2(-64) <= x <= 1.0
    ensures Ceil(Round(x)) == 1
  {
    BigPowers();
    RoundRounds(x);
    IntIsFloat(1);
    SmallestIsFloat();
    StaysAbove(x, Round(x), Pow2(-64));
    StaysBelow(x, Round(x), 1.0);
    CeilBetween(Round(x), 1);
  }

  /** Up to 2^53 bytes the float64 division and ceiling give the integer ceiling, for every chunk size. */
  lemma ChunkCountExact(fileSize: nat, chunkSize: nat)
    requires fileSize <= P53 && 0 < chunkSize < 0x8000_0000_0000_0000
    ensures NumberOfChunks(fileSize, chunkSize) == Ceiling(fileSize, chunkSize)
  {
    if fileSize > 0 {
      IntRounds(fileSize);
      IntRounds(chunkSize);
      CountFromRounded(fileSize, chunkSize, Round(chunkSize as real));
    }
  }

  lemma CountFromRounded(f: nat, c: nat, divisor: real)
    requires 1 <= f <= P53 && c >= 1 && 1.0 <= divisor <= 9223372036854775808.0
    requires if c <= P53 then divisor == c as real else divisor >= P53 as real
    ensures Ceil(Round(Quotient(f as real, divisor))) == Ceiling(f, c)
  {
    var x := QuotientRange(f, divisor);
    if c <= P53 { ChunkCountQuotient(x, f, c); } else { SmallQuotient(x); }
  }

  /** A float64 that counts bytes up to 2^53 counts them exactly. */
  lemma ByteCountExact(counted: nat, more: nat)
    requires 0 < counted + more <= P53
    ensures Round(counted as real + more as real) == (counted + more) as real
  {
    IntRounds(counted + more);
    assert counted as real + more as real == (counted + more) as real;
  }

  // ----- beyond 2^53 -----

  lemma FewSteps(m: int, step: real)
    requires m < P53 && 0.0 < step <= 1.0
    ensures Times(m, step) < P53 as real
  {
    ProductGrows(m as real, P53 as real, step);
    ScaledOrder(step, 1.0, P53 as real, step * P53 as real, P53 as real);
  }

  lemma EvenSteps(m: int, times: nat, step: real)
    requires step == Times(times, 2.0)
    ensures Times(m, step) == (2 * (m * times)) as real
  {
    WholeUnits(m, step, times, 2.0, m * times);
  }

  /** From 2^53 on only even integers are floats. */
  lemma LargeFloatIsEven(y: real) returns (i: int)
    requires IsFloat(y) && y >= P53 as real
    ensures y == (2 * i) as real
  {
    var m, k :| -P53 < m < P53 && -1074 <= k <= 971 && y == Scaled(m, k);
    if k <= 0 {
      PowPositive(k);
      PowMonotone(k, 0);
      FewSteps(m, Pow2(k));
      assert false;
    }
    var times := StepsInUnits(k, 1);
    assert Pow2(1) == 2.0;
    EvenSteps(m, times, Pow2(k));
    i := m * times;
  }

  lemma OneByteCount(fileSize: nat)
    requires 0 < fileSize < 0x8000_0000_0000_0000
    ensures IsFloat(Round(fileSize as real)) && NumberOfChunks(fileSize, 1) == Ceil(Round(fileSize as real))
  {
    IntRounds(fileSize);
    IntRounds(1);
    QuotientByOne(Round(fileSize as real));
    RoundsToItself(Round(fileSize as real));
  }

  lemma QuotientByOne(y: real)
    ensures Quotient(y, 1.0) == y
  {}

  lemma RoundsToItself(y: real)
    requires IsFloat(y) && 1.0 <= y <= 9223372036854775808.0
    ensures Round(y) == y
  {
    SmallestIsFloat();
    BigPowers();
    RoundRounds(y);
    Exact(y, Round(y));
  }

  /** Beyond 2^53 the count can be wrong. With one-byte chunks it is right exactly when the file's size is itself a
      binary64 number. */
  lemma OneByteChunksExactly(fileSize: nat)
    requires fileSize < 0x8000_0000_0000_0000
    ensures NumberOfChunks(fileSize, 1) == Ceiling(fileSize, 1) <==> IsFloat(fileSize as real)
  {
    CeilingAtMost(if fileSize == 0 then 1 else fileSize, 1);
    if fileSize <= P53 {
      ChunkCountExact(fileSize, 1);
      IntIsFloat(fileSize);
    } else {
      OneByteCount(fileSize);
      IntRounds(fileSize);
      var y := Round(fileSize as real);
      var i := LargeFloatIsEven(y);
      CeilBetween(y, 2 * i);
      if IsFloat(fileSize as real) { Exact(fileSize as real, y); }
    }
  }

  /** A file of 2^53 + 1 bytes cut into single bytes loses its last one. */
  lemma LastByteLost()
    ensures NumberOfChunks(P53 + 1, 1) == P53 && Ceiling(P53 + 1, 1) == P53 + 1
  {
    CeilingAtMost(P53 + 1, 1);
    OneByteCount(P53 + 1);
    IntRounds(P53 + 1);
    NextToP53((P53 + 1) as real, Round((P53 + 1) as real));
    CeilBetween(P53 as real, P53);
  }

  lemma NextToP53(x: real, y: real)
    requires x == (P53 + 1) as real && Rounds(x, y)
    ensures y == P53 as real
  {
    IntIsFloat(P53);
    StaysAbove(x, y, P53 as real);
    var i := LargeFloatIsEven(y);
    assert Abs(x - y) <= Abs(x - P53 as real);
    TieGoesDown(x, y);
  }

  /** The tie between 2^53 and 2^53 + 2 goes to the first, whose significand is even. */
  lemma TieGoesDown(x: real, y: real)
    requires x == (P53 + 1) as real && Rounds(x, y) && (y == P53 as real || y == (P53 + 2) as real)
    ensures y == P53 as real
  {
    IntIsFloat(P53);
    var low, high := P53 as real, (P53 + 2) as real;
    assert Abs(x - low) == Abs(x - high) && Abs(high - low) == 2.0;
    OddMultiple(high);
  }

  lemma OddMultiple(y: real)
    requires y == (P53 + 2) as real
    ensures !EvenMultiple(y, 2.0)
  {
    forall n: int ensures y != Times(2 * n, 2.0) {
      assert Times(2 * n, 2.0) == (4 * n) as real;
    }
  }
}
