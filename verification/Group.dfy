/**
 * Scalars and points (packages/crypto/src/group.ts). The order is any prime; a point is its
 * discrete logarithm to the base `G`, so the group is the integers modulo the order.
 */
module Group {
  import opened Results

  predicate IsPrime(p: int) {
    p > 1 && forall d :: 1 < d < p ==> p % d != 0
  }

  type Prime = p: int | IsPrime(p) witness 3

  const SCALAR_ORDER: Prime

  /** A canonical scalar, and the logarithm of a point. */
  predicate Canonical(x: int) {
    0 <= x < SCALAR_ORDER
  }

  function ModScalar(x: int): (r: int)
    ensures Canonical(r)
  {
    x % SCALAR_ORDER
  }

  /** Equality of scalars, or of points, given by any representatives. */
  predicate Same(x: int, y: int) {
    ModScalar(x) == ModScalar(y)
  }

  // ---- congruence ----

  lemma SameIff(x: int, y: int)
    ensures Same(x, y) <==> (x - y) % SCALAR_ORDER == 0
  {
    var p: int := SCALAR_ORDER;
    DivMod(x, p);
    DivMod(y, p);
    if Same(x, y) {
      Multiple(x / p - y / p, p);
      assert x - y == (x / p - y / p) * p;
    } else if (x - y) % p == 0 {
      DivMod(x - y, p);
      var k := (x - y) / p;
      assert x == y + k * p;
      Shift(y, k, p);
    }
  }

  lemma DivMod(x: int, p: int)
    requires p > 0
    ensures x == (x / p) * p + x % p
  {
  }

  lemma Multiple(k: int, p: int)
    requires p > 0
    ensures (k * p) % p == 0
  {
    Shift(0, k, p);
  }

  /** Adding a multiple of the modulus does not change the remainder. */
  lemma Shift(x: int, k: int, p: int)
    requires p > 0
    ensures (x + k * p) % p == x % p
  {
    DivMod(x, p);
    DivMod(x + k * p, p);
    var q := (x + k * p) / p - x / p - k;
    assert (x + k * p) % p - x % p == -q * p;
    if q > 0 {
      Grows(q, p);
    } else if q < 0 {
      Grows(-q, p);
    }
  }

  lemma Grows(q: int, p: int)
    requires q >= 1 && p > 0
    ensures q * p >= p
  {
    assert (q - 1) * p >= 0;
  }

  /** Congruent numbers differ by a multiple of the order. */
  lemma SameGap(a: int, b: int) returns (k: int)
    requires Same(a, b)
    ensures a == b + k * SCALAR_ORDER
  {
    SameIff(a, b);
    DivMod(a - b, SCALAR_ORDER);
    k := (a - b) / SCALAR_ORDER;
  }

  lemma GapSame(a: int, b: int, k: int)
    requires a == b + k * SCALAR_ORDER
    ensures Same(a, b)
  {
    Shift(b, k, SCALAR_ORDER);
  }

  lemma Gather(m: int, n: int, p: int)
    ensures (m + n) * p == m * p + n * p && (m - n) * p == m * p - n * p
  {
  }

  lemma GatherProduct(b: int, d: int, m: int, n: int, p: int)
    ensures (b + m * p) * (d + n * p) == b * d + (b * n + m * d + m * n * p) * p
  {
    assert b * (n * p) == b * n * p && m * p * d == m * d * p && m * p * (n * p) == m * n * p * p;
  }

  lemma AddSame(a: int, b: int, c: int, d: int)
    requires Same(a, b) && Same(c, d)
    ensures Same(a + c, b + d) && Same(a - c, b - d)
  {
    var m := SameGap(a, b);
    var n := SameGap(c, d);
    Gather(m, n, SCALAR_ORDER);
    GapSame(a + c, b + d, m + n);
    GapSame(a - c, b - d, m - n);
  }

  lemma MulSame(a: int, b: int, c: int, d: int)
    requires Same(a, b) && Same(c, d)
    ensures Same(a * c, b * d)
  {
    var m := SameGap(a, b);
    var n := SameGap(c, d);
    GatherProduct(b, d, m, n, SCALAR_ORDER);
    GapSame(a * c, b * d, b * n + m * d + m * n * SCALAR_ORDER);
  }

  lemma ModIsSame(x: int)
    ensures Same(ModScalar(x), x)
  {
  }

  /** Canonical representatives are unique. */
  lemma CanonicalSame(x: int, y: int)
    requires Canonical(x) && Canonical(y) && Same(x, y)
    ensures x == y
  {
  }

  // ---- inversion ----

  /** Bezout coefficients, as the extended Euclidean algorithm finds them. */
  datatype Bezout = Bezout(gcd: nat, x: int, y: int)

  lemma BezoutStep(a: int, b: int, q: int, rest: int, x: int, y: int)
    requires a == q * b + rest
    ensures y * a + (x - q * y) * b == x * b + y * rest
  {
    assert y * a == y * (q * b) + y * rest;
    assert (x - q * y) * b == x * b - (q * y) * b;
    assert y * (q * b) == (q * y) * b;
  }

  lemma DivisorStep(a: int, b: int, q: int, rest: int, g: int)
    requires g > 0 && a == q * b + rest && b % g == 0 && rest % g == 0
    ensures a % g == 0
  {
    DivMod(b, g);
    DivMod(rest, g);
    assert q * b == q * ((b / g) * g) == (q * (b / g)) * g;
    assert a == (q * (b / g)) * g + (rest / g) * g == (q * (b / g) + rest / g) * g;
    Multiple(q * (b / g) + rest / g, g);
  }

  function Euclid(a: nat, b: nat): (r: Bezout)
    requires a > 0 || b > 0
    ensures r.gcd > 0 && r.x * a + r.y * b == r.gcd
    ensures a % r.gcd == 0 && b % r.gcd == 0
    decreases b
  {
    if b == 0 then
      Multiple(1, a);
      Bezout(a, 1, 0)
    else
      var r := Euclid(b, a % b);
      DivMod(a, b);
      BezoutStep(a, b, a / b, a % b, r.x, r.y);
      DivisorStep(a, b, a / b, a % b, r.gcd);
      Bezout(r.gcd, r.y, r.x - (a / b) * r.y)
  }

  lemma PrimeGcd(s: int)
    requires 0 < s < SCALAR_ORDER
    ensures Euclid(s, SCALAR_ORDER).gcd == 1
  {
    hide Euclid;
    var g := Euclid(s, SCALAR_ORDER).gcd;
    DivisorBound(s, g);
  }

  lemma DivisorBound(s: int, g: int)
    requires s > 0 && g > 0 && s % g == 0
    ensures g <= s
  {
  }

  lemma BezoutSame(s: int, x: int, y: int)
    requires x * s + y * SCALAR_ORDER == 1
    ensures Same(s * x, 1)
  {
    assert s * x == 1 + (-y) * SCALAR_ORDER;
    Shift(1, -y, SCALAR_ORDER);
  }

  lemma EuclidInverts(s: int)
    requires 0 < s < SCALAR_ORDER
    ensures ModScalar(s * ModScalar(Euclid(s, SCALAR_ORDER).x)) == 1
  {
    hide Euclid, ModScalar;
    var e := Euclid(s, SCALAR_ORDER);
    PrimeGcd(s);
    ModIsSame(e.x);
    MulSame(s, s, ModScalar(e.x), e.x);
    BezoutSame(s, e.x, e.y);
    OneIsCanonical();
  }

  lemma OneIsCanonical()
    ensures ModScalar(1) == 1 && ModScalar(0) == 0 && !Same(1, 0)
  {
  }

  /** Inversion rejects zero and noncanonical scalars. */
  function InvertScalar(s: int): (r: Result<int>)
    ensures r.Ok? <==> 0 < s < SCALAR_ORDER
    ensures r.Ok? ==> Canonical(r.value) && ModScalar(s * r.value) == 1
  {
    if !(0 < s < SCALAR_ORDER) then Err("range")
    else
      EuclidInverts(s);
      Ok(ModScalar(Euclid(s, SCALAR_ORDER).x))
  }

  lemma NonzeroIsInvertible(a: int)
    requires !Same(a, 0)
    ensures 0 < ModScalar(a) < SCALAR_ORDER
  {
  }

  lemma Reciprocal(a: int) returns (b: int)
    requires !Same(a, 0)
    ensures Canonical(b) && Same(a * b, 1)
  {
    hide ModScalar, InvertScalar;
    var s := ModScalar(a);
    NonzeroIsInvertible(a);
    b := InvertScalar(s).value;
    ModIsSame(a);
    MulSame(s, a, b, b);
    OneIsCanonical();
  }

  /** A nonzero factor can be cancelled: the order is prime. */
  lemma CancelFactor(a: int, x: int, y: int)
    requires !Same(a, 0) && Same(a * x, a * y)
    ensures Same(x, y)
  {
    hide ModScalar;
    var b := Reciprocal(a);
    MulSame(a * x, a * y, b, b);
    MulSame(a * b, 1, x, x);
    MulSame(a * b, 1, y, y);
    assert (a * x) * b == (a * b) * x;
    assert (a * y) * b == (a * b) * y;
  }

  lemma ProductNonzero(a: int, b: int)
    requires !Same(a, 0) && !Same(b, 0)
    ensures !Same(a * b, 0)
  {
    if Same(a * b, 0) {
      assert a * 0 == 0;
      CancelFactor(a, b, 0);
    }
  }

  // ---- points ----

  /** `scalar` times a point; zero is allowed on both sides. */
  function ScalePoint(point: int, scalar: int): (r: int)
    ensures Canonical(r) && Same(r, point * scalar)
  {
    ModScalar(point * scalar)
  }

  function AddPoints(a: int, b: int): (r: int)
    ensures Canonical(r) && Same(r, a + b)
  {
    ModScalar(a + b)
  }

  function SubtractPoints(a: int, b: int): (r: int)
    ensures Canonical(r) && Same(r, a - b)
  {
    ModScalar(a - b)
  }

  datatype ProductTerms = ProductTerms(positive: int, correction: int, half: int, remainder: int)

  /** Two multiplications by nonzero scalars whose difference is the product, also for scalar zero. */
  function ZeroSafeProductTerms(point: int, scalar: int): (r: ProductTerms)
    requires Canonical(scalar)
  {
    var half := scalar / 2 + 1;
    var correction := 2 - scalar % 2;
    ProductTerms(AddPoints(ScalePoint(point, half), ScalePoint(point, half)), ScalePoint(point, correction), half,
                 correction)
  }

  lemma ZeroSafeDifference(point: int, scalar: int)
    requires Canonical(scalar)
    ensures var terms := ZeroSafeProductTerms(point, scalar);
            && SubtractPoints(terms.positive, terms.correction) == ScalePoint(point, scalar)
            && 0 < terms.half && (SCALAR_ORDER > 2 ==> terms.half < SCALAR_ORDER)
            && 0 < terms.remainder <= 2
  {
    var terms := ZeroSafeProductTerms(point, scalar);
    var once := ScalePoint(point, terms.half);
    AddSame(once, point * terms.half, once, point * terms.half);
    AddSame(terms.positive, point * terms.half + point * terms.half, terms.correction, point * terms.remainder);
    assert 2 * terms.half - terms.remainder == scalar;
    ScaledDifference(point, terms.half, terms.remainder);
  }

  lemma ScaledDifference(point: int, half: int, remainder: int)
    ensures point * half + point * half - point * remainder == point * (2 * half - remainder)
  {
  }
}
