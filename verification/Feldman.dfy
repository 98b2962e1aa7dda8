/** Threshold escrow with verifiable shares (packages/crypto/src/feldman.ts). */
module Feldman {
  import opened Results
  import opened Group
  import opened Polynomials

  const MAX_SHARES := 6
  const MAX_INDEX := 65_535

  datatype Share = Share(index: int, value: int)

  /** Commitments are points; the first is the secret times the base. */
  datatype Distribution = Distribution(shares: seq<Share>, commitments: seq<int>)

  datatype Expectation = Expectation(threshold: int, masterPub: int, recipientIndex: int)

  predicate ValidIndex(index: int) {
    0 < index <= MAX_INDEX
  }

  predicate ValidIndices(indices: seq<int>) {
    && 1 <= |indices| <= MAX_SHARES
    && (forall i :: i in indices ==> ValidIndex(i))
    && forall i, j :: 0 <= i < j < |indices| ==> indices[i] != indices[j]
  }

  function Indices(shares: seq<Share>): (r: seq<int>)
    ensures |r| == |shares| && forall i :: 0 <= i < |shares| ==> r[i] == shares[i].index
  {
    seq(|shares|, i requires 0 <= i < |shares| => shares[i].index)
  }

  /** Horner's rule from the highest coefficient down, reduced at every step. */
  method PolynomialAt(coefficients: seq<int>, index: int) returns (value: int)
    ensures value == ModScalar(Eval(coefficients, index))
  {
    hide Same;
    var k := |coefficients|;
    value := 0;
    EvalEmpty(index);
    while k > 0
      invariant 0 <= k <= |coefficients|
      invariant Canonical(value) && Same(value, Eval(coefficients[k..], index))
    {
      k := k - 1;
      var step := value * index + coefficients[k];
      assert coefficients[k..][0] == coefficients[k] && coefficients[k..][1..] == coefficients[k + 1..];
      HornerStep(value, Eval(coefficients[k + 1..], index), coefficients[k], index);
      value := ModScalar(step);
      ModIsSame(step);
      SameTransitive(value, step, Eval(coefficients[k..], index));
    }
    assert coefficients[0..] == coefficients;
    ModIsSame(Eval(coefficients, index));
    SameCanonical(value, Eval(coefficients, index));
  }

  lemma HornerStep(value: int, tail: int, c: int, x: int)
    requires Same(value, tail)
    ensures Same(value * x + c, c + x * tail)
  {
    MulSame(value, tail, x, x);
    AddSame(value * x, tail * x, c, c);
  }

  lemma SameCanonical(x: int, y: int)
    requires Canonical(x) && Same(x, y)
    ensures x == ModScalar(y)
  {
  }

  // ---- dealing and checking ----

  function Coefficients(secret: int, threshold: nat, derive: nat -> int): (r: seq<int>)
    requires threshold >= 1
    ensures |r| == threshold && r[0] == secret
  {
    seq(threshold, k requires 0 <= k < threshold => if k == 0 then secret else ModScalar(derive(k)))
  }

  predicate Dealable(secret: int, indices: seq<int>, threshold: int) {
    Canonical(secret) && ValidIndices(indices) && 1 <= threshold <= |indices|
  }

  method CreateShares(secret: int, indices: seq<int>, threshold: int, derive: nat -> int)
    returns (r: Result<Distribution>)
    ensures r.Ok? <==> Dealable(secret, indices, threshold)
    ensures r.Ok? ==>
      var coefficients := Coefficients(secret, threshold, derive);
      && Indices(r.value.shares) == indices
      && (forall i :: 0 <= i < |indices| ==> r.value.shares[i].value == ModScalar(Eval(coefficients, indices[i])))
      && |r.value.commitments| == threshold
      && (forall k :: 0 <= k < threshold ==> r.value.commitments[k] == ScalePoint(1, coefficients[k]))
  {
    hide Eval, ModScalar, ScalePoint;
    if !Canonical(secret) || !ValidIndices(indices) || threshold < 1 || threshold > |indices| {
      return Err("range");
    }
    var coefficients := Coefficients(secret, threshold, derive);
    var shares: seq<Share> := [];
    for i := 0 to |indices|
      invariant |shares| == i
      invariant forall j :: 0 <= j < i ==> shares[j] == Share(indices[j], ModScalar(Eval(coefficients, indices[j])))
    {
      var value := PolynomialAt(coefficients, indices[i]);
      shares := shares + [Share(indices[i], value)];
    }
    var commitments := seq(threshold, k requires 0 <= k < threshold => ScalePoint(1, coefficients[k]));
    return Ok(Distribution(shares, commitments));
  }

  predicate Expected(share: Share, commitments: seq<int>, expected: Expectation) {
    && ValidIndex(share.index) && Canonical(share.value)
    && 1 <= expected.threshold <= MAX_SHARES
    && ValidIndex(expected.recipientIndex) && share.index == expected.recipientIndex
    && |commitments| == expected.threshold && commitments[0] == expected.masterPub
    && forall c :: c in commitments ==> Canonical(c)
  }

  /** A share is good when its value is the committed polynomial's value at its index. */
  predicate Accepted(share: Share, commitments: seq<int>, expected: Expectation) {
    Expected(share, commitments, expected) && share.value == ModScalar(Eval(commitments, share.index))
  }

  /** The checking loop adds commitment times power, with the power reduced at every step. */
  method VerifyShare(share: Share, commitments: seq<int>, expected: Expectation) returns (ok: bool)
    ensures ok <==> Accepted(share, commitments, expected)
  {
    hide Same;
    if !Expected(share, commitments, expected) {
      return false;
    }
    var x, power, expectedPoint := share.index, 1, ScalePoint(1, 0);
    PrefixEmpty(x);
    for i := 0 to |commitments|
      invariant Canonical(expectedPoint) && Same(expectedPoint, Prefix(commitments, x, i)) && Same(power, Power(x, i))
    {
      var term := ScalePoint(commitments[i], power);
      TermStep(expectedPoint, Prefix(commitments, x, i), commitments[i], power, Power(x, i), x);
      expectedPoint := AddPoints(expectedPoint, term);
      ModIsSame(power * x);
      SameTransitive(ModScalar(power * x), power * x, Power(x, i + 1));
      power := ModScalar(power * x);
    }
    PrefixIsEval(commitments, x, |commitments|);
    assert commitments[..|commitments|] == commitments;
    SameCanonical(expectedPoint, Eval(commitments, x));
    ScaleBase(share.value);
    ok := ScalePoint(1, share.value) == expectedPoint;
  }

  function Power(x: int, k: nat): int {
    if k == 0 then 1 else Power(x, k - 1) * x
  }

  /** The first `k` terms, lowest first. */
  function Prefix(c: seq<int>, x: int, k: nat): int
    requires k <= |c|
  {
    if k == 0 then 0 else Prefix(c, x, k - 1) + c[k - 1] * Power(x, k - 1)
  }

  lemma PrefixEmpty(x: int)
    ensures Prefix([], x, 0) == 0 && Power(x, 0) == 1 && Same(ScalePoint(1, 0), 0) && Same(1, 1)
  {
  }

  lemma TermStep(sum: int, prefix: int, c: int, power: int, exact: int, x: int)
    requires Same(sum, prefix) && Same(power, exact)
    ensures Same(AddPoints(sum, ScalePoint(c, power)), prefix + c * exact) && Same(power * x, exact * x)
  {
    MulSame(c, c, power, exact);
    MulSame(power, exact, x, x);
    AddSame(sum, prefix, ScalePoint(c, power), c * exact);
  }

  lemma ScaleBase(value: int)
    requires Canonical(value)
    ensures ScalePoint(1, value) == value
  {
  }

  /** Summing terms from the lowest agrees with Horner's rule. */
  lemma {:induction false} PrefixIsEval(c: seq<int>, x: int, k: nat)
    requires k <= |c|
    ensures Prefix(c, x, k) == Eval(c[..k], x)
  {
    if k > 0 {
      PrefixIsEval(c, x, k - 1);
      EvalPush(c[..k - 1], c[k - 1], x);
      assert c[..k] == c[..k - 1] + [c[k - 1]];
    }
  }

  lemma {:induction false} EvalPush(c: seq<int>, last: int, x: int)
    ensures Eval(c + [last], x) == Eval(c, x) + last * Power(x, |c|)
  {
    if c == [] {
      assert (c + [last])[1..] == [];
      assert x * 0 == 0;
    } else {
      EvalPush(c[1..], last, x);
      assert (c + [last])[1..] == c[1..] + [last];
      Distribute(x, Eval(c[1..], x), last * Power(x, |c| - 1));
      assert x * (last * Power(x, |c| - 1)) == last * (Power(x, |c| - 1) * x);
    }
  }

  // ---- interpolation ----

  /** The product of `(z - x)` over every index but `skip`. */
  function Product(xs: seq<int>, skip: int, z: int): int {
    if xs == [] then 1
    else
      var last := xs[|xs| - 1];
      if last == skip then Product(xs[..|xs| - 1], skip, z) else Product(xs[..|xs| - 1], skip, z) * (z - last)
  }

  function Basis(xs: seq<int>, skip: int): (r: seq<int>)
    ensures |r| <= |xs| + 1
  {
    if xs == [] then [1]
    else
      var last := xs[|xs| - 1];
      if last == skip then Basis(xs[..|xs| - 1], skip) else TimesRoot(Basis(xs[..|xs| - 1], skip), last)
  }

  lemma {:induction false} EvalBasis(xs: seq<int>, skip: int, z: int)
    ensures Eval(Basis(xs, skip), z) == Product(xs, skip, z)
  {
    if xs == [] {
      assert Eval([1], z) == 1 + z * Eval([1][1..], z);
      assert z * 0 == 0;
    } else {
      var last := xs[|xs| - 1];
      EvalBasis(xs[..|xs| - 1], skip, z);
      if last != skip {
        EvalTimesRoot(Basis(xs[..|xs| - 1], skip), last, z);
      }
    }
  }

  lemma {:induction false} BasisLength(xs: seq<int>, skip: int)
    requires forall i, j :: 0 <= i < j < |xs| ==> xs[i] != xs[j]
    ensures |Basis(xs, skip)| == if skip in xs then |xs| else |xs| + 1
  {
    if xs != [] {
      var front := xs[..|xs| - 1];
      BasisLength(front, skip);
      assert xs == front + [xs[|xs| - 1]];
    }
  }

  lemma {:induction false} ProductVanishes(xs: seq<int>, skip: int, z: int)
    requires z in xs && z != skip
    ensures Product(xs, skip, z) == 0
  {
    var front, last := xs[..|xs| - 1], xs[|xs| - 1];
    assert xs == front + [last];
    if last != z {
      ProductVanishes(front, skip, z);
    }
  }

  lemma {:induction false} ProductIsNonzero(xs: seq<int>, skip: int)
    requires forall x :: x in xs && x != skip ==> !Same(skip, x)
    ensures !Same(Product(xs, skip, skip), 0)
  {
    if xs == [] {
      OneIsCanonical();
    } else {
      var front, last := xs[..|xs| - 1], xs[|xs| - 1];
      ProductIsNonzero(front, skip);
      if last != skip {
        assert last in xs;
        NotSameDifference(skip, last);
        ProductNonzero(Product(front, skip, skip), skip - last);
      }
    }
  }

  predicate Recoverable(shares: seq<Share>, threshold: int) {
    && 1 <= threshold <= |shares| <= MAX_SHARES
    && ValidIndices(Indices(shares))
    && forall s :: s in shares ==> Canonical(s.value)
  }

  lemma IndicesDiffer(xs: seq<int>)
    requires ValidIndices(xs) && MAX_INDEX < SCALAR_ORDER
    ensures DistinctPoints(xs) && forall x, y :: x in xs && y in xs && x != y ==> !Same(x, y)
  {
    hide Same;
    forall x, y | x in xs && y in xs && x != y ensures !Same(x, y) {
      if Same(x, y) {
        CanonicalSame(x, y);
      }
    }
    forall i, j | 0 <= i < j < |xs| ensures !Same(xs[i], xs[j]) {
      assert xs[i] in xs && xs[j] in xs;
    }
  }

  /** The weight of a share: its value over the product of index differences. */
  ghost function Weight(xs: seq<int>, share: Share): int {
    share.value * (match InvertScalar(ModScalar(Product(xs, share.index, share.index))) case Ok(v) => v case Err(_) =>
                   0)
  }

  /** The Lagrange polynomial of the first `k` shares over all indices `xs`. */
  ghost function Interpolant(xs: seq<int>, shares: seq<Share>, k: nat): (r: seq<int>)
    requires k <= |shares| && (forall i, j :: 0 <= i < j < |xs| ==> xs[i] != xs[j]) && forall s :: s in shares ==>
      s.index in xs
    ensures |r| == |xs|
  {
    if k == 0 then seq(|xs|, i => 0)
    else
      BasisLength(xs, shares[k - 1].index);
      Sum(Interpolant(xs, shares, k - 1), Scaled(Weight(xs, shares[k - 1]), Basis(xs, shares[k - 1].index)))
  }

  lemma {:induction false} EvalZeros(n: nat, z: int)
    ensures Eval(seq(n, i => 0), z) == 0
  {
    if n > 0 {
      EvalZeros(n - 1, z);
      assert seq(n, i => 0)[1..] == seq(n - 1, i => 0);
      assert z * 0 == 0;
    }
  }

  lemma InterpolantStep(xs: seq<int>, shares: seq<Share>, k: nat, z: int)
    requires 0 < k <= |shares| && (forall i, j :: 0 <= i < j < |xs| ==> xs[i] != xs[j]) && forall s :: s in shares ==>
      s.index in xs
    ensures Eval(Interpolant(xs, shares, k), z)
         == Eval(Interpolant(xs, shares, k - 1), z) + Weight(xs, shares[k - 1]) * Product(xs, shares[k - 1].index, z)
  {
    var s := shares[k - 1];
    BasisLength(xs, s.index);
    EvalSum(Interpolant(xs, shares, k - 1), Scaled(Weight(xs, s), Basis(xs, s.index)), z);
    EvalScaled(Weight(xs, s), Basis(xs, s.index), z);
    EvalBasis(xs, s.index, z);
  }

  /** A selection of recoverable shares, with what its indices guarantee. */
  ghost predicate Selected(shares: seq<Share>) {
    && Recoverable(shares, |shares|)
    && MAX_INDEX < SCALAR_ORDER
  }

  lemma SelectedFacts(shares: seq<Share>)
    requires Selected(shares)
    ensures var xs := Indices(shares);
      && DistinctPoints(xs)
      && (forall i, j :: 0 <= i < j < |xs| ==> xs[i] != xs[j])
      && (forall s :: s in shares ==> s.index in xs && !Same(Product(xs, s.index, s.index), 0))
  {
    var xs := Indices(shares);
    IndicesDiffer(xs);
    forall s | s in shares ensures s.index in xs && !Same(Product(xs, s.index, s.index), 0) {
      var i :| 0 <= i < |shares| && shares[i] == s;
      assert xs[i] == s.index;
      ProductIsNonzero(xs, s.index);
    }
  }

  lemma WeightTimesOwn(xs: seq<int>, s: Share)
    requires !Same(Product(xs, s.index, s.index), 0)
    ensures Same(Weight(xs, s) * Product(xs, s.index, s.index), s.value)
  {
    hide Product, Same, ModScalar, InvertScalar;
    var own := Product(xs, s.index, s.index);
    InverseOfMod(own);
    var inverse := InvertScalar(ModScalar(own)).value;
    MulSame(s.value, s.value, inverse * own, 1);
    assert s.value * inverse * own == s.value * (inverse * own);
  }

  lemma InverseOfMod(x: int)
    requires !Same(x, 0)
    ensures InvertScalar(ModScalar(x)).Ok? && Same(InvertScalar(ModScalar(x)).value * x, 1) && Same(x, x)
  {
    hide InvertScalar;
    NonzeroIsInvertible(x);
    var inverse := InvertScalar(ModScalar(x)).value;
    MulSame(ModScalar(x), x, inverse, inverse);
    OneIsCanonical();
    assert x * inverse == inverse * x;
  }

  /** At the index of share `m`, the first `k` terms give its value if they include it, else zero. */
  lemma {:induction false} InterpolantAt(shares: seq<Share>, k: nat, m: nat)
    requires Selected(shares) && k <= |shares| && m < |shares|
    requires var xs := Indices(shares);
      (forall i, j :: 0 <= i < j < |xs| ==> xs[i] != xs[j]) && forall s :: s in shares ==> s.index in xs
    ensures Same(Eval(Interpolant(Indices(shares), shares, k), shares[m].index), if m < k then shares[m].value else 0)
  {
    hide Eval, Same, Interpolant, Product, Weight;
    var xs, z := Indices(shares), shares[m].index;
    if k == 0 {
      InterpolantNone(xs, shares, z);
    } else {
      InterpolantAt(shares, k - 1, m);
      InterpolantStep(xs, shares, k, z);
      SelectedFacts(shares);
      var s := shares[k - 1];
      var term := Weight(xs, s) * Product(xs, s.index, z);
      assert xs[m] == z && xs[k - 1] == s.index;
      if m == k - 1 {
        WeightTimesOwn(xs, s);
        AddSame(Eval(Interpolant(xs, shares, k - 1), z), 0, term, s.value);
      } else {
        ProductVanishes(xs, s.index, z);
        assert Weight(xs, s) * 0 == 0;
      }
    }
  }

  lemma InterpolantNone(xs: seq<int>, shares: seq<Share>, z: int)
    requires (forall i, j :: 0 <= i < j < |xs| ==> xs[i] != xs[j]) && forall s :: s in shares ==> s.index in xs
    ensures Eval(Interpolant(xs, shares, 0), z) == 0 && Same(0, 0)
  {
    EvalZeros(|xs|, z);
  }

  /** A polynomial passes through the shares when it takes each share's value at its index. */
  predicate Passes(c: seq<int>, shares: seq<Share>) {
    forall i :: 0 <= i < |shares| ==> Same(Eval(c, shares[i].index), shares[i].value)
  }

  /** Two short polynomials through the same shares agree everywhere. */
  lemma PassingAgree(c: seq<int>, d: seq<int>, shares: seq<Share>, z: int)
    requires Selected(shares) && |c| == |d| == |shares| && Passes(c, shares) && Passes(d, shares)
    ensures Same(Eval(c, z), Eval(d, z))
  {
    hide Same, Eval;
    SelectedFacts(shares);
    var xs, e := Indices(shares), Sum(c, Scaled(-1, d));
    forall i | 0 <= i < |xs| ensures Same(Eval(e, xs[i]), 0) {
      EvalSum(c, Scaled(-1, d), xs[i]);
      EvalScaled(-1, d, xs[i]);
      assert xs[i] == shares[i].index;
      AddSame(Eval(c, xs[i]), shares[i].value, Eval(d, xs[i]), shares[i].value);
      assert Eval(e, xs[i]) == Eval(c, xs[i]) - Eval(d, xs[i]);
    }
    TooManyRoots(e, xs, z);
    EvalSum(c, Scaled(-1, d), z);
    EvalScaled(-1, d, z);
    DifferenceVanishes(Eval(c, z), Eval(d, z));
  }

  lemma DifferenceVanishes(x: int, y: int)
    requires Same(x - y, 0)
    ensures Same(x, y)
  {
    SameIff(x - y, 0);
    SameIff(x, y);
  }

  // ---- recovery ----

  lemma SelectionRecoverable(shares: seq<Share>, threshold: nat)
    requires Recoverable(shares, threshold) && MAX_INDEX < SCALAR_ORDER
    ensures Selected(shares[..threshold])
  {
    var selected := shares[..threshold];
    forall i | i in Indices(selected) ensures i in Indices(shares) {
      var k :| 0 <= k < |selected| && Indices(selected)[k] == i;
      assert Indices(shares)[k] == i;
    }
    forall i, j | 0 <= i < j < |selected| ensures Indices(selected)[i] != Indices(selected)[j] {
      assert Indices(shares)[i] != Indices(shares)[j];
    }
  }

  lemma ProductOfNone(skip: int)
    ensures Same(1, Product([], skip, 0)) && Same(1, Product([], skip, skip)) && Canonical(1)
  {
  }

  /** One more index in both running products, unless it is the share's own. */
  lemma ProductStep(xs: seq<int>, j: nat, skip: int, numerator: int, denominator: int)
    requires j < |xs| && Same(numerator, Product(xs[..j], skip, 0)) && Same(denominator, Product(xs[..j], skip, skip))
    ensures xs[j] == skip ==> Product(xs[..j + 1], skip, 0) == Product(xs[..j], skip, 0)
    ensures xs[j] == skip ==> Product(xs[..j + 1], skip, skip) == Product(xs[..j], skip, skip)
    ensures xs[j] != skip ==> Same(ModScalar(numerator * -xs[j]), Product(xs[..j + 1], skip, 0))
    ensures xs[j] != skip ==> Same(ModScalar(denominator * (skip - xs[j])), Product(xs[..j + 1], skip, skip))
  {
    hide Same, ModScalar;
    assert xs[..j + 1][..j] == xs[..j];
    if xs[j] != skip {
      MulOne(numerator, Product(xs[..j], skip, 0), -xs[j]);
      MulOne(denominator, Product(xs[..j], skip, skip), skip - xs[j]);
      assert 0 - xs[j] == -xs[j];
    }
  }

  lemma MulOne(x: int, y: int, k: int)
    requires Same(x, y)
    ensures Same(ModScalar(x * k), y * k)
  {
    hide ModScalar;
    MulSame(x, y, k, k);
    ModIsSame(x * k);
  }

  lemma InverseOfSame(x: int, y: int)
    requires Canonical(x) && Same(x, y) && !Same(y, 0)
    ensures x == ModScalar(y) && InvertScalar(x).Ok?
  {
    NonzeroIsInvertible(y);
  }

  lemma TermSame(value: int, numerator: int, exact: int, inverse: int)
    requires Same(numerator, exact)
    ensures Same(value * numerator * inverse, value * inverse * exact)
  {
    hide Same;
    MulSame(numerator, exact, value * inverse, value * inverse);
    assert value * numerator * inverse == numerator * (value * inverse);
    assert value * inverse * exact == exact * (value * inverse);
  }

  lemma SecretStep(xs: seq<int>, share: Share, secret: int, prior: int, numerator: int, denominator: int)
    requires Same(secret, prior) && Same(numerator, Product(xs, share.index, 0))
    requires denominator == ModScalar(Product(xs, share.index, share.index)) && InvertScalar(denominator).Ok?
    ensures Same(ModScalar(secret + share.value * numerator * InvertScalar(denominator).value),
                 prior + Weight(xs, share) * Product(xs, share.index, 0))
  {
    hide Product, InvertScalar, Same, ModScalar;
    var inverse, exact := InvertScalar(denominator).value, Product(xs, share.index, 0);
    var term := share.value * numerator * inverse;
    assert Weight(xs, share) == share.value * inverse;
    TermSame(share.value, numerator, exact, inverse);
    AddSame(secret, prior, term, Weight(xs, share) * exact);
    ModIsSame(secret + term);
    SameTransitive(ModScalar(secret + term), secret + term, prior + Weight(xs, share) * exact);
  }

  lemma Interpolates(shares: seq<Share>)
    requires Selected(shares)
    ensures var xs := Indices(shares);
      && (forall i, j :: 0 <= i < j < |xs| ==> xs[i] != xs[j]) && (forall s :: s in shares ==> s.index in xs)
      && |Interpolant(xs, shares, |shares|)| == |shares| && Passes(Interpolant(xs, shares, |shares|), shares)
  {
    hide Same, Eval;
    SelectedFacts(shares);
    forall m | 0 <= m < |shares|
      ensures Same(Eval(Interpolant(Indices(shares), shares, |shares|), shares[m].index), shares[m].value)
    {
      InterpolantAt(shares, |shares|, m);
    }
  }

  lemma UniqueValue(shares: seq<Share>, c: seq<int>, value: int)
    requires Selected(shares) && |c| == |shares| && Passes(c, shares) && value == ModScalar(Eval(c, 0))
    ensures forall d :: |d| == |shares| && Passes(d, shares) ==> value == ModScalar(Eval(d, 0))
  {
    hide Eval, Passes;
    forall d | |d| == |shares| && Passes(d, shares) ensures value == ModScalar(Eval(d, 0)) {
      PassingAgree(c, d, shares, 0);
    }
  }

  /** The running products of one share, skipping its own index. */
  method RunningProducts(selected: seq<Share>, share: Share) returns (numerator: int, denominator: int)
    requires MAX_INDEX < SCALAR_ORDER
    ensures Same(numerator, Product(Indices(selected), share.index, 0)) && Canonical(denominator)
    ensures Same(denominator, Product(Indices(selected), share.index, share.index))
  {
    hide Same, Product, ModScalar;
    var xs := Indices(selected);
    numerator, denominator := 1, 1;
    ProductOfNone(share.index);
    for j := 0 to |selected|
      invariant Same(numerator, Product(xs[..j], share.index, 0))
        && Same(denominator, Product(xs[..j], share.index, share.index))
      invariant Canonical(denominator)
    {
      var other := selected[j];
      assert xs[j] == other.index;
      ProductStep(xs, j, share.index, numerator, denominator);
      if other.index == share.index {
        continue;
      }
      numerator := ModScalar(numerator * -other.index);
      denominator := ModScalar(denominator * (share.index - other.index));
    }
    assert xs[..|xs|] == xs;
  }

  /** Interpolation at zero over the first `threshold` shares, with reduced running products. */
  method RecoverSecret(shares: seq<Share>, threshold: int) returns (r: Result<int>)
    requires MAX_INDEX < SCALAR_ORDER
    ensures r.Ok? <==> Recoverable(shares, threshold)
    ensures r.Ok? ==> Canonical(r.value)
    ensures r.Ok? ==> exists c :: |c| == threshold && Passes(c, shares[..threshold]) && r.value == ModScalar(Eval(c, 0))
    ensures r.Ok? ==> forall c :: |c| == threshold && Passes(c, shares[..threshold]) ==>
      r.value == ModScalar(Eval(c, 0))
  {
    hide Same, Eval, Product, Weight, Interpolant, ModScalar, InvertScalar;
    if |shares| == 0 || |shares| > MAX_SHARES || threshold < 1 || threshold > |shares| {
      return Err("range");
    }
    if !ValidIndices(Indices(shares)) || exists s :: s in shares && !Canonical(s.value) {
      return Err("range");
    }
    var selected := shares[..threshold];
    SelectionRecoverable(shares, threshold);
    SelectedFacts(selected);
    var xs := Indices(selected);
    InterpolantNone(xs, selected, 0);
    var secret := 0;
    for i := 0 to |selected|
      invariant Canonical(secret) && Same(secret, Eval(Interpolant(xs, selected, i), 0))
    {
      var share := selected[i];
      var numerator, denominator := RunningProducts(selected, share);
      assert share in selected;
      InverseOfSame(denominator, Product(xs, share.index, share.index));
      var inverse := InvertScalar(denominator);
      InterpolantStep(xs, selected, i + 1, 0);
      SecretStep(xs, share, secret, Eval(Interpolant(xs, selected, i), 0), numerator, denominator);
      secret := ModScalar(secret + share.value * numerator * inverse.value);
    }
    Interpolates(selected);
    SameCanonical(secret, Eval(Interpolant(xs, selected, |selected|), 0));
    UniqueValue(selected, Interpolant(xs, selected, |selected|), secret);
    return Ok(secret);
  }

  // ---- the whole escrow ----

  lemma EvalAtZero(c: seq<int>)
    requires c != []
    ensures Eval(c, 0) == c[0]
  {
    assert 0 * Eval(c[1..], 0) == 0;
  }

  lemma AcceptedPasses(shares: seq<Share>, commitments: seq<int>, masterPub: int, threshold: int)
    requires forall s :: s in shares ==> Accepted(s, commitments, Expectation(threshold, masterPub, s.index))
    ensures Passes(commitments, shares)
  {
    hide Eval;
    forall i | 0 <= i < |shares| ensures Same(Eval(commitments, shares[i].index), shares[i].value) {
      assert shares[i] in shares;
      ModIsSame(Eval(commitments, shares[i].index));
    }
  }

  /**
   * Any `threshold` accepted shares with distinct indices determine one scalar, and its public
   * point is the first commitment. `recovered` is what recovery returns on them.
   */
  lemma AcceptedSharesRecover(shares: seq<Share>, commitments: seq<int>, masterPub: int, threshold: int, recovered: int)
    requires MAX_INDEX < SCALAR_ORDER && Recoverable(shares, threshold)
    requires forall s :: s in shares[..threshold] ==>
      Accepted(s, commitments, Expectation(threshold, masterPub, s.index))
    requires forall c :: |c| == threshold && Passes(c, shares[..threshold]) ==> recovered == ModScalar(Eval(c, 0))
    ensures Canonical(recovered) && ScalePoint(1, recovered) == masterPub
  {
    hide Eval, Passes;
    AcceptedPasses(shares[..threshold], commitments, masterPub, threshold);
    assert shares[0] in shares[..threshold];
    assert commitments[0] in commitments;
    EvalAtZero(commitments);
  }

  /** Every dealt share is accepted by its recipient. */
  lemma DealtSharesAccepted(secret: int, indices: seq<int>, threshold: nat, derive: nat -> int, d: Distribution, i: nat)
    requires Dealable(secret, indices, threshold) && i < |indices|
    requires Indices(d.shares) == indices && |d.commitments| == threshold
    requires d.shares[i].value == ModScalar(Eval(Coefficients(secret, threshold, derive), indices[i]))
    requires forall k :: 0 <= k < threshold ==>
      d.commitments[k] == ScalePoint(1, Coefficients(secret, threshold, derive)[k])
    ensures d.commitments[0] == secret
    ensures Accepted(d.shares[i], d.commitments, Expectation(threshold, secret, indices[i]))
  {
    var c := Coefficients(secret, threshold, derive);
    forall k | 0 <= k < threshold ensures d.commitments[k] == c[k] && Canonical(c[k]) {
      assert c[k] == if k == 0 then secret else ModScalar(derive(k));
      ScaleBase(c[k]);
    }
    assert d.commitments == c;
    assert indices[i] in indices;
  }
}
