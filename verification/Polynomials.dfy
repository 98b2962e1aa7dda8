/** Polynomials modulo the group order: too few coefficients cannot vanish at too many points. */
module Polynomials {
  import opened Group

  /** The value at `x`, lowest coefficient first, before reduction. */
  function Eval(c: seq<int>, x: int): int {
    if c == [] then 0 else c[0] + x * Eval(c[1..], x)
  }

  function Sum(a: seq<int>, b: seq<int>): (r: seq<int>)
    requires |a| == |b|
    ensures |r| == |a|
  {
    if a == [] then [] else [a[0] + b[0]] + Sum(a[1..], b[1..])
  }

  function Scaled(k: int, c: seq<int>): (r: seq<int>)
    ensures |r| == |c|
  {
    if c == [] then [] else [k * c[0]] + Scaled(k, c[1..])
  }

  /** The product with `(x - root)`. */
  function TimesRoot(c: seq<int>, root: int): (r: seq<int>)
    ensures |r| == |c| + 1
  {
    Sum([0] + c, Scaled(-root, c) + [0])
  }

  lemma {:induction false} EvalSum(a: seq<int>, b: seq<int>, x: int)
    requires |a| == |b|
    ensures Eval(Sum(a, b), x) == Eval(a, x) + Eval(b, x)
  {
    if a != [] {
      EvalSum(a[1..], b[1..], x);
      Distribute(x, Eval(a[1..], x), Eval(b[1..], x));
    }
  }

  lemma Distribute(x: int, a: int, b: int)
    ensures x * (a + b) == x * a + x * b
  {
  }

  lemma {:induction false} EvalScaled(k: int, c: seq<int>, x: int)
    ensures Eval(Scaled(k, c), x) == k * Eval(c, x)
  {
    if c != [] {
      EvalScaled(k, c[1..], x);
      var rest := Eval(c[1..], x);
      Distribute(k, c[0], x * rest);
      assert x * (k * rest) == k * (x * rest);
    }
  }

  lemma {:induction false} EvalPadded(c: seq<int>, x: int)
    ensures Eval(c + [0], x) == Eval(c, x)
  {
    if c == [] {
      assert (c + [0])[1..] == [];
      assert x * 0 == 0;
    } else {
      EvalPadded(c[1..], x);
      assert (c + [0])[1..] == c[1..] + [0];
    }
  }

  lemma EvalTimesRoot(c: seq<int>, root: int, x: int)
    ensures Eval(TimesRoot(c, root), x) == (x - root) * Eval(c, x)
  {
    EvalSum([0] + c, Scaled(-root, c) + [0], x);
    EvalPadded(Scaled(-root, c), x);
    EvalScaled(-root, c, x);
    assert ([0] + c)[1..] == c;
    Distribute(Eval(c, x), x, -root);
  }

  /** Division by `(x - root)`: the quotient of a polynomial that is not empty. */
  function Quotient(c: seq<int>, root: int): (r: seq<int>)
    requires c != []
    ensures |r| == |c| - 1
  {
    if |c| == 1 then [] else [Eval(c[1..], root)] + Quotient(c[1..], root)
  }

  lemma {:induction false} QuotientIdentity(c: seq<int>, root: int, x: int)
    requires c != []
    ensures Eval(c, x) == Eval(c, root) + (x - root) * Eval(Quotient(c, root), x)
  {
    if |c| == 1 {
      assert Eval(c[1..], x) == 0 && Eval(c[1..], root) == 0;
      assert x * 0 == 0 && root * 0 == 0 && (x - root) * 0 == 0;
    } else {
      QuotientIdentity(c[1..], root, x);
      var q, at := Eval(Quotient(c[1..], root), x), Eval(c[1..], root);
      assert Quotient(c, root)[1..] == Quotient(c[1..], root);
      assert Eval(Quotient(c, root), x) == at + x * q;
      QuotientStep(x, root, at, q);
    }
  }

  lemma QuotientStep(x: int, root: int, at: int, q: int)
    ensures x * (at + (x - root) * q) == root * at + (x - root) * (at + x * q)
  {
    Distribute(x, at, (x - root) * q);
    Distribute(x - root, at, x * q);
    assert (x - root) * at == x * at - root * at;
    assert x * ((x - root) * q) == (x - root) * (x * q);
  }

  predicate DistinctPoints(xs: seq<int>) {
    forall i, j :: 0 <= i < j < |xs| ==> !Same(xs[i], xs[j])
  }

  predicate VanishesAt(c: seq<int>, xs: seq<int>) {
    forall i :: 0 <= i < |xs| ==> Same(Eval(c, xs[i]), 0)
  }

  lemma NotSameDifference(x: int, y: int)
    requires !Same(x, y)
    ensures !Same(x - y, 0)
  {
    if Same(x - y, 0) {
      AddSame(x - y, 0, y, y);
    }
  }

  /** With at least as many distinct roots as coefficients, the polynomial is zero everywhere. */
  lemma {:induction false} TooManyRoots(c: seq<int>, xs: seq<int>, x: int)
    requires DistinctPoints(xs) && |c| <= |xs| && VanishesAt(c, xs)
    ensures Same(Eval(c, x), 0)
    decreases |xs|
  {
    hide Same, Eval;
    if c == [] {
      EvalEmpty(x);
    } else {
      var root, rest := xs[|xs| - 1], xs[..|xs| - 1];
      var q := Quotient(c, root);
      forall i | 0 <= i < |rest| ensures Same(Eval(q, rest[i]), 0) {
        RootOfQuotient(c, root, xs[i]);
      }
      TooManyRoots(q, rest, x);
      QuotientIdentity(c, root, x);
      MulSame(x - root, x - root, Eval(q, x), 0);
      AddSame(Eval(c, root), 0, (x - root) * Eval(q, x), (x - root) * 0);
      assert (x - root) * 0 == 0;
      SameTransitive(Eval(c, x), (x - root) * 0, 0);
    }
  }

  lemma SameTransitive(x: int, y: int, z: int)
    requires Same(x, y) && Same(y, z)
    ensures Same(x, z)
  {
  }

  lemma EvalEmpty(x: int)
    ensures Eval([], x) == 0 && Same(0, 0)
  {
  }

  lemma RootOfQuotient(c: seq<int>, root: int, x: int)
    requires c != [] && Same(Eval(c, root), 0) && Same(Eval(c, x), 0) && !Same(x, root)
    ensures Same(Eval(Quotient(c, root), x), 0)
  {
    hide Eval, Quotient;
    var v := Eval(Quotient(c, root), x);
    QuotientIdentity(c, root, x);
    AddSame(Eval(c, x), 0, Eval(c, root), 0);
    assert Same((x - root) * v, 0);
    NotSameDifference(x, root);
    assert (x - root) * 0 == 0;
    CancelFactor(x - root, v, 0);
  }
}
