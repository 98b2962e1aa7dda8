/** No pass adds, drops or doubles a card: every position stays one card under known layers of keys. */
module DeckConservation {
  import opened Results
  import opened Group
  import opened Permutations
  import opened DeckSetup

  function Prod(xs: seq<int>): int {
    if xs == [] then 1 else Prod(xs[..|xs| - 1]) * xs[|xs| - 1]
  }

  lemma {:induction false} ProdAppend(a: seq<int>, b: seq<int>)
    ensures Prod(a + b) == Prod(a) * Prod(b)
  {
    if b == [] {
      assert a + b == a;
    } else {
      var front, last := b[..|b| - 1], b[|b| - 1];
      ProdAppend(a, front);
      assert (a + b)[..|a + b| - 1] == a + front;
      assert Prod(a) * Prod(front) * last == Prod(a) * (Prod(front) * last);
    }
  }

  lemma ProdOne(x: int)
    ensures Prod([x]) == x
  {
    assert [x][..0] == [];
    assert Prod([x]) == Prod([x][..0]) * x;
  }

  lemma ProdAround(a: seq<int>, x: int, b: seq<int>)
    ensures Prod(a + [x] + b) == Prod(a) * x * Prod(b)
  {
    ProdAppend(a + [x], b);
    ProdAppend(a, [x]);
    ProdOne(x);
  }

  function LocksAt(lockKeys: seq<seq<int>>, j: nat): (r: seq<int>)
    requires forall i :: 0 <= i < |lockKeys| ==> j < |lockKeys[i]|
    ensures |r| == |lockKeys| && forall i :: 0 <= i < |r| ==> r[i] == lockKeys[i][j]
  {
    seq(|lockKeys|, i requires 0 <= i < |lockKeys| => lockKeys[i][j])
  }

  /** The keys still on a position: the locks already set, and the shuffle keys not yet removed. */
  function Layers(s: DeckState, j: nat): seq<int>
    requires forall i :: 0 <= i < |s.lockKeys| ==> j < |s.lockKeys[i]|
    requires |s.lockKeys| > 0 ==> |s.lockKeys| <= |s.shuffleKeys|
  {
    LocksAt(s.lockKeys, j) + s.shuffleKeys[|s.lockKeys|..]
  }

  predicate Shaped(s: DeckState) {
    && |s.points| == |s.definition.cards|
    && (|s.lockKeys| > 0 ==> |s.lockKeys| <= |s.shuffleKeys|)
    && forall i :: 0 <= i < |s.lockKeys| ==> |s.lockKeys[i]| == |s.points|
  }

  /** Position `j` holds card `sigma[j]` under its layers. */
  ghost predicate Holds(s: DeckState, sigma: seq<int>, v: Crypto) {
    && Shaped(s)
    && IsPermutation(sigma, |s.points|)
    && forall j :: 0 <= j < |s.points| ==>
         Same(s.points[j], Prod(Layers(s, j)) * v.cardPoint(s.definition, s.definition.cards[sigma[j]].identity))
  }

  lemma InitialHolds(d: Definition, v: Crypto)
    requires InitDeckSetup(d, v).Ok?
    ensures Holds(InitDeckSetup(d, v).value, seq(|d.cards|, i => i), v)
  {
    var s, sigma := InitDeckSetup(d, v).value, seq(|d.cards|, i => i);
    forall j | 0 <= j < |s.points|
      ensures Same(s.points[j], Prod(Layers(s, j)) * v.cardPoint(d, d.cards[sigma[j]].identity))
    {
      assert Layers(s, j) == [];
    }
  }

  // ---- one pass ----

  lemma ScaledLayer(point: int, layers: int, card: int, secret: int, key: int)
    requires Same(point, layers * card) && Same(key, secret)
    ensures Same(ScalePoint(point, secret), layers * key * card)
  {
    hide Same;
    MulSame(point, layers * card, secret, secret);
    MulSame(key, secret, layers * card, layers * card);
    assert layers * card * secret == secret * (layers * card);
    assert layers * key * card == key * (layers * card);
    SameChain(ScalePoint(point, secret), point * secret, secret * (layers * card), layers * key * card);
  }

  lemma SameChain(a: int, b: int, c: int, d: int)
    requires Same(a, b) && Same(b, c) && Same(d, c)
    ensures Same(a, d)
  {
  }

  lemma ShuffledPosition(s: DeckState, t: DeckState, i: nat, j: nat, card: int, secret: int, key: int)
    requires Shaped(s) && s.lockKeys == [] && t == s.(points := t.points, shuffleKeys := s.shuffleKeys + [key])
    requires i < |s.points| && j < |t.points| && t.points[j] == ScalePoint(s.points[i], secret)
      && key == ScalePoint(1, secret)
    requires Same(s.points[i], Prod(Layers(s, i)) * card)
    ensures Same(t.points[j], Prod(Layers(t, j)) * card)
  {
    hide Same, ScalePoint;
    assert Layers(s, i) == s.shuffleKeys && Layers(t, j) == s.shuffleKeys + [key];
    ProdAppend(s.shuffleKeys, [key]);
    ProdOne(key);
    assert 1 * secret == secret;
    ScaledLayer(s.points[i], Prod(s.shuffleKeys), card, secret, key);
  }

  /** A shuffle moves every card by the same permutation and adds one key to every position. */
  lemma ShuffleHolds(s: DeckState, sigma: seq<int>, output: seq<int>, key: int, v: Crypto) returns (next: seq<int>)
    requires Holds(s, sigma, v) && s.lockKeys == [] && |output| == |s.points|
    requires ShuffleRelation(ShuffleStatement(s.points, output, key))
    ensures Holds(s.(points := output, shuffleKeys := s.shuffleKeys + [key]), next, v)
  {
    hide Same, ScalePoint, Prod, Layers;
    var pi, secret :|
      && IsPermutation(pi, |s.points|) && key == ScalePoint(1, secret)
      && forall i :: 0 <= i < |s.points| ==> output[pi[i]] == ScalePoint(s.points[i], secret);
    next := Then(Inverse(pi), sigma);
    var t := s.(points := output, shuffleKeys := s.shuffleKeys + [key]);
    forall j | 0 <= j < |output|
      ensures Same(output[j], Prod(Layers(t, j)) * v.cardPoint(s.definition, s.definition.cards[next[j]].identity))
    {
      var i := Inverse(pi)[j];
      assert pi[i] == j && next[j] == sigma[i];
      ShuffledPosition(s, t, i, j, v.cardPoint(s.definition, s.definition.cards[sigma[i]].identity), secret, key);
    }
  }

  lemma SwappedLayer(point: int, before: int, key: int, after: int, card: int, output: int, lock: int)
    requires Same(point, before * key * after * card)
    requires DleqRelation(DleqStatement(point, output, key, lock))
    ensures Same(output, before * lock * after * card)
  {
    hide Same, ScalePoint;
    var e :| output == ScalePoint(point, e) && lock == ScalePoint(key, e);
    MulSame(point, before * key * after * card, e, e);
    MulSame(lock, key * e, before * after * card, before * after * card);
    assert before * key * after * card * e == key * e * (before * after * card) by {
      Regroup(before, key, after, card, e);
    }
    assert before * lock * after * card == lock * (before * after * card) by {
      Regroup(before, lock, after, card, 1);
    }
    SameChain(output, point * e, key * e * (before * after * card), lock * (before * after * card));
  }

  lemma Regroup(a: int, k: int, b: int, c: int, e: int)
    ensures a * k * b * c * e == k * e * (a * b * c)
  {
    assert a * k * b * c == k * (a * b * c) by {
      assert a * k * b == k * (a * b);
      assert k * (a * b) * c == k * (a * b * c);
    }
    assert k * (a * b * c) * e == k * e * (a * b * c);
  }

  /** A lock pass replaces this seat's shuffle key by its own lock on every position. */
  lemma LockHolds(s: DeckState, sigma: seq<int>, output: seq<int>, locks: seq<int>, v: Crypto)
    requires Holds(s, sigma, v) && |s.lockKeys| < |s.shuffleKeys| && |output| == |locks| == |s.points|
    requires forall j :: 0 <= j < |s.points| ==>
      DleqRelation(DleqStatement(s.points[j], output[j], s.shuffleKeys[|s.lockKeys|], locks[j]))
    ensures Holds(s.(points := output, lockKeys := s.lockKeys + [locks]), sigma, v)
  {
    hide Same, DleqRelation;
    var t := s.(points := output, lockKeys := s.lockKeys + [locks]);
    var key, rest := s.shuffleKeys[|s.lockKeys|], s.shuffleKeys[|s.lockKeys| + 1..];
    forall j | 0 <= j < |output|
      ensures Same(output[j], Prod(Layers(t, j)) * v.cardPoint(s.definition, s.definition.cards[sigma[j]].identity))
    {
      var prior := LocksAt(s.lockKeys, j);
      assert s.shuffleKeys[|s.lockKeys|..] == [key] + rest;
      assert Layers(s, j) == prior + [key] + rest;
      assert LocksAt(t.lockKeys, j) == prior + [locks[j]];
      assert Layers(t, j) == prior + [locks[j]] + rest;
      ProdAround(prior, key, rest);
      ProdAround(prior, locks[j], rest);
      SwappedLayer(s.points[j], Prod(prior), key, Prod(rest),
                   v.cardPoint(s.definition, s.definition.cards[sigma[j]].identity),
                   output[j], locks[j]);
    }
  }

  lemma AppliedShape(s: DeckState, pass: SignedPass, v: Crypto)
    requires ApplyDeckPass(s, pass, true, v).Ok?
    ensures var t := ApplyDeckPass(s, pass, true, v).value;
      && ValidState(s, v) && ValidState(t, v) && t.definition == s.definition
      && (pass.body.ShuffleBody? ==>
            && s.lockKeys == [] && |pass.body.output| == |s.points|
            && t == s.(points := pass.body.output, shuffleKeys := s.shuffleKeys + [pass.body.publicKey])
            && v.shuffle(ShuffleStatement(s.points, pass.body.output, pass.body.publicKey), pass.body.proof,
                         PassContext(s, pass.body.seat, None)))
      && (pass.body.LockBody? ==>
            && |s.lockKeys| < |s.shuffleKeys| && |pass.body.output| == |pass.body.lockKeys| == |pass.body.proofs|
                 == |s.points|
            && t == s.(points := pass.body.output, lockKeys := s.lockKeys + [pass.body.lockKeys])
            && LockProofsHold(s, pass.body, v))
  {
    hide CheckedPoints, ValidDefinition;
  }

  /** Every accepted pass conserves the cards. */
  lemma PassHolds(s: DeckState, sigma: seq<int>, pass: SignedPass, v: Crypto) returns (next: seq<int>)
    requires Sound(v) && Holds(s, sigma, v) && ApplyDeckPass(s, pass, true, v).Ok?
    ensures Holds(ApplyDeckPass(s, pass, true, v).value, next, v)
  {
    hide ApplyDeckPass, ShuffleRelation, DleqRelation, ValidState, Holds;
    AppliedShape(s, pass, v);
    if pass.body.ShuffleBody? {
      next := ShuffleHolds(s, sigma, pass.body.output, pass.body.publicKey, v);
    } else {
      forall j: nat | j < |s.points|
        ensures DleqRelation(DleqStatement(s.points[j], pass.body.output[j], s.shuffleKeys[|s.lockKeys|],
                                           pass.body.lockKeys[j]))
      {
        assert v.dleq(LockStatement(s, pass.body, j), pass.body.proofs[j], PassContext(s, pass.body.seat, Some(j)));
      }
      next := sigma;
      LockHolds(s, sigma, pass.body.output, pass.body.lockKeys, v);
    }
  }

  /**
   * Conservation: after any accepted transcript, through any number of players, the positions hold
   * the cards of the deck by one bijection.
   */
  lemma {:induction false} TranscriptHolds(d: Definition, passes: seq<SignedPass>, v: Crypto) returns (sigma: seq<int>)
    requires Sound(v) && InitDeckSetup(d, v).Ok? && Replayed(InitDeckSetup(d, v).value, passes, v).Ok?
    ensures Holds(Replayed(InitDeckSetup(d, v).value, passes, v).value, sigma, v)
    decreases |passes|
  {
    hide ApplyDeckPass, Holds, InitDeckSetup;
    if passes == [] {
      sigma := seq(|d.cards|, i => i);
      InitialHolds(d, v);
    } else {
      var front := passes[..|passes| - 1];
      var prior := TranscriptHolds(d, front, v);
      sigma := PassHolds(Replayed(InitDeckSetup(d, v).value, front, v).value, prior, passes[|passes| - 1], v);
    }
  }
}
