/** The cut-and-choose proof that a deck was shuffled (packages/crypto/src/shuffle.ts). */
module ShuffleProof {
  import opened Results
  import opened Octets
  import opened Group
  import opened Permutations

  const ROUNDS := 64
  const CHALLENGE_BYTES := 8
  const MAX_CARDS := 128

  datatype Statement = Statement(input: seq<int>, output: seq<int>, publicKey: int)

  datatype Response = Response(scalar: int, permutation: seq<int>)

  /** The challenge is eight bytes, read from the most significant bit of each. */
  datatype Proof = Proof(challenge: seq<byte>, responses: seq<Response>)

  datatype Commitment = Commitment(key: int, deck: seq<int>)

  type Hash = (Statement, seq<Commitment>) -> seq<byte>

  predicate NonIdentity(point: int) {
    Canonical(point) && point != 0
  }

  predicate PointList(points: seq<int>, n: nat) {
    && |points| == n
    && (forall i :: 0 <= i < n ==> NonIdentity(points[i]))
    && forall i, j :: 0 <= i < j < n ==> points[i] != points[j]
  }

  predicate StatementOk(st: Statement) {
    1 <= |st.input| <= MAX_CARDS && PointList(st.input, |st.input|) && PointList(st.output, |st.input|)
      && NonIdentity(st.publicKey)
  }

  /** A right shift halves once a place. */
  function ShiftRight(x: nat, places: nat): nat {
    if places == 0 then x else ShiftRight(x / 2, places - 1)
  }

  function ChallengeBit(challenge: seq<byte>, round: nat): bool
    requires |challenge| == CHALLENGE_BYTES && round < ROUNDS
  {
    ShiftRight(challenge[round / 8], 7 - round % 8) % 2 == 1
  }

  function ScaledList(points: seq<int>, scalar: int): (r: seq<int>)
    ensures |r| == |points| && forall i :: 0 <= i < |points| ==> r[i] == ScalePoint(points[i], scalar)
  {
    seq(|points|, i requires 0 <= i < |points| => ScalePoint(points[i], scalar))
  }

  /** What a round commits to: a fresh key and the input deck under it, moved by `rho`. */
  ghost function Opening(st: Statement, r: int, rho: seq<int>): Commitment
    requires IsPermutation(rho, |st.input|)
  {
    Commitment(ScalePoint(1, r), Moved(ScaledList(st.input, r), rho))
  }

  predicate ResponseOk(st: Statement, response: Response) {
    0 < response.scalar < SCALAR_ORDER && IsPermutation(response.permutation, |st.input|)
  }

  /** The commitment a response reconstructs: from the input, or back from the output. */
  ghost function Reconstructed(st: Statement, bit: bool, response: Response): (c: Commitment)
    requires StatementOk(st) && ResponseOk(st, response)
    ensures |c.deck| == |st.input|
  {
    if !bit then Opening(st, response.scalar, response.permutation)
    else
      var inverse := InvertScalar(response.scalar).value;
      Commitment(ScalePoint(st.publicKey, inverse),
                 seq(|st.input|, j requires 0 <= j < |st.input| =>
                     ScalePoint(st.output[response.permutation[j]], inverse)))
  }

  ghost function AllReconstructed(st: Statement, proof: Proof): (r: seq<Commitment>)
    requires StatementOk(st) && |proof.challenge| == CHALLENGE_BYTES && |proof.responses| == ROUNDS
    requires forall k :: 0 <= k < ROUNDS ==> ResponseOk(st, proof.responses[k])
    ensures |r| == ROUNDS
    ensures forall k :: 0 <= k < ROUNDS ==>
      r[k] == Reconstructed(st, ChallengeBit(proof.challenge, k), proof.responses[k])
  {
    seq(ROUNDS, k requires 0 <= k < ROUNDS => Reconstructed(st, ChallengeBit(proof.challenge, k), proof.responses[k]))
  }

  predicate Readable(st: Statement, proof: Proof) {
    && StatementOk(st) && |proof.challenge| == CHALLENGE_BYTES && |proof.responses| == ROUNDS
    && forall k :: 0 <= k < ROUNDS ==> ResponseOk(st, proof.responses[k])
  }

  ghost predicate Accepted(st: Statement, proof: Proof, hash: Hash) {
    Readable(st, proof) && hash(st, AllReconstructed(st, proof)) == proof.challenge
  }

  // ---- the witness ----

  /** The output is the input times the key's secret, moved by `pi`. */
  predicate Shuffles(st: Statement, secret: int, pi: seq<int>) {
    && 0 < secret < SCALAR_ORDER && IsPermutation(pi, |st.input|) && |st.output| == |st.input|
    && ScalePoint(1, secret) == st.publicKey
    && forall i :: 0 <= i < |st.input| ==> st.output[pi[i]] == ScalePoint(st.input[i], secret)
  }

  /** The answer to a one bit: the way from the committed deck to the output. */
  method Tau(rho: seq<int>, pi: seq<int>) returns (tau: seq<int>)
    requires IsPermutation(rho, |rho|) && IsPermutation(pi, |rho|)
    ensures IsPermutation(tau, |rho|) && forall i :: 0 <= i < |rho| ==> tau[rho[i]] == pi[i]
  {
    tau := rho;
    for i := 0 to |rho|
      invariant |tau| == |rho|
      invariant forall k :: 0 <= k < i ==> tau[rho[k]] == pi[k]
    {
      tau := tau[rho[i] := pi[i]];
    }
    MovedIsPermutation(rho, pi, tau);
  }

  lemma MovedIsPermutation(rho: seq<int>, pi: seq<int>, tau: seq<int>)
    requires IsPermutation(rho, |rho|) && IsPermutation(pi, |rho|) && |tau| == |rho|
    requires forall i :: 0 <= i < |rho| ==> tau[rho[i]] == pi[i]
    ensures IsPermutation(tau, |rho|)
  {
    var back := Inverse(rho);
    assert forall j :: 0 <= j < |rho| ==> tau[j] == pi[back[j]];
    forall i, j | 0 <= i < j < |rho| ensures tau[i] != tau[j] {
      assert back[i] != back[j];
      assert pi[back[i]] != pi[back[j]];
    }
  }

  /** Both answers reconstruct the commitment of their round. */
  lemma OneAnswerReconstructs(st: Statement, secret: int, pi: seq<int>, r: int, rho: seq<int>, tau: seq<int>)
    requires StatementOk(st) && Shuffles(st, secret, pi) && 0 < r < SCALAR_ORDER && IsPermutation(rho, |st.input|)
    requires IsPermutation(tau, |st.input|) && forall i :: 0 <= i < |rho| ==> tau[rho[i]] == pi[i]
    ensures var z := ModScalar(secret * InvertScalar(r).value);
      0 < z < SCALAR_ORDER && Reconstructed(st, true, Response(z, tau)) == Opening(st, r, rho)
  {
    hide ScalePoint, InvertScalar, ModScalar;
    var z := ModScalar(secret * InvertScalar(r).value);
    QuotientNonzero(secret, r);
    var inverse := InvertScalar(z).value;
    ScaleBack(1, secret, r);
    var made := Reconstructed(st, true, Response(z, tau)).deck;
    forall j | 0 <= j < |st.input| ensures made[j] == Opening(st, r, rho).deck[j] {
      var i := PlaceReached(rho, |st.input|, j);
      ScaleBack(st.input[i], secret, r);
      assert made[j] == ScalePoint(st.output[tau[j]], inverse);
    }
  }

  lemma InverseNonzero(r: int, inverse: int)
    requires ModScalar(r * inverse) == 1
    ensures !Same(inverse, 0)
  {
    hide ModScalar;
    OneIsCanonical();
    assert r * inverse == inverse * r && 0 * r == 0;
    if Same(inverse, 0) {
      MulSame(inverse, 0, r, r);
    }
  }

  lemma SmallNonzero(secret: int)
    requires 0 < secret < SCALAR_ORDER
    ensures !Same(secret, 0)
  {
  }

  lemma QuotientNonzero(secret: int, r: int)
    requires 0 < secret < SCALAR_ORDER && 0 < r < SCALAR_ORDER
    ensures 0 < ModScalar(secret * InvertScalar(r).value) < SCALAR_ORDER
  {
    hide InvertScalar, ModScalar;
    var inverse := InvertScalar(r).value;
    InverseNonzero(r, inverse);
    SmallNonzero(secret);
    ProductNonzero(secret, inverse);
    NonzeroIsInvertible(secret * inverse);
  }

  /** Scaling by `secret` and then by the inverse of `secret / r` scales by `r`. */
  lemma ScaleBack(point: int, secret: int, r: int)
    requires 0 < secret < SCALAR_ORDER && 0 < r < SCALAR_ORDER
    requires 0 < ModScalar(secret * InvertScalar(r).value) < SCALAR_ORDER
    ensures ScalePoint(ScalePoint(point, secret), InvertScalar(ModScalar(secret * InvertScalar(r).value)).value)
      == ScalePoint(point, r)
  {
    hide InvertScalar, ModScalar;
    var over := InvertScalar(r).value;
    var z := ModScalar(secret * over);
    var inverse := InvertScalar(z).value;
    QuotientInverse(secret, r, over, z, inverse);
    MulSame(ScalePoint(point, secret), point * secret, inverse, inverse);
    MulSame(secret * inverse, r, point, point);
    assert point * secret * inverse == secret * inverse * point && r * point == point * r;
    CanonicalSame(ScalePoint(ScalePoint(point, secret), inverse), ScalePoint(point, r));
  }

  lemma QuotientInverse(secret: int, r: int, over: int, z: int, inverse: int)
    requires ModScalar(r * over) == 1 && z == ModScalar(secret * over) && ModScalar(z * inverse) == 1
    ensures Same(secret * inverse, r)
  {
    hide ModScalar;
    OneIsCanonical();
    ModIsSame(secret * over);
    MulSame(z, secret * over, inverse, inverse);
    MulSame(secret * over * inverse, 1, r, r);
    MulSame(r * over, 1, secret * inverse, secret * inverse);
    assert secret * over * inverse * r == r * over * (secret * inverse);
  }

  // ---- proving ----

  /** One round's answer to its challenge bit. */
  method Answer(secret: int, pi: seq<int>, bit: bool, r: int, rho: seq<int>, st: Statement) returns (response: Response)
    requires StatementOk(st) && Shuffles(st, secret, pi) && 0 < r < SCALAR_ORDER && IsPermutation(rho, |st.input|)
    ensures ResponseOk(st, response) && Reconstructed(st, bit, response) == Opening(st, r, rho)
  {
    if !bit {
      return Response(r, rho);
    }
    var tau := Tau(rho, pi);
    OneAnswerReconstructs(st, secret, pi, r, rho, tau);
    return Response(ModScalar(secret * InvertScalar(r).value), tau);
  }

  /** `r` and `rho` are the derived secrets of each round. Every accepted witness yields an accepted proof. */
  method ProveShuffle(st: Statement, secret: int, pi: seq<int>, r: nat -> int, rho: nat -> seq<int>, hash: Hash)
    returns (proof: Result<Proof>)
    requires forall k: nat :: 0 < r(k) < SCALAR_ORDER && IsPermutation(rho(k), |st.input|)
    requires forall s, rounds :: |hash(s, rounds)| == CHALLENGE_BYTES
    ensures proof.Ok? <==> StatementOk(st) && Shuffles(st, secret, pi)
    ensures proof.Ok? ==> Accepted(st, proof.value, hash)
  {
    hide Reconstructed, Opening, ChallengeBit, ScaledList;
    if !StatementOk(st) || !Shuffles(st, secret, pi) {
      return Err("witness");
    }
    var commitments: seq<Commitment> := [];
    for round := 0 to ROUNDS
      invariant |commitments| == round
      invariant forall k :: 0 <= k < round ==> commitments[k] == Opening(st, r(k), rho(k))
    {
      var deck := Permute(ScaledList(st.input, r(round)), rho(round));
      OpeningIs(st, r(round), rho(round));
      commitments := commitments + [Commitment(ScalePoint(1, r(round)), deck)];
    }
    var challenge := hash(st, commitments);
    var responses: seq<Response> := [];
    for round := 0 to ROUNDS
      invariant |responses| == round
      invariant forall k :: 0 <= k < round ==>
        ResponseOk(st, responses[k]) && Reconstructed(st, ChallengeBit(challenge, k), responses[k]) == commitments[k]
    {
      var response := Answer(secret, pi, ChallengeBit(challenge, round), r(round), rho(round), st);
      responses := responses + [response];
    }
    assert AllReconstructed(st, Proof(challenge, responses)) == commitments;
    return Ok(Proof(challenge, responses));
  }

  lemma OpeningIs(st: Statement, r: int, rho: seq<int>)
    requires IsPermutation(rho, |st.input|)
    ensures Opening(st, r, rho) == Commitment(ScalePoint(1, r), Moved(ScaledList(st.input, r), rho))
  {
  }

  /** Rebuilds every round's commitment from its answer and compares the hash with the challenge. */
  method VerifyShuffle(st: Statement, proof: Proof, hash: Hash) returns (ok: bool)
    ensures ok <==> Accepted(st, proof, hash)
  {
    hide ChallengeBit, ScaledList, InvertScalar;
    if !Readable(st, proof) {
      return false;
    }
    var commitments: seq<Commitment> := [];
    for round := 0 to ROUNDS
      invariant |commitments| == round
      invariant forall k :: 0 <= k < round ==> commitments[k] == AllReconstructed(st, proof)[k]
    {
      var response := proof.responses[round];
      if !ChallengeBit(proof.challenge, round) {
        var deck := Permute(ScaledList(st.input, response.scalar), response.permutation);
        commitments := commitments + [Commitment(ScalePoint(1, response.scalar), deck)];
      } else {
        var inverse := InvertScalar(response.scalar).value;
        var deck := seq(|st.input|, j requires 0 <= j < |st.input| =>
                        ScalePoint(st.output[response.permutation[j]], inverse));
        commitments := commitments + [Commitment(ScalePoint(st.publicKey, inverse), deck)];
        assert deck == AllReconstructed(st, proof)[round].deck;
      }
    }
    assert commitments == AllReconstructed(st, proof);
    ok := hash(st, commitments) == proof.challenge;
  }

  // ---- soundness ----

  lemma ScaleTwice(point: int, z: int, w: int, out: int, inverse: int)
    requires ModScalar(w * inverse) == 1 && Canonical(out) && ScalePoint(point, z) == ScalePoint(out, inverse)
    ensures out == ScalePoint(point, ModScalar(z * w))
  {
    hide ModScalar;
    OneIsCanonical();
    assert Same(point * z, out * inverse);
    MulSame(point * z, out * inverse, w, w);
    MulSame(w * inverse, 1, out, out);
    assert out * inverse * w == w * inverse * out;
    ModIsSame(z * w);
    MulSame(ModScalar(z * w), z * w, point, point);
    assert point * z * w == z * w * point && ModScalar(z * w) * point == point * ModScalar(z * w);
    CanonicalSame(out, ScalePoint(point, ModScalar(z * w)));
  }

  /**
   * Two answers to one round commitment, one for each bit, are a witness: the secret is the product
   * of the scalars and the permutation goes through the committed deck.
   */
  lemma BothBitsReveal(st: Statement, zero: Response, one: Response)
    requires StatementOk(st) && ResponseOk(st, zero) && ResponseOk(st, one)
    requires Reconstructed(st, false, zero) == Reconstructed(st, true, one)
    ensures Shuffles(st, ModScalar(zero.scalar * one.scalar), Then(zero.permutation, one.permutation))
  {
    hide InvertScalar, ScalePoint, ModScalar;
    var z, w := zero.scalar, one.scalar;
    var inverse := InvertScalar(w).value;
    var secret, pi := ModScalar(z * w), Then(zero.permutation, one.permutation);
    var deck := Reconstructed(st, false, zero).deck;
    ScaleTwice(1, z, w, st.publicKey, inverse);
    forall i | 0 <= i < |st.input| ensures st.output[pi[i]] == ScalePoint(st.input[i], secret) {
      var j := zero.permutation[i];
      assert deck[j] == ScalePoint(st.input[i], z);
      assert deck[j] == ScalePoint(st.output[one.permutation[j]], inverse);
      ScaleTwice(st.input[i], z, w, st.output[pi[i]], inverse);
    }
    KeyIsSecret(st.publicKey, secret);
  }

  lemma KeyIsSecret(key: int, secret: int)
    requires NonIdentity(key) && Canonical(secret) && ScalePoint(1, secret) == key
    ensures 0 < secret < SCALAR_ORDER
  {
  }

  /** Different numbers differ in one of the bits that hold them. */
  lemma {:induction false} DifferentBit(x: nat, y: nat, width: nat) returns (place: nat)
    requires x < TwoTo(width) && y < TwoTo(width) && x != y
    ensures place < width && ShiftRight(x, place) % 2 != ShiftRight(y, place) % 2
    decreases width
  {
    if x % 2 != y % 2 {
      return 0;
    }
    var higher := DifferentBit(x / 2, y / 2, width - 1);
    return higher + 1;
  }

  /** Two different challenges ask for different answers in some round. */
  lemma DifferentRound(a: seq<byte>, b: seq<byte>) returns (round: nat)
    requires |a| == |b| == CHALLENGE_BYTES && a != b
    ensures round < ROUNDS && ChallengeBit(a, round) != ChallengeBit(b, round)
  {
    var i: nat :| i < CHALLENGE_BYTES && a[i] != b[i];
    assert TwoTo(2) == 4 && TwoTo(4) == 16 && TwoTo(6) == 64 && TwoTo(8) == 256;
    var place := DifferentBit(a[i], b[i], 8);
    round := 8 * i + 7 - place;
    assert round / 8 == i && 7 - round % 8 == place;
  }

  /** Two accepted proofs with equal round commitments and different challenges reveal a shuffle. */
  lemma DifferentChallengesReveal(st: Statement, a: Proof, b: Proof, hash: Hash, other: Hash)
    requires Accepted(st, a, hash) && Accepted(st, b, other) && AllReconstructed(st, a) == AllReconstructed(st, b)
    requires a.challenge != b.challenge
    ensures exists secret, pi :: Shuffles(st, secret, pi)
  {
    hide Reconstructed, Shuffles, ChallengeBit;
    var round := DifferentRound(a.challenge, b.challenge);
    assert AllReconstructed(st, a)[round] == AllReconstructed(st, b)[round];
    if ChallengeBit(a.challenge, round) {
      BothBitsReveal(st, b.responses[round], a.responses[round]);
    } else {
      BothBitsReveal(st, a.responses[round], b.responses[round]);
    }
  }
}
