/** Commitments, bit proofs and range proofs (packages/crypto/src/range.ts). */
module Range {
  import opened Results
  import opened Octets
  import opened Group
  import opened Sigma

  const MAX_RANGE_BITS := 16

  /** The order exceeds every committed range, so a range means the same over the integers. */
  predicate OrderExceedsRanges() {
    TwoTo(MAX_RANGE_BITS) < SCALAR_ORDER
  }

  lemma {:induction false} TwoToGrows(a: nat, b: nat)
    requires a <= b
    ensures TwoTo(a) <= TwoTo(b)
  {
    if a < b {
      TwoToGrows(a, b - 1);
    }
  }

  // ---- Pedersen commitments ----

  function Positive(p: Point, scalar: int): Point {
    var once := Scale(p, scalar / 2 + 1);
    Add(once, once)
  }

  function Correction(p: Point, scalar: int): Point {
    Scale(p, 2 - scalar % 2)
  }

  /** Four nonzero multiplications, also when value or blinding is zero. */
  function PedersenCommit(value: int, blinding: int): (r: Point)
    ensures IsPoint(r)
  {
    Subtract(Subtract(Add(Positive(G_POINT, value), Positive(H_POINT, blinding)), Correction(G_POINT, value)),
             Correction(H_POINT, blinding))
  }

  lemma PedersenIs(value: int, blinding: int)
    requires Canonical(value) && Canonical(blinding)
    ensures PedersenCommit(value, blinding) == Point(value, blinding)
  {
    hide ModScalar, ScalePoint, AddPoints, SubtractPoints;
    CommitCoefficient(1, value, 0, blinding);
    CommitCoefficient(0, value, 1, blinding);
    ScaleByBase(value);
    ScaleByBase(blinding);
    assert value + 0 == value && 0 + blinding == blinding;
  }

  lemma ScaleByBase(x: int)
    requires Canonical(x)
    ensures ScalePoint(1, x) == x && ScalePoint(0, x) == 0 && ModScalar(x) == x
  {
  }

  lemma CommitCoefficient(a: int, value: int, b: int, blinding: int)
    requires Canonical(value) && Canonical(blinding)
    ensures var v, w := ZeroSafeProductTerms(a, value), ZeroSafeProductTerms(b, blinding);
      SubtractPoints(SubtractPoints(AddPoints(v.positive, w.positive), v.correction), w.correction)
        == ModScalar(ScalePoint(a, value) + ScalePoint(b, blinding))
  {
    hide ModScalar, ZeroSafeProductTerms;
    var v, w := ZeroSafeProductTerms(a, value), ZeroSafeProductTerms(b, blinding);
    ZeroSafeDifference(a, value);
    ZeroSafeDifference(b, blinding);
    var both := AddPoints(v.positive, w.positive);
    AddSame(both, v.positive + w.positive, v.correction, v.correction);
    AddSame(SubtractPoints(both, v.correction), v.positive + w.positive - v.correction, w.correction, w.correction);
    AddSame(v.positive - v.correction, ScalePoint(a, value), w.positive - w.correction, ScalePoint(b, blinding));
    assert v.positive + w.positive - v.correction - w.correction == v.positive - v.correction
      + (w.positive - w.correction);
    var sum := ScalePoint(a, value) + ScalePoint(b, blinding);
    ModIsSame(sum);
    CanonicalSame(SubtractPoints(SubtractPoints(both, v.correction), w.correction), ModScalar(sum));
  }

  // ---- bits ----

  datatype BitProof = BitProof(e0: int, e1: int, z0: int, z1: int)

  datatype Announcements = Announcements(zero: Point, one: Point)

  datatype BitInspection = BitInspection(challenge: int, announcements: Announcements)

  function Announce(target: Point, e: int, z: int): Point {
    Subtract(Scale(H_POINT, z), Scale(target, e))
  }

  predicate BitProofOk(proof: BitProof) {
    Canonical(proof.e0) && Canonical(proof.e1) && Canonical(proof.z0) && Canonical(proof.z1)
  }

  /** The challenge and the first messages a bit proof implies. */
  function InspectBit(target: Point, proof: BitProof): Result<BitInspection> {
    if !IsPoint(target) || !BitProofOk(proof) then Err("encoding")
    else
      Ok(BitInspection(ModScalar(proof.e0 + proof.e1),
                       Announcements(Announce(target, proof.e0, proof.z0),
                                     Announce(Subtract(target, G_POINT), proof.e1, proof.z1))))
  }

  /** The secrets of one bit: the honest nonce and the simulated branch. */
  datatype BitNonces = BitNonces(nonce: int, fakeChallenge: int, fakeResponse: int)

  predicate BitNoncesOk(n: BitNonces) {
    Canonical(n.nonce) && Canonical(n.fakeChallenge) && Canonical(n.fakeResponse)
  }

  function BitAnnouncements(target: Point, bit: bool, n: BitNonces): Announcements {
    var honest := Scale(H_POINT, n.nonce);
    if bit then Announcements(Announce(target, n.fakeChallenge, n.fakeResponse), honest)
    else Announcements(honest, Announce(Subtract(target, G_POINT), n.fakeChallenge, n.fakeResponse))
  }

  function BitResponse(bit: bool, blinding: int, n: BitNonces, challenge: int): BitProof {
    var e := ModScalar(challenge - n.fakeChallenge);
    var z := ModScalar(n.nonce + e * blinding);
    if bit then BitProof(n.fakeChallenge, e, n.fakeResponse, z) else BitProof(e, n.fakeChallenge, z, n.fakeResponse)
  }

  predicate OpensBit(target: Point, bit: bool, blinding: int) {
    Canonical(blinding) && target == Point(if bit then 1 else 0, blinding)
  }

  lemma NonceRemains(base: int, secret: int, nonce: int, e: int)
    ensures SubtractPoints(ScalePoint(base, ModScalar(nonce + e * secret)), ScalePoint(ScalePoint(base, secret), e))
      == ScalePoint(base, nonce)
  {
    hide ModScalar;
    var a, b, c := ScalePoint(base, ModScalar(nonce + e * secret)), ScalePoint(base, nonce),
      ScalePoint(ScalePoint(base, secret), e);
    ResponseAnswers(base, secret, nonce, e);
    AddSame(a, b + c, c, c);
    assert b + c - c == b;
    CanonicalSame(SubtractPoints(a, c), b);
  }

  /** Without its bit, the target is the blinding times `H`. */
  lemma Unshifted(target: Point, bit: bool, blinding: int)
    requires OpensBit(target, bit, blinding)
    ensures (if bit then Subtract(target, G_POINT) else target) == Scale(H_POINT, blinding)
  {
    ScaleByBase(blinding);
  }

  lemma ChallengeShares(challenge: int, fake: int)
    requires Canonical(challenge)
    ensures ModScalar(ModScalar(challenge - fake) + fake) == challenge
      && ModScalar(fake + ModScalar(challenge - fake)) == challenge
  {
    hide ModScalar;
    ModIsSame(challenge - fake);
    AddSame(ModScalar(challenge - fake), challenge - fake, fake, fake);
    assert challenge - fake + fake == challenge
      && fake + ModScalar(challenge - fake) == ModScalar(challenge - fake) + fake;
    ModIsSame(ModScalar(challenge - fake) + fake);
    CanonicalSame(ModScalar(ModScalar(challenge - fake) + fake), challenge);
  }

  /** An honest bit answers any challenge with its own first messages. */
  lemma BitAnswers(target: Point, bit: bool, blinding: int, n: BitNonces, challenge: int)
    requires OpensBit(target, bit, blinding) && BitNoncesOk(n) && Canonical(challenge)
    ensures InspectBit(target, BitResponse(bit, blinding, n, challenge))
      == Ok(BitInspection(challenge, BitAnnouncements(target, bit, n)))
  {
    hide ModScalar, Announce, Scale, Subtract;
    var e := ModScalar(challenge - n.fakeChallenge);
    Unshifted(target, bit, blinding);
    ChallengeShares(challenge, n.fakeChallenge);
    HonestAnnounces(blinding, n.nonce, e);
    ZeroOneCanonical();
  }

  /** The honest branch announces its nonce. */
  lemma HonestAnnounces(blinding: int, nonce: int, e: int)
    ensures Announce(Scale(H_POINT, blinding), e, ModScalar(nonce + e * blinding)) == Scale(H_POINT, nonce)
  {
    hide ModScalar, ScalePoint, SubtractPoints;
    NonceRemains(0, blinding, nonce, e);
    NonceRemains(1, blinding, nonce, e);
  }

  lemma ZeroOneCanonical()
    ensures Canonical(0) && Canonical(1)
  {
  }

  /** Equal first messages at different challenges open the shifted target. */
  lemma AnnouncementExtracts(target: Point, e: int, z: int, f: int, w: int)
    requires IsPoint(target) && Announce(target, e, z) == Announce(target, f, w) && !Same(e, f)
    ensures Scale(H_POINT, Extracted(z, w, e, f)) == target
  {
    hide ModScalar, Extracted, ScalePoint, SubtractPoints, AddPoints;
    var first := Announce(target, e, z);
    SimulatedAnswers(0, target.g, e, z);
    SimulatedAnswers(1, target.h, e, z);
    SimulatedAnswers(0, target.g, f, w);
    SimulatedAnswers(1, target.h, f, w);
    TwoAnswers(0, target.g, first.g, z, e, w, f);
    TwoAnswers(1, target.h, first.h, z, e, w, f);
  }

  lemma ShiftBack(target: Point, blinding: int)
    requires IsPoint(target) && Canonical(blinding) && Subtract(target, G_POINT) == Scale(H_POINT, blinding)
    ensures OpensBit(target, true, blinding)
  {
    ScaleByBase(blinding);
    BackByOne(target.g);
    Undiminished(target.h);
  }

  lemma BackByOne(g: int)
    requires Canonical(g) && SubtractPoints(g, 1) == 0
    ensures g == 1
  {
    hide ModScalar;
    AddSame(SubtractPoints(g, 1), g - 1, 1, 1);
    assert g - 1 + 1 == g;
    OneCanonical();
    CanonicalSame(g, 1);
  }

  lemma OneCanonical()
    ensures Canonical(1)
  {
  }

  lemma Undiminished(h: int)
    requires Canonical(h)
    ensures SubtractPoints(h, 0) == h
  {
  }

  lemma ZeroBit(target: Point, blinding: int)
    requires Canonical(blinding) && target == Scale(H_POINT, blinding)
    ensures OpensBit(target, false, blinding)
  {
    ScaleByBase(blinding);
  }

  /** Two bit proofs with equal first messages and different challenges open the commitment to a bit. */
  lemma BitExtracts(target: Point, a: BitProof, b: BitProof) returns (bit: bool, blinding: int)
    requires InspectBit(target, a).Ok? && InspectBit(target, b).Ok?
    requires InspectBit(target, a).value.announcements == InspectBit(target, b).value.announcements
    requires InspectBit(target, a).value.challenge != InspectBit(target, b).value.challenge
    ensures OpensBit(target, bit, blinding)
  {
    hide ModScalar, Extracted, ScalePoint, SubtractPoints;
    if a.e0 != b.e0 {
      CanonicalDiffer(a.e0, b.e0);
      AnnouncementExtracts(target, a.e0, a.z0, b.e0, b.z0);
      bit, blinding := false, Extracted(a.z0, b.z0, a.e0, b.e0);
      ZeroBit(target, blinding);
    } else {
      CanonicalDiffer(a.e1, b.e1);
      AnnouncementExtracts(Subtract(target, G_POINT), a.e1, a.z1, b.e1, b.z1);
      bit, blinding := true, Extracted(a.z1, b.z1, a.e1, b.e1);
      ShiftBack(target, blinding);
    }
  }

  // ---- weighted sums ----

  function Weighted(xs: seq<int>, k: nat): int
    requires k <= |xs|
  {
    if k == 0 then 0 else Weighted(xs, k - 1) + TwoTo(k - 1) * xs[k - 1]
  }

  function WeightedPoint(points: seq<Point>, k: nat): (r: Point)
    requires k <= |points|
    ensures IsPoint(r)
  {
    if k == 0 then ZERO_POINT else Add(WeightedPoint(points, k - 1), Scale(points[k - 1], TwoTo(k - 1)))
  }

  lemma {:induction false} WeightedPrefix(xs: seq<int>, more: seq<int>, k: nat)
    requires k <= |xs| && xs <= more
    ensures Weighted(xs, k) == Weighted(more, k)
  {
    if k > 0 {
      WeightedPrefix(xs, more, k - 1);
    }
  }

  lemma {:induction false} WeightedPointPrefix(xs: seq<Point>, more: seq<Point>, k: nat)
    requires k <= |xs| && xs <= more
    ensures WeightedPoint(xs, k) == WeightedPoint(more, k)
  {
    if k > 0 {
      WeightedPointPrefix(xs, more, k - 1);
    }
  }

  /** A weighted sum of openings opens the weighted sum of the points. */
  lemma {:induction false} WeightedOpens(points: seq<Point>, values: seq<int>, blindings: seq<int>, k: nat)
    requires k <= |points| == |values| == |blindings|
    requires forall i :: 0 <= i < |points| ==> points[i] == Point(values[i], blindings[i])
    ensures Same(WeightedPoint(points, k).g, Weighted(values, k))
      && Same(WeightedPoint(points, k).h, Weighted(blindings, k))
  {
    hide ModScalar;
    if k > 0 {
      WeightedOpens(points, values, blindings, k - 1);
      var weight, prior := TwoTo(k - 1), WeightedPoint(points, k - 1);
      WeightedStep(prior.g, Weighted(values, k - 1), values[k - 1], weight);
      WeightedStep(prior.h, Weighted(blindings, k - 1), blindings[k - 1], weight);
    }
  }

  lemma WeightedStep(prior: int, sum: int, x: int, weight: int)
    requires Same(prior, sum)
    ensures Same(AddPoints(prior, ScalePoint(x, weight)), sum + weight * x)
  {
    hide ModScalar;
    AddSame(prior, sum, ScalePoint(x, weight), x * weight);
    assert x * weight == weight * x;
  }

  // ---- ranges ----

  datatype RangeStatement = RangeStatement(commitment: Point, bits: nat)

  datatype RangeProof = RangeProof(commitments: seq<Point>, proofs: seq<BitProof>)

  datatype RangeInspection = RangeInspection(challenge: int, commitments: seq<Point>, announcements: seq<Announcements>)

  predicate RangeStatementOk(st: RangeStatement) {
    1 <= st.bits <= MAX_RANGE_BITS && IsPoint(st.commitment)
  }

  function AnnouncementsOf(commitments: seq<Point>, proofs: seq<BitProof>): (r: seq<Announcements>)
    requires |commitments| == |proofs| && forall i :: 0 <= i < |proofs| ==> InspectBit(commitments[i], proofs[i]).Ok?
    ensures |r| == |proofs| && forall i :: 0 <= i < |r| ==>
      r[i] == InspectBit(commitments[i], proofs[i]).value.announcements
  {
    seq(|proofs|, i requires 0 <= i < |proofs| => InspectBit(commitments[i], proofs[i]).value.announcements)
  }

  predicate BitsShareChallenge(proof: RangeProof, challenge: int) {
    && |proof.commitments| == |proof.proofs|
    && forall i :: 0 <= i < |proof.proofs| ==>
      InspectBit(proof.commitments[i], proof.proofs[i]).Ok?
        && InspectBit(proof.commitments[i], proof.proofs[i]).value.challenge == challenge
  }

  /** All bit proofs share one challenge, and the weighted bit commitments are the statement's commitment. */
  function InspectRange(st: RangeStatement, proof: RangeProof): Result<RangeInspection> {
    if !RangeStatementOk(st) || |proof.commitments| != st.bits || |proof.proofs| != st.bits then Err("shape")
    else
      match InspectBit(proof.commitments[0], proof.proofs[0])
      case Err(code) => Err(code)
      case Ok(first) =>
        if !BitsShareChallenge(proof, first.challenge) then Err("challenge")
        else if WeightedPoint(proof.commitments, st.bits) != st.commitment then Err("sum")
        else Ok(RangeInspection(first.challenge, proof.commitments, AnnouncementsOf(proof.commitments, proof.proofs)))
  }

  /** The inspecting loop keeps the running weighted sum and the challenge seen so far. */
  method InspectRangeProof(st: RangeStatement, proof: RangeProof) returns (r: Result<RangeInspection>)
    ensures r.Ok? <==> InspectRange(st, proof).Ok?
    ensures r.Ok? ==> r == InspectRange(st, proof)
  {
    hide InspectBit, Add, Scale;
    if !RangeStatementOk(st) || |proof.commitments| != st.bits || |proof.proofs| != st.bits {
      return Err("shape");
    }
    var weighted := ZERO_POINT;
    var challenge: Option<int> := None;
    var announcements: seq<Announcements> := [];
    for index := 0 to st.bits
      invariant weighted == WeightedPoint(proof.commitments, index)
      invariant |announcements| == index && (challenge.Some? <==> index > 0)
      invariant forall i :: 0 <= i < index ==>
        && InspectBit(proof.commitments[i], proof.proofs[i]).Ok?
        && InspectBit(proof.commitments[i], proof.proofs[i]).value == BitInspection(challenge.value, announcements[i])
    {
      weighted := Add(weighted, Scale(proof.commitments[index], TwoTo(index)));
      var inspected := InspectBit(proof.commitments[index], proof.proofs[index]);
      if inspected.Err? || (challenge.Some? && challenge.value != inspected.value.challenge) {
        return Err("challenge");
      }
      challenge := Some(inspected.value.challenge);
      announcements := announcements + [inspected.value.announcements];
    }
    if weighted != st.commitment {
      return Err("sum");
    }
    assert announcements == AnnouncementsOf(proof.commitments, proof.proofs);
    return Ok(RangeInspection(challenge.value, proof.commitments, announcements));
  }

  // ---- proving a range ----

  function Bit(value: nat, index: nat): (r: int)
    ensures r == 0 || r == 1
  {
    value / TwoTo(index) % 2
  }

  function Bits(value: nat, count: nat): (r: seq<int>)
    ensures |r| == count && forall i :: 0 <= i < count ==> r[i] == Bit(value, i)
  {
    seq(count, i requires 0 <= i < count => Bit(value, i))
  }

  lemma {:induction false} BitsSum(value: nat, count: nat, k: nat)
    requires k <= count
    ensures Weighted(Bits(value, count), k) == value % TwoTo(k)
  {
    if k > 0 {
      BitsSum(value, count, k - 1);
      ModTwice(value, TwoTo(k - 1));
    }
  }

  lemma SmallMod(x: nat, n: nat)
    requires x < n
    ensures x % n == x
  {
  }

  lemma ModParts(h: nat, b: nat, m: nat, r: nat)
    requires m > 0 && r < m && b < 2
    ensures ((2 * h + b) * m + r) % (2 * m) == r + m * b
  {
    assert (2 * h + b) * m + r == (r + m * b) + h * (2 * m);
    assert m * b == if b == 0 then 0 else m;
    Shift(r + m * b, h, 2 * m);
    SmallMod(r + m * b, 2 * m);
  }

  lemma ModTwice(value: nat, m: nat)
    requires m > 0
    ensures value % (2 * m) == value % m + m * (value / m % 2)
  {
    DivMod(value, m);
    DivMod(value / m, 2);
    ModParts(value / m / 2, value / m % 2, m, value % m);
  }

  function InverseLastWeight(bits: nat): (r: int)
    requires 1 <= bits <= MAX_RANGE_BITS && OrderExceedsRanges()
    ensures Canonical(r) && Same(TwoTo(bits - 1) * r, 1)
  {
    TwoToGrows(bits - 1, MAX_RANGE_BITS);
    OneIsCanonical();
    InvertScalar(TwoTo(bits - 1)).value
  }

  /** The blindings of the bits; the last is solved so that they weigh up to the whole blinding. */
  function Blindings(bits: nat, blinding: int, blind: nat -> int, k: nat): (r: seq<int>)
    requires 1 <= bits <= MAX_RANGE_BITS && k <= bits && OrderExceedsRanges()
    ensures |r| == k
  {
    if k == 0 then []
    else
      var prior := Blindings(bits, blinding, blind, k - 1);
      var left := blinding - ModScalar(Weighted(prior, k - 1));
      prior + [if k == bits then ModScalar(left * InverseLastWeight(bits)) else ModScalar(blind(k - 1))]
  }

  lemma {:induction false} BlindingsCanonical(bits: nat, blinding: int, blind: nat -> int, k: nat)
    requires 1 <= bits <= MAX_RANGE_BITS && k <= bits && OrderExceedsRanges()
    ensures forall i :: 0 <= i < k ==> Canonical(Blindings(bits, blinding, blind, k)[i])
  {
    if k > 0 {
      BlindingsCanonical(bits, blinding, blind, k - 1);
    }
  }

  /** Weight times a solved share makes up the rest. */
  lemma SolvedShare(total: int, sum: int, weight: int, inverse: int)
    requires Same(weight * inverse, 1)
    ensures Same(sum + weight * ModScalar((total - ModScalar(sum)) * inverse), total)
  {
    hide ModScalar;
    var reduced := ModScalar(sum);
    var share := (total - reduced) * inverse;
    ModIsSame(sum);
    ModIsSame(share);
    MulSame(ModScalar(share), share, weight, weight);
    MulSame(weight * inverse, 1, total - reduced, total - reduced);
    assert share * weight == weight * inverse * (total - reduced)
      && ModScalar(share) * weight == weight * ModScalar(share);
    AddSame(sum, reduced, weight * ModScalar(share), total - reduced);
    assert reduced + (total - reduced) == total;
  }

  lemma BlindingsLast(bits: nat, blinding: int, blind: nat -> int)
    requires 1 <= bits <= MAX_RANGE_BITS && OrderExceedsRanges()
    ensures var prior := Blindings(bits, blinding, blind, bits - 1);
      Blindings(bits, blinding, blind, bits)
        == prior + [ModScalar((blinding - ModScalar(Weighted(prior, bits - 1))) * InverseLastWeight(bits))]
  {
  }

  lemma WeightedLast(prior: seq<int>, x: int)
    ensures Weighted(prior + [x], |prior| + 1) == Weighted(prior, |prior|) + TwoTo(|prior|) * x
  {
    WeightedPrefix(prior, prior + [x], |prior|);
  }

  lemma BlindingsSum(bits: nat, blinding: int, blind: nat -> int)
    requires 1 <= bits <= MAX_RANGE_BITS && OrderExceedsRanges()
    ensures Same(Weighted(Blindings(bits, blinding, blind, bits), bits), blinding)
  {
    hide ModScalar, InverseLastWeight, Blindings, Weighted, TwoTo, OrderExceedsRanges;
    var prior := Blindings(bits, blinding, blind, bits - 1);
    var sum, inverse := Weighted(prior, bits - 1), InverseLastWeight(bits);
    BlindingsLast(bits, blinding, blind);
    WeightedLast(prior, ModScalar((blinding - ModScalar(sum)) * inverse));
    SolvedShare(blinding, sum, TwoTo(bits - 1), inverse);
  }

  /** The derived secrets of a range proof. */
  datatype RangeNonces = RangeNonces(blind: nat -> int, bit: nat -> BitNonces)

  predicate ValidOpening(st: RangeStatement, value: int, blinding: int) {
    && RangeStatementOk(st) && 0 <= value < TwoTo(st.bits) && Canonical(value) && Canonical(blinding)
    && PedersenCommit(value, blinding) == st.commitment
  }

  function BitCommitment(value: nat, blindings: seq<int>, i: nat): Point
    requires i < |blindings|
  {
    PedersenCommit(Bit(value, i), blindings[i])
  }

  function BitCommitments(value: nat, blindings: seq<int>): seq<Point> {
    seq(|blindings|, i requires 0 <= i < |blindings| => BitCommitment(value, blindings, i))
  }

  /** A range prepared for one challenge: the first messages and what answers it. */
  datatype PreparedRange = PreparedRange(value: nat, blindings: seq<int>, nonces: nat -> BitNonces)

  function FirstCommitments(p: PreparedRange): seq<Point> {
    BitCommitments(p.value, p.blindings)
  }

  function FirstAnnouncements(p: PreparedRange): (r: seq<Announcements>)
    ensures |r| == |p.blindings|
    ensures forall i :: 0 <= i < |r| ==>
      r[i] == BitAnnouncements(FirstCommitments(p)[i], Bit(p.value, i) == 1, p.nonces(i))
  {
    seq(|p.blindings|, i requires 0 <= i < |p.blindings| =>
        BitAnnouncements(FirstCommitments(p)[i], Bit(p.value, i) == 1, p.nonces(i)))
  }

  function RespondRange(p: PreparedRange, challenge: int): RangeProof {
    RangeProof(FirstCommitments(p),
               seq(|p.blindings|, i requires 0 <= i < |p.blindings| =>
                   BitResponse(Bit(p.value, i) == 1, p.blindings[i], p.nonces(i), challenge)))
  }

  function PrepareRange(st: RangeStatement, value: int, blinding: int, n: RangeNonces): Result<PreparedRange>
    requires OrderExceedsRanges()
  {
    if !ValidOpening(st, value, blinding) then Err("range")
    else Ok(PreparedRange(value, Blindings(st.bits, blinding, n.blind, st.bits), n.bit))
  }

  /** The loop that draws the blindings, keeps their weighted sum reduced, and solves the last one. */
  method PrepareRangeProof(st: RangeStatement, value: int, blinding: int, n: RangeNonces)
    returns (r: Result<PreparedRange>)
    requires OrderExceedsRanges()
    ensures r == PrepareRange(st, value, blinding, n)
  {
    hide ModScalar, InverseLastWeight, Weighted, TwoTo;
    if !ValidOpening(st, value, blinding) {
      return Err("range");
    }
    var blindings: seq<int> := [];
    var weightedBlinding := 0;
    ZeroReduced();
    assert Weighted(blindings, 0) == 0 by { NothingWeighted(); }
    for index := 0 to st.bits
      invariant blindings == Blindings(st.bits, blinding, n.blind, index)
      invariant weightedBlinding == ModScalar(Weighted(blindings, index))
    {
      var weight := TwoTo(index);
      var blind :=
        if index == st.bits - 1 then ModScalar((blinding - weightedBlinding) * InverseLastWeight(st.bits))
        else ModScalar(n.blind(index));
      WeightedLast(blindings, blind);
      ReducedStep(Weighted(blindings, index), weight * blind);
      weightedBlinding := ModScalar(weightedBlinding + weight * blind);
      blindings := blindings + [blind];
    }
    return Ok(PreparedRange(value, blindings, n.bit));
  }

  lemma NothingWeighted()
    ensures Weighted([], 0) == 0
  {
  }

  lemma ZeroReduced()
    ensures ModScalar(0) == 0
  {
  }

  lemma ReducedStep(sum: int, term: int)
    ensures ModScalar(ModScalar(sum) + term) == ModScalar(sum + term)
  {
    hide ModScalar;
    ModIsSame(sum);
    AddSame(ModScalar(sum), sum, term, term);
  }

  predicate RangeNoncesOk(bit: nat -> BitNonces) {
    forall i: nat :: i < MAX_RANGE_BITS ==> BitNoncesOk(bit(i))
  }

  lemma BitCommitmentIs(value: nat, blindings: seq<int>, i: nat)
    requires i < |blindings| && Canonical(blindings[i])
    ensures BitCommitment(value, blindings, i) == Point(Bit(value, i), blindings[i])
  {
    hide PedersenCommit;
    ZeroOneCanonical();
    PedersenIs(Bit(value, i), blindings[i]);
  }

  /** The bit commitments of a valid opening weigh up to its commitment. */
  lemma CommitmentsSum(st: RangeStatement, value: int, blinding: int, blind: nat -> int)
    requires OrderExceedsRanges() && ValidOpening(st, value, blinding)
    ensures WeightedPoint(BitCommitments(value, Blindings(st.bits, blinding, blind, st.bits)), st.bits) == st.commitment
  {
    hide ModScalar, PedersenCommit, Weighted, WeightedPoint, Blindings, TwoTo, BitCommitment;
    var blindings := Blindings(st.bits, blinding, blind, st.bits);
    var points := BitCommitments(value, blindings);
    BlindingsCanonical(st.bits, blinding, blind, st.bits);
    forall i | 0 <= i < st.bits ensures points[i] == Point(Bits(value, st.bits)[i], blindings[i]) {
      BitCommitmentIs(value, blindings, i);
    }
    WeightedOpens(points, Bits(value, st.bits), blindings, st.bits);
    BitsSum(value, st.bits, st.bits);
    SmallMod(value, TwoTo(st.bits));
    BlindingsSum(st.bits, blinding, blind);
    PedersenIs(value, blinding);
    CanonicalSame(WeightedPoint(points, st.bits).g, value);
    CanonicalSame(WeightedPoint(points, st.bits).h, blinding);
  }

  /** Every prepared range answers any challenge with its own first messages. */
  lemma RangeAnswers(st: RangeStatement, value: int, blinding: int, n: RangeNonces, challenge: int)
    requires OrderExceedsRanges() && PrepareRange(st, value, blinding, n).Ok? && RangeNoncesOk(n.bit)
      && Canonical(challenge)
    ensures var p := PrepareRange(st, value, blinding, n).value;
      InspectRange(st, RespondRange(p, challenge))
        == Ok(RangeInspection(challenge, FirstCommitments(p), FirstAnnouncements(p)))
  {
    hide ModScalar, PedersenCommit, InspectBit, BitAnnouncements, BitResponse, WeightedPoint, Blindings, TwoTo,
      BitCommitment;
    var p := PrepareRange(st, value, blinding, n).value;
    var proof := RespondRange(p, challenge);
    CommitmentsSum(st, value, blinding, n.blind);
    BlindingsCanonical(st.bits, blinding, n.blind, st.bits);
    forall i | 0 <= i < st.bits
      ensures InspectBit(proof.commitments[i], proof.proofs[i])
        == Ok(BitInspection(challenge, FirstAnnouncements(p)[i]))
    {
      BitCommitmentIs(value, p.blindings, i);
      BitAnswers(proof.commitments[i], Bit(value, i) == 1, p.blindings[i], n.bit(i), challenge);
    }
    assert AnnouncementsOf(proof.commitments, proof.proofs) == FirstAnnouncements(p);
  }

  // ---- simulating a range ----

  /** The derived secrets of a simulated range. */
  datatype FakeNonces = FakeNonces(point: nat -> int, e0: nat -> int, z0: nat -> int, z1: nat -> int)

  function FakePoints(st: RangeStatement, point: nat -> int, k: nat): (r: seq<Point>)
    requires RangeStatementOk(st) && k <= st.bits && OrderExceedsRanges()
    ensures |r| == k && forall i :: 0 <= i < k ==> IsPoint(r[i])
  {
    if k == 0 then []
    else
      var prior := FakePoints(st, point, k - 1);
      prior + [if k == st.bits then Scale(Subtract(st.commitment, WeightedPoint(prior, k - 1)),
                                          InverseLastWeight(st.bits))
               else Scale(H_POINT, point(k - 1))]
  }

  function SimulateRange(st: RangeStatement, challenge: int, n: FakeNonces): RangeProof
    requires RangeStatementOk(st) && OrderExceedsRanges()
  {
    RangeProof(FakePoints(st, n.point, st.bits),
               seq(st.bits, i requires 0 <= i < st.bits =>
                 BitProof(ModScalar(n.e0(i)), ModScalar(challenge - ModScalar(n.e0(i))), ModScalar(n.z0(i)),
                          ModScalar(n.z1(i)))))
  }

  /** The loop that draws points and solves the last one from the running weighted sum. */
  method SimulateRangeProof(st: RangeStatement, challenge: int, n: FakeNonces) returns (proof: RangeProof)
    requires RangeStatementOk(st) && OrderExceedsRanges()
    ensures proof == SimulateRange(st, challenge, n)
  {
    hide Add, Scale, Subtract;
    var commitments: seq<Point> := [];
    var weighted := ZERO_POINT;
    for index := 0 to st.bits
      invariant commitments == FakePoints(st, n.point, index)
      invariant weighted == WeightedPoint(commitments, index)
    {
      var point := if index == st.bits - 1 then Scale(Subtract(st.commitment, weighted),
                                                      InverseLastWeight(st.bits)) else Scale(H_POINT, n.point(index));
      WeightedPointPrefix(commitments, commitments + [point], index);
      weighted := Add(weighted, Scale(point, TwoTo(index)));
      commitments := commitments + [point];
    }
    var proofs := seq(st.bits, i requires 0 <= i < st.bits =>
      BitProof(ModScalar(n.e0(i)), ModScalar(challenge - ModScalar(n.e0(i))), ModScalar(n.z0(i)), ModScalar(n.z1(i))));
    proof := RangeProof(commitments, proofs);
  }

  lemma SolvedPoint(target: int, sum: int, weight: int, inverse: int)
    requires Canonical(target) && Same(weight * inverse, 1)
    ensures AddPoints(sum, ScalePoint(ScalePoint(SubtractPoints(target, sum), inverse), weight)) == target
  {
    hide ModScalar;
    var share := ScalePoint(SubtractPoints(target, sum), inverse);
    MulSame(SubtractPoints(target, sum), target - sum, inverse, inverse);
    MulSame(share, (target - sum) * inverse, weight, weight);
    MulSame(weight * inverse, 1, target - sum, target - sum);
    assert (target - sum) * inverse * weight == weight * inverse * (target - sum);
    AddSame(sum, sum, ScalePoint(share, weight), target - sum);
    assert sum + (target - sum) == target;
    CanonicalSame(AddPoints(sum, ScalePoint(share, weight)), target);
  }

  lemma FakePointsSum(st: RangeStatement, point: nat -> int)
    requires RangeStatementOk(st) && OrderExceedsRanges()
    ensures WeightedPoint(FakePoints(st, point, st.bits), st.bits) == st.commitment
  {
    hide ModScalar, ScalePoint, AddPoints, SubtractPoints;
    var prior, all := FakePoints(st, point, st.bits - 1), FakePoints(st, point, st.bits);
    WeightedPointPrefix(prior, all, st.bits - 1);
    var sum, inverse, weight := WeightedPoint(prior, st.bits - 1), InverseLastWeight(st.bits), TwoTo(st.bits - 1);
    SolvedPoint(st.commitment.g, sum.g, weight, inverse);
    SolvedPoint(st.commitment.h, sum.h, weight, inverse);
  }

  /** A simulated range passes at its chosen challenge, for any commitment. */
  lemma RangeSimulates(st: RangeStatement, challenge: int, n: FakeNonces)
    requires RangeStatementOk(st) && OrderExceedsRanges() && Canonical(challenge)
    ensures InspectRange(st, SimulateRange(st, challenge, n)).Ok?
    ensures InspectRange(st, SimulateRange(st, challenge, n)).value.challenge == challenge
  {
    hide ModScalar, Announce, FakePoints, WeightedPoint, TwoTo, InverseLastWeight, Subtract;
    var proof := SimulateRange(st, challenge, n);
    FakePointsSum(st, n.point);
    forall i | 0 <= i < st.bits
      ensures InspectBit(proof.commitments[i], proof.proofs[i]).Ok?
      ensures InspectBit(proof.commitments[i], proof.proofs[i]).value.challenge == challenge
    {
      ChallengeShares(challenge, ModScalar(n.e0(i)));
    }
  }

  // ---- extracting a range ----

  /** Bits given as a predicate weigh up to a number below the next power of two. */
  lemma {:induction false} BitsBelow(values: seq<int>, k: nat)
    requires k <= |values| && forall i :: 0 <= i < |values| ==> values[i] == 0 || values[i] == 1
    ensures 0 <= Weighted(values, k) < TwoTo(k)
  {
    if k > 0 {
      BitsBelow(values, k - 1);
      if values[k - 1] == 0 {
        assert TwoTo(k - 1) * values[k - 1] == 0;
      } else {
        assert TwoTo(k - 1) * values[k - 1] == TwoTo(k - 1);
      }
    }
  }

  lemma {:induction false} BitsExtract(a: RangeProof, b: RangeProof, e: int, f: int, k: nat)
    returns (values: seq<int>, blindings: seq<int>)
    requires a.commitments == b.commitments && BitsShareChallenge(a, e) && BitsShareChallenge(b, f) && e != f
    requires k <= |a.proofs| == |b.proofs|
      && AnnouncementsOf(a.commitments, a.proofs) == AnnouncementsOf(b.commitments, b.proofs)
    ensures |values| == |blindings| == k
    ensures forall i :: 0 <= i < k ==>
      (values[i] == 0 || values[i] == 1) && a.commitments[i] == Point(values[i], blindings[i])
  {
    hide InspectBit;
    values, blindings := [], [];
    if k > 0 {
      values, blindings := BitsExtract(a, b, e, f, k - 1);
      assert AnnouncementsOf(a.commitments, a.proofs)[k - 1] == AnnouncementsOf(b.commitments, b.proofs)[k - 1];
      var bit, blinding := BitExtracts(a.commitments[k - 1], a.proofs[k - 1], b.proofs[k - 1]);
      values, blindings := values + [if bit then 1 else 0], blindings + [blinding];
    }
  }

  /** Two accepted ranges with equal first messages and different challenges open a value in range. */
  lemma RangeExtracts(st: RangeStatement, a: RangeProof, b: RangeProof) returns (value: nat, blinding: int)
    requires OrderExceedsRanges() && InspectRange(st, a).Ok? && InspectRange(st, b).Ok?
    requires InspectRange(st, a).value.commitments == InspectRange(st, b).value.commitments
    requires InspectRange(st, a).value.announcements == InspectRange(st, b).value.announcements
    requires InspectRange(st, a).value.challenge != InspectRange(st, b).value.challenge
    ensures ValidOpening(st, value, blinding)
  {
    hide ModScalar, InspectBit, PedersenCommit;
    var e, f := InspectRange(st, a).value.challenge, InspectRange(st, b).value.challenge;
    var values, blindings := BitsExtract(a, b, e, f, st.bits);
    WeightedOpens(a.commitments, values, blindings, st.bits);
    BitsBelow(values, st.bits);
    value, blinding := Weighted(values, st.bits), st.commitment.h;
    TwoToGrows(st.bits, MAX_RANGE_BITS);
    CanonicalSame(st.commitment.g, value);
    PedersenIs(value, blinding);
  }

  // ---- single-use responders and standalone proofs ----

  /** A prepared range answers one challenge; a second answer is refused. */
  class RangeResponder {
    const st: RangeStatement
    const prepared: PreparedRange
    var answered: bool

    constructor (st: RangeStatement, prepared: PreparedRange)
      ensures this.st == st && this.prepared == prepared && !answered
    {
      this.st, this.prepared, answered := st, prepared, false;
    }

    method Respond(challenge: int) returns (r: Result<RangeProof>)
      modifies this`answered
      ensures r.Ok? <==> Canonical(challenge) && !old(answered)
      ensures r.Ok? ==> r.value == RespondRange(prepared, challenge)
      ensures answered == (old(answered) || Canonical(challenge))
    {
      if !Canonical(challenge) {
        return Err("range");
      }
      if answered {
        return Err("answered");
      }
      answered := true;
      return Ok(RespondRange(prepared, challenge));
    }
  }

  type RangeHash = (RangeStatement, seq<Point>, seq<Announcements>) -> int

  function ProveRange(st: RangeStatement, value: int, blinding: int, n: RangeNonces,
                      hash: RangeHash): Result<RangeProof>
    requires OrderExceedsRanges()
  {
    match PrepareRange(st, value, blinding, n)
    case Err(code) => Err(code)
    case Ok(p) => Ok(RespondRange(p, ModScalar(hash(st, FirstCommitments(p), FirstAnnouncements(p)))))
  }

  predicate VerifyRange(st: RangeStatement, proof: RangeProof, hash: RangeHash) {
    var inspected := InspectRange(st, proof);
    && inspected.Ok?
    && inspected.value.challenge == ModScalar(hash(st, inspected.value.commitments, inspected.value.announcements))
  }

  /** Every honest range proof verifies, under any hash. */
  lemma RangeComplete(st: RangeStatement, value: int, blinding: int, n: RangeNonces, hash: RangeHash)
    requires OrderExceedsRanges() && RangeNoncesOk(n.bit) && ProveRange(st, value, blinding, n, hash).Ok?
    ensures VerifyRange(st, ProveRange(st, value, blinding, n, hash).value, hash)
  {
    hide ModScalar, InspectRange, RespondRange, FirstCommitments, FirstAnnouncements;
    var p := PrepareRange(st, value, blinding, n).value;
    RangeAnswers(st, value, blinding, n, ModScalar(hash(st, FirstCommitments(p), FirstAnnouncements(p))));
  }

  type BitHash = (Point, Announcements) -> int

  function ProveBit(target: Point, bit: bool, blinding: int, n: BitNonces, hash: BitHash): Result<BitProof> {
    if !Canonical(blinding) || PedersenCommit(if bit then 1 else 0, blinding) != target then Err("witness")
    else Ok(BitResponse(bit, blinding, n, ModScalar(hash(target, BitAnnouncements(target, bit, n)))))
  }

  predicate VerifyBit(target: Point, proof: BitProof, hash: BitHash) {
    var inspected := InspectBit(target, proof);
    inspected.Ok? && inspected.value.challenge == ModScalar(hash(target, inspected.value.announcements))
  }

  lemma BitComplete(target: Point, bit: bool, blinding: int, n: BitNonces, hash: BitHash)
    requires BitNoncesOk(n) && ProveBit(target, bit, blinding, n, hash).Ok?
    ensures VerifyBit(target, ProveBit(target, bit, blinding, n, hash).value, hash)
  {
    hide ModScalar, InspectBit, PedersenCommit, BitResponse, BitAnnouncements;
    ZeroOneCanonical();
    PedersenIs(if bit then 1 else 0, blinding);
    BitAnswers(target, bit, blinding, n, ModScalar(hash(target, BitAnnouncements(target, bit, n))));
  }
}
