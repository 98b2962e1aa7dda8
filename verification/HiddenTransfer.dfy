/**
 * Moving one card between committed hands without showing which (packages/crypto/src/hidden-transfer.ts),
 * against the choice of that card made in the open (packages/protocol/src/audit.ts).
 */
module HiddenTransfer {
  import opened Results
  import opened Octets
  import opened Group
  import opened Sigma
  import opened Range
  import opened Cds

  const MAX_TYPES := 8
  const RANGE_BITS := 6
  const MAX_COUNT := 63

  datatype Statement = Statement(commitments: seq<Point>, transfer: seq<Point>, handSize: int, index: int,
                                 payloadHash: nat)

  datatype Witness = Witness(counts: seq<int>, blindings: seq<int>, transferBlindings: seq<int>)

  datatype Proof = Proof(bits: seq<BitProof>, sum: SchnorrProof, index: seq<BranchProof>)

  predicate StatementOk(st: Statement) {
    && 1 <= |st.commitments| <= MAX_TYPES && |st.transfer| == |st.commitments|
    && (forall i :: 0 <= i < |st.commitments| ==> IsPoint(st.commitments[i]) && IsPoint(st.transfer[i]))
    && 1 <= st.handSize <= |st.commitments| * MAX_COUNT
    && 0 <= st.index < st.handSize
  }

  function SumPoints(points: seq<Point>, k: nat): (r: Point)
    requires k <= |points|
    ensures IsPoint(r)
  {
    if k == 0 then ZERO_POINT else Add(SumPoints(points, k - 1), points[k - 1])
  }

  function Total(xs: seq<int>, k: nat): int
    requires k <= |xs|
  {
    if k == 0 then 0 else Total(xs, k - 1) + xs[k - 1]
  }

  /** Branch `at`: the transfer of kind `at` is one, and the index lies in that kind's interval. */
  function IndexBranch(st: Statement, at: nat): BranchStatement
    requires at < |st.commitments| == |st.transfer|
  {
    var prefix := SumPoints(st.commitments, at);
    var lower, upper := Scale(G_POINT, st.index), Scale(G_POINT, st.index + 1);
    BranchStatement(SchnorrStatement(H_POINT, Subtract(st.transfer[at], G_POINT)),
                    [RangeStatement(Subtract(lower, prefix), RANGE_BITS),
                     RangeStatement(Subtract(Add(prefix, st.commitments[at]), upper), RANGE_BITS)])
  }

  function IndexBranches(st: Statement, k: nat): (r: seq<BranchStatement>)
    requires k <= |st.commitments| == |st.transfer|
    ensures |r| == k && forall i :: 0 <= i < k ==> r[i] == IndexBranch(st, i)
  {
    if k == 0 then [] else IndexBranches(st, k - 1) + [IndexBranch(st, k - 1)]
  }

  /** The loop carries the running prefix commitment from kind to kind. */
  method IndexStatement(st: Statement) returns (branches: seq<BranchStatement>)
    requires |st.commitments| == |st.transfer|
    ensures branches == IndexBranches(st, |st.commitments|)
  {
    hide Add, Scale, Subtract;
    branches := [];
    var prefix := ZERO_POINT;
    var lowerIndex, upperIndex := Scale(G_POINT, st.index), Scale(G_POINT, st.index + 1);
    for at := 0 to |st.commitments|
      invariant branches == IndexBranches(st, at)
      invariant prefix == SumPoints(st.commitments, at)
    {
      var commitment, transfer := st.commitments[at], st.transfer[at];
      branches := branches + [BranchStatement(
        SchnorrStatement(H_POINT, Subtract(transfer, G_POINT)),
        [RangeStatement(Subtract(lowerIndex, prefix), RANGE_BITS),
         RangeStatement(Subtract(Add(prefix, commitment), upperIndex), RANGE_BITS)])];
      prefix := Add(prefix, commitment);
    }
  }

  // ---- what the audit selects ----

  predicate InInterval(counts: seq<int>, index: int, k: nat)
    requires k < |counts|
  {
    Total(counts, k) <= index < Total(counts, k) + counts[k]
  }

  /** The audit walks a cursor down the opened hand until it goes below zero. */
  method SelectedResource(counts: seq<int>, index: int) returns (r: Option<nat>)
    requires index >= 0 && forall i :: 0 <= i < |counts| ==> counts[i] >= 0
    ensures r.Some? ==> r.value < |counts| && InInterval(counts, index, r.value)
    ensures r.None? ==> Total(counts, |counts|) <= index
  {
    var cursor := index;
    for k := 0 to |counts|
      invariant cursor == index - Total(counts, k) && cursor >= 0
    {
      cursor := cursor - counts[k];
      if cursor < 0 {
        return Some(k);
      }
    }
    return None;
  }

  lemma {:induction false} TotalGrows(counts: seq<int>, a: nat, b: nat)
    requires a <= b <= |counts| && forall i :: 0 <= i < |counts| ==> counts[i] >= 0
    ensures Total(counts, a) <= Total(counts, b)
  {
    if a < b {
      TotalGrows(counts, a, b - 1);
    }
  }

  /** An index lies in one interval only. */
  lemma OneInterval(counts: seq<int>, index: int, a: nat, b: nat)
    requires a < |counts| && b < |counts| && forall i :: 0 <= i < |counts| ==> counts[i] >= 0
    requires InInterval(counts, index, a) && InInterval(counts, index, b)
    ensures a == b
  {
    if a < b {
      TotalGrows(counts, a + 1, b);
    } else if b < a {
      TotalGrows(counts, b + 1, a);
    }
  }

  // ---- committed hands ----

  /** Certified accounting: small counts that make up the hand, each with its committed opening. */
  predicate CommittedHand(st: Statement, counts: seq<int>, blindings: seq<int>) {
    && StatementOk(st) && |counts| == |blindings| == |st.commitments|
    && (forall i :: 0 <= i < |counts| ==>
        0 <= counts[i] <= MAX_COUNT && Canonical(blindings[i]) && st.commitments[i] == Point(counts[i], blindings[i]))
    && Total(counts, |counts|) == st.handSize
  }

  lemma {:induction false} SumIsTotal(points: seq<Point>, values: seq<int>, blindings: seq<int>, k: nat)
    requires k <= |points| == |values| == |blindings| && forall i :: 0 <= i < |points| ==>
      points[i] == Point(values[i], blindings[i])
    ensures Same(SumPoints(points, k).g, Total(values, k)) && Same(SumPoints(points, k).h, Total(blindings, k))
  {
    hide ModScalar;
    if k > 0 {
      SumIsTotal(points, values, blindings, k - 1);
      AddSame(SumPoints(points, k - 1).g, Total(values, k - 1), values[k - 1], values[k - 1]);
      AddSame(SumPoints(points, k - 1).h, Total(blindings, k - 1), blindings[k - 1], blindings[k - 1]);
    }
  }

  lemma {:induction false} TotalBound(counts: seq<int>, k: nat)
    requires k <= |counts| && forall i :: 0 <= i < |counts| ==> 0 <= counts[i] <= MAX_COUNT
    ensures 0 <= Total(counts, k) <= k * MAX_COUNT
  {
    if k > 0 {
      TotalBound(counts, k - 1);
    }
  }

  const SMALL := 1024

  /** Small integers that agree modulo the order are equal. */
  lemma SmallSame(x: int, y: int)
    requires OrderExceedsRanges() && Same(x, y) && -SMALL <= x - y <= SMALL
    ensures x == y
  {
    SameIff(x, y);
    TwoToSmall();
    if x > y {
      SmallMod(x - y, SCALAR_ORDER);
    } else if x < y {
      Shift(x - y, 1, SCALAR_ORDER);
      SmallMod(x - y + SCALAR_ORDER, SCALAR_ORDER);
    }
  }

  lemma TwoToSmall()
    ensures TwoTo(RANGE_BITS) == 64 && TwoTo(MAX_RANGE_BITS) > 2 * SMALL
  {
    assert TwoTo(4) == 16;
    assert TwoTo(6) == 4 * TwoTo(4);
    assert TwoTo(8) == 4 * TwoTo(6);
    assert TwoTo(10) == 4 * TwoTo(8);
    assert TwoTo(12) == 4 * TwoTo(10);
    TwoToGrows(12, 16);
  }

  /** The two range commitments of branch `k` commit the distances of the index to its interval. */
  lemma BranchCommits(st: Statement, counts: seq<int>, blindings: seq<int>, k: nat)
    requires CommittedHand(st, counts, blindings) && k < |counts|
    ensures var ranges := IndexBranch(st, k).ranges;
      && Same(ranges[0].commitment.g, st.index - Total(counts, k))
      && Same(ranges[0].commitment.h, 0 - Total(blindings, k))
      && Same(ranges[1].commitment.g, Total(counts, k) + counts[k] - (st.index + 1))
      && Same(ranges[1].commitment.h, Total(blindings, k) + blindings[k])
  {
    hide ModScalar;
    SumIsTotal(st.commitments, counts, blindings, k);
    var prefix, c := SumPoints(st.commitments, k), st.commitments[k];
    var lower, upper := Scale(G_POINT, st.index), Scale(G_POINT, st.index + 1);
    IndexPoint(st.index);
    IndexPoint(st.index + 1);
    AddSame(lower.g, st.index, prefix.g, Total(counts, k));
    AddSame(lower.h, 0, prefix.h, Total(blindings, k));
    AddSame(prefix.g, Total(counts, k), c.g, counts[k]);
    AddSame(prefix.h, Total(blindings, k), c.h, blindings[k]);
    var end := Add(prefix, c);
    AddSame(end.g, Total(counts, k) + counts[k], upper.g, st.index + 1);
    AddSame(end.h, Total(blindings, k) + blindings[k], upper.h, 0);
    assert Total(blindings, k) + blindings[k] - 0 == Total(blindings, k) + blindings[k];
  }

  lemma IndexPoint(index: int)
    ensures Same(Scale(G_POINT, index).g, index) && Same(Scale(G_POINT, index).h, 0)
  {
  }

  lemma TransferIsOne(transfer: Point, secret: int)
    requires IsPoint(transfer) && OpensSchnorr(SchnorrStatement(H_POINT, Subtract(transfer, G_POINT)), secret)
    ensures OpensBit(transfer, true, secret)
  {
    ShiftBack(transfer, secret);
  }

  /** A witness of branch `k` puts the index inside interval `k`, over the integers. */
  lemma BranchSelects(st: Statement, counts: seq<int>, blindings: seq<int>, k: nat, w: BranchWitness)
    requires OrderExceedsRanges() && CommittedHand(st, counts, blindings) && k < |counts|
    requires Witnesses(IndexBranch(st, k), w)
    ensures InInterval(counts, st.index, k) && OpensBit(st.transfer[k], true, w.secret)
  {
    hide ModScalar, PedersenCommit, TwoTo, Subtract, Add, Scale, OrderExceedsRanges;
    BranchCommits(st, counts, blindings, k);
    TwoToSmall();
    TotalBound(counts, k);
    TransferOpens(st, k, w);
    var lower, upper := w.ranges[0], w.ranges[1];
    assert ValidOpening(IndexBranch(st, k).ranges[0], lower.value, lower.blinding);
    assert ValidOpening(IndexBranch(st, k).ranges[1], upper.value, upper.blinding);
    PedersenIs(lower.value, lower.blinding);
    PedersenIs(upper.value, upper.blinding);
    SmallSame(lower.value, st.index - Total(counts, k));
    SmallSame(upper.value, Total(counts, k) + counts[k] - (st.index + 1));
  }

  lemma TransferOpens(st: Statement, k: nat, w: BranchWitness)
    requires StatementOk(st) && k < |st.commitments| && Witnesses(IndexBranch(st, k), w)
    ensures OpensBit(st.transfer[k], true, w.secret)
  {
    hide Subtract, Scale, OpensBit, InspectRange;
    TransferIsOne(st.transfer[k], w.secret);
  }

  /** The witness a prover builds for the selected branch. */
  function SelectedWitness(st: Statement, counts: seq<int>, blindings: seq<int>, k: nat, secret: int): BranchWitness
    requires k < |counts| == |blindings|
  {
    BranchWitness(secret, [Opening(st.index - Total(counts, k), ModScalar(-ModScalar(Total(blindings, k)))),
                           Opening(Total(counts, k) + counts[k] - 1 - st.index,
                                   ModScalar(ModScalar(Total(blindings, k)) + blindings[k]))])
  }

  lemma OpeningIs(st: RangeStatement, value: int, blinding: int, exact: int)
    requires OrderExceedsRanges() && RangeStatementOk(st) && 0 <= value < TwoTo(st.bits) && Canonical(blinding)
      && Same(blinding, exact)
    requires Same(st.commitment.g, value) && Same(st.commitment.h, exact)
    ensures ValidOpening(st, value, blinding)
  {
    hide ModScalar, PedersenCommit;
    TwoToGrows(st.bits, MAX_RANGE_BITS);
    PedersenIs(value, blinding);
    CanonicalSame(st.commitment.g, value);
    CanonicalSame(st.commitment.h, blinding);
  }

  lemma SelectedBlindings(sum: int, blinding: int)
    ensures Same(ModScalar(-ModScalar(sum)), 0 - sum) && Same(ModScalar(ModScalar(sum) + blinding), sum + blinding)
  {
    hide ModScalar;
    ModIsSame(sum);
    ModIsSame(-ModScalar(sum));
    ModIsSame(ModScalar(sum) + blinding);
    AddSame(0, 0, ModScalar(sum), sum);
    AddSame(ModScalar(sum), sum, blinding, blinding);
  }

  /** Inside its interval the selected branch has a witness. */
  lemma SelectedBranchOpens(st: Statement, counts: seq<int>, blindings: seq<int>, k: nat, secret: int)
    requires OrderExceedsRanges() && CommittedHand(st, counts, blindings) && k < |counts|
    requires InInterval(counts, st.index, k) && OpensBit(st.transfer[k], true, secret)
    ensures Witnesses(IndexBranch(st, k), SelectedWitness(st, counts, blindings, k, secret))
  {
    hide ModScalar, ValidOpening, TwoTo, OrderExceedsRanges;
    BranchCommits(st, counts, blindings, k);
    TwoToSmall();
    Unshifted(st.transfer[k], true, secret);
    var b, w := IndexBranch(st, k), SelectedWitness(st, counts, blindings, k, secret);
    SelectedBlindings(Total(blindings, k), blindings[k]);
    assert Total(counts, k) + counts[k] - 1 - st.index == Total(counts, k) + counts[k] - (st.index + 1);
    OpeningIs(b.ranges[0], w.ranges[0].value, w.ranges[0].blinding, 0 - Total(blindings, k));
    OpeningIs(b.ranges[1], w.ranges[1].value, w.ranges[1].blinding, Total(blindings, k) + blindings[k]);
  }

  /**
   * A branch has openings with both six-bit ranges exactly when its kind is the one the index
   * selects and the transfer of that kind is one.
   */
  lemma BranchOpensIffSelected(st: Statement, counts: seq<int>, blindings: seq<int>, k: nat)
    requires OrderExceedsRanges() && CommittedHand(st, counts, blindings) && k < |counts|
    ensures (exists w :: Witnesses(IndexBranch(st, k), w)) <==>
            InInterval(counts, st.index, k) && exists secret :: OpensBit(st.transfer[k], true, secret)
  {
    hide Witnesses, OpensBit, IndexBranch, OrderExceedsRanges;
    if w :| Witnesses(IndexBranch(st, k), w) {
      BranchSelects(st, counts, blindings, k, w);
    }
    if InInterval(counts, st.index, k) && exists secret :: OpensBit(st.transfer[k], true, secret) {
      var secret :| OpensBit(st.transfer[k], true, secret);
      SelectedBranchOpens(st, counts, blindings, k, secret);
    }
  }

  // ---- one-hot transfers ----

  /** Bits that sum to one modulo the order have exactly one one. */
  lemma {:induction false} BitsTotal(bits: seq<int>, k: nat)
    requires k <= |bits| && forall i :: 0 <= i < |bits| ==> bits[i] == 0 || bits[i] == 1
    ensures 0 <= Total(bits, k) <= k
    ensures forall i, j :: 0 <= i < j < k && bits[i] == 1 && bits[j] == 1 ==> Total(bits, k) >= 2
  {
    if k > 0 {
      BitsTotal(bits, k - 1);
      forall i | 0 <= i < k - 1 && bits[i] == 1 && bits[k - 1] == 1 ensures Total(bits, k) >= 2 {
        OneCounts(bits, k - 1, i);
      }
    }
  }

  lemma {:induction false} OneCounts(bits: seq<int>, k: nat, i: nat)
    requires i < k <= |bits| && bits[i] == 1 && forall j :: 0 <= j < |bits| ==> bits[j] == 0 || bits[j] == 1
    ensures Total(bits, k) >= 1
  {
    if i < k - 1 {
      OneCounts(bits, k - 1, i);
    } else if k > 1 {
      TotalGrows(bits, 0, k - 1);
    }
  }

  /** The transfer is a committed one in kind `k` and a committed zero in every other kind. */
  predicate OneHot(st: Statement, k: nat)
    requires StatementOk(st)
  {
    k < |st.transfer| && forall i :: 0 <= i < |st.transfer| ==> st.transfer[i].g == if i == k then 1 else 0
  }

  lemma TransferSum(st: Statement, bits: seq<int>, blindings: seq<int>, secret: int)
    requires StatementOk(st) && |bits| == |blindings| == |st.transfer| && OrderExceedsRanges()
    requires forall i :: 0 <= i < |bits| ==>
      (bits[i] == 0 || bits[i] == 1) && st.transfer[i] == Point(bits[i], blindings[i])
    requires OpensSchnorr(SchnorrStatement(H_POINT, Subtract(SumPoints(st.transfer, |st.transfer|), G_POINT)), secret)
    ensures Total(bits, |bits|) == 1
  {
    hide ModScalar, OrderExceedsRanges;
    SumIsTotal(st.transfer, bits, blindings, |bits|);
    var sum := SumPoints(st.transfer, |st.transfer|);
    TransferIsOne(sum, secret);
    BitsTotal(bits, |bits|);
    SmallSame(Total(bits, |bits|), 1);
  }

  /**
   * The right card: openings of every transfer bit, of the sum and of one index branch mean that the
   * transfer is one-hot at exactly the kind the index selects in the committed hand.
   */
  lemma TransfersSelectedCard(st: Statement, counts: seq<int>, blindings: seq<int>, bits: seq<int>,
                              transferBlindings: seq<int>,
                              sumSecret: int, k: nat, w: BranchWitness)
    requires OrderExceedsRanges() && CommittedHand(st, counts, blindings)
    requires |bits| == |transferBlindings| == |st.transfer|
    requires forall i :: 0 <= i < |bits| ==>
      (bits[i] == 0 || bits[i] == 1) && st.transfer[i] == Point(bits[i], transferBlindings[i])
    requires OpensSchnorr(SchnorrStatement(H_POINT, Subtract(SumPoints(st.transfer, |st.transfer|), G_POINT)),
                          sumSecret)
    requires k < |counts| && Witnesses(IndexBranch(st, k), w)
    ensures OneHot(st, k) && InInterval(counts, st.index, k)
    ensures forall j: nat :: j < |counts| && InInterval(counts, st.index, j) ==> j == k
  {
    hide OpensSchnorr, Witnesses, IndexBranch, OrderExceedsRanges, Subtract;
    BranchSelects(st, counts, blindings, k, w);
    TransferSum(st, bits, transferBlindings, sumSecret);
    BitsTotal(bits, |bits|);
    forall i | 0 <= i < |st.transfer| ensures st.transfer[i].g == if i == k then 1 else 0 {
      assert st.transfer[i].g == bits[i] && bits[k] == 1;
    }
    forall j: nat | j < |counts| && InInterval(counts, st.index, j) ensures j == k {
      OneInterval(counts, st.index, j, k);
    }
  }

  // ---- proving and verifying ----

  datatype Hashes = Hashes(bit: (nat, Point, Announcements) -> int, sum: SchnorrHash, index: OrHash)

  function BitHashAt(h: Hashes, at: nat): BitHash {
    (target, announcements) => h.bit(at, target, announcements)
  }

  datatype Nonces = Nonces(bit: nat -> BitNonces, sum: int, index: OrNonces)

  function SumStatement(st: Statement): SchnorrStatement
    requires StatementOk(st)
  {
    SchnorrStatement(H_POINT, Subtract(SumPoints(st.transfer, |st.transfer|), G_POINT))
  }

  predicate BitsVerify(st: Statement, bits: seq<BitProof>, h: Hashes)
    requires StatementOk(st)
  {
    |bits| == |st.transfer| && forall i :: 0 <= i < |bits| ==> VerifyBit(st.transfer[i], bits[i], BitHashAt(h, i))
  }

  predicate Verifies(st: Statement, proof: Proof, h: Hashes) {
    && StatementOk(st) && BitsVerify(st, proof.bits, h)
    && VerifySchnorr(SumStatement(st), proof.sum, h.sum)
    && VerifyCdsOr(IndexBranches(st, |st.commitments|), proof.index, h.index)
  }

  method VerifyHiddenTransfer(st: Statement, proof: Proof, h: Hashes) returns (ok: bool)
    ensures ok <==> Verifies(st, proof, h)
  {
    hide VerifyBit, VerifySchnorr, VerifyCdsOr, SumStatement;
    if !StatementOk(st) || |proof.bits| != |st.transfer| {
      return false;
    }
    for at := 0 to |proof.bits|
      invariant forall i :: 0 <= i < at ==> VerifyBit(st.transfer[i], proof.bits[i], BitHashAt(h, i))
    {
      if !VerifyBit(st.transfer[at], proof.bits[at], BitHashAt(h, at)) {
        return false;
      }
    }
    var branches := IndexStatement(st);
    ok := VerifySchnorr(SumStatement(st), proof.sum, h.sum) && VerifyCdsOr(branches, proof.index, h.index);
  }

  /** Small counts with canonical blindings that make up the hand. */
  predicate WitnessShape(st: Statement, w: Witness) {
    && StatementOk(st) && |w.counts| == |w.blindings| == |w.transferBlindings| == |st.commitments|
    && (forall i :: 0 <= i < |w.counts| ==>
          0 <= w.counts[i] <= MAX_COUNT && Canonical(w.blindings[i]) && Canonical(w.transferBlindings[i]))
    && Total(w.counts, |w.counts|) == st.handSize
  }

  predicate HandOpens(st: Statement, w: Witness)
    requires WitnessShape(st, w)
  {
    forall i :: 0 <= i < |w.counts| ==> PedersenCommit(w.counts[i], w.blindings[i]) == st.commitments[i]
  }

  predicate TransferOneHot(st: Statement, w: Witness)
    requires WitnessShape(st, w)
  {
    forall i :: 0 <= i < |w.counts| ==>
      PedersenCommit(if InInterval(w.counts, st.index, i) then 1 else 0, w.transferBlindings[i]) == st.transfer[i]
  }

  /** The prover's input: an opened hand and a one-hot transfer at the selected kind. */
  predicate Provable(st: Statement, w: Witness) {
    WitnessShape(st, w) && HandOpens(st, w) && TransferOneHot(st, w)
  }

  lemma ProvableHand(st: Statement, w: Witness)
    requires OrderExceedsRanges() && Provable(st, w)
    ensures CommittedHand(st, w.counts, w.blindings)
    ensures forall i :: 0 <= i < |w.counts| ==>
      OpensBit(st.transfer[i], InInterval(w.counts, st.index, i), w.transferBlindings[i])
  {
    hide PedersenCommit, TwoTo;
    SmallCountsCanonical();
    forall i | 0 <= i < |w.counts|
      ensures st.commitments[i] == Point(w.counts[i], w.blindings[i])
      ensures OpensBit(st.transfer[i], InInterval(w.counts, st.index, i), w.transferBlindings[i])
    {
      PedersenIs(w.counts[i], w.blindings[i]);
      PedersenIs(if InInterval(w.counts, st.index, i) then 1 else 0, w.transferBlindings[i]);
    }
  }

  lemma SmallCountsCanonical()
    requires OrderExceedsRanges()
    ensures SCALAR_ORDER > MAX_COUNT
  {
    TwoToSmall();
  }

  lemma OneHotSums(st: Statement, w: Witness, k: nat)
    requires OrderExceedsRanges() && Provable(st, w) && k < |w.counts| && InInterval(w.counts, st.index, k)
    ensures OpensSchnorr(SumStatement(st), ModScalar(Total(w.transferBlindings, |w.transferBlindings|)))
  {
    hide ModScalar, PedersenCommit, OrderExceedsRanges;
    ProvableHand(st, w);
    var n := |w.counts|;
    var bits := seq(n, i requires 0 <= i < n => if i == k then 1 else 0);
    forall i | 0 <= i < n ensures st.transfer[i] == Point(bits[i], w.transferBlindings[i]) {
      if InInterval(w.counts, st.index, i) {
        OneInterval(w.counts, st.index, i, k);
      }
    }
    SumIsTotal(st.transfer, bits, w.transferBlindings, n);
    OneHotTotal(bits, k, n);
    var sum, secret := SumPoints(st.transfer, n), Total(w.transferBlindings, n);
    ModIsSame(secret);
    CanonicalSame(sum.h, ModScalar(secret));
    ZeroOneCanonical();
    CanonicalSame(sum.g, 1);
    Unshifted(sum, true, ModScalar(secret));
  }

  lemma {:induction false} OneHotTotal(bits: seq<int>, at: nat, k: nat)
    requires k <= |bits| && forall i :: 0 <= i < |bits| ==> bits[i] == if i == at then 1 else 0
    ensures Total(bits, k) == if at < k then 1 else 0
  {
    if k > 0 {
      OneHotTotal(bits, at, k - 1);
    }
  }

  lemma BranchesOk(st: Statement)
    requires StatementOk(st)
    ensures Shape(IndexBranches(st, |st.commitments|))
    ensures forall i :: 0 <= i < |st.commitments| ==> BranchOk(IndexBranches(st, |st.commitments|)[i])
  {
    hide Subtract, Add, Scale, SumPoints;
    ZeroOneCanonical();
  }

  lemma SelectedExists(st: Statement, counts: seq<int>) returns (k: nat)
    requires StatementOk(st) && (forall i :: 0 <= i < |counts| ==> counts[i] >= 0)
      && Total(counts, |counts|) == st.handSize
    ensures k < |counts| && InInterval(counts, st.index, k)
  {
    k := 0;
    while Total(counts, k + 1) <= st.index
      invariant k < |counts| && Total(counts, k) <= st.index
      decreases |counts| - k
    {
      k := k + 1;
    }
  }

  /** The loop that checks every opening and finds the kind whose interval holds the index. */
  method SelectKind(st: Statement, w: Witness) returns (r: Result<nat>)
    requires WitnessShape(st, w)
    ensures r.Ok? <==> HandOpens(st, w)
    ensures r.Ok? ==> r.value < |w.counts| && InInterval(w.counts, st.index, r.value)
  {
    hide PedersenCommit;
    var prefix, selected := 0, -1;
    for at := 0 to |w.counts|
      invariant prefix == Total(w.counts, at)
      invariant -1 <= selected < at
      invariant selected >= 0 ==> InInterval(w.counts, st.index, selected)
      invariant forall i :: 0 <= i < at ==> PedersenCommit(w.counts[i], w.blindings[i]) == st.commitments[i]
      invariant forall i :: 0 <= i < at && InInterval(w.counts, st.index, i) ==> selected >= 0
    {
      if PedersenCommit(w.counts[at], w.blindings[at]) != st.commitments[at] {
        return Err("opening");
      }
      if prefix <= st.index < prefix + w.counts[at] {
        selected := at;
      }
      prefix := prefix + w.counts[at];
    }
    ghost var chosen := SelectedExists(st, w.counts);
    return Ok(selected);
  }

  lemma SelectedOnly(counts: seq<int>, index: int, at: nat, selected: nat)
    requires at < |counts| && selected < |counts| && InInterval(counts, index, selected)
    requires forall i :: 0 <= i < |counts| ==> counts[i] >= 0
    ensures InInterval(counts, index, at) <==> at == selected
  {
    if InInterval(counts, index, at) {
      OneInterval(counts, index, at, selected);
    }
  }

  /** The loop that proves every transfer bit and sums the transfer blindings. */
  method ProveBits(st: Statement, w: Witness, selected: nat, n: nat -> BitNonces, h: Hashes)
    returns (r: Result<(seq<BitProof>, int)>)
    requires WitnessShape(st, w) && selected < |w.counts| && InInterval(w.counts, st.index, selected)
    requires forall i :: 0 <= i < MAX_TYPES ==> BitNoncesOk(n(i))
    ensures r.Ok? <==> TransferOneHot(st, w)
    ensures r.Ok? ==> BitsVerify(st, r.value.0, h)
    ensures r.Ok? ==> r.value.1 == ModScalar(Total(w.transferBlindings, |w.transferBlindings|))
  {
    hide ModScalar, PedersenCommit, VerifyBit, ProveBit, InInterval, BitNoncesOk, BitHashAt;
    var bits: seq<BitProof>, blindSum := [], 0;
    ZeroReduced();
    for at := 0 to |w.counts|
      invariant |bits| == at && blindSum == ModScalar(Total(w.transferBlindings, at))
      invariant forall i :: 0 <= i < at ==>
        PedersenCommit(if InInterval(w.counts, st.index, i) then 1 else 0, w.transferBlindings[i]) == st.transfer[i]
      invariant forall i :: 0 <= i < at ==> VerifyBit(st.transfer[i], bits[i], BitHashAt(h, i))
    {
      var bit := at == selected;
      SelectedOnly(w.counts, st.index, at, selected);
      if PedersenCommit(if bit then 1 else 0, w.transferBlindings[at]) != st.transfer[at] {
        return Err("one-hot");
      }
      var proof := ProveBit(st.transfer[at], bit, w.transferBlindings[at], n(at), BitHashAt(h, at));
      BitProves(st.transfer[at], bit, w.transferBlindings[at], n(at), BitHashAt(h, at));
      bits := bits + [proof.value];
      ReducedStep(Total(w.transferBlindings, at), w.transferBlindings[at]);
      blindSum := ModScalar(blindSum + w.transferBlindings[at]);
    }
    return Ok((bits, blindSum));
  }

  /** Every honest prover is accepted: an opened hand and a one-hot transfer at the selected kind. */
  method ProveHiddenTransfer(st: Statement, w: Witness, n: Nonces, h: Hashes) returns (r: Result<Proof>)
    requires OrderExceedsRanges() && NoncesOk(n.index) && forall i :: 0 <= i < MAX_TYPES ==> BitNoncesOk(n.bit(i))
    ensures r.Ok? <==> Provable(st, w)
    ensures r.Ok? ==> Verifies(st, r.value, h)
  {
    hide ModScalar, OrderExceedsRanges, VerifySchnorr, ProveSchnorr, VerifyCdsOr, ProveCdsOr, IndexBranches,
      BitsVerify, TransferOneHot, HandOpens,
      IndexBranch, SumStatement, OpensSchnorr, Witnesses, NoncesOk, BranchOk, SelectedWitness, InInterval, OpensBit;
    if !WitnessShape(st, w) {
      return Err("shape");
    }
    var selected := SelectKind(st, w);
    if selected.Err? {
      return Err(selected.code);
    }
    var at := selected.value;
    var bits := ProveBits(st, w, at, n.bit, h);
    if bits.Err? {
      return Err(bits.code);
    }
    OneHotSums(st, w, at);
    var sum := ProveSchnorr(SumStatement(st), bits.value.1, n.sum, h.sum);
    SumProves(st, bits.value.1, n.sum, h.sum);
    ProvableHand(st, w);
    SelectedBranchOpens(st, w.counts, w.blindings, at, w.transferBlindings[at]);
    var branches := IndexStatement(st);
    BranchesOk(st);
    var choice := SelectedWitness(st, w.counts, w.blindings, at, w.transferBlindings[at]);
    BranchAt(st, at);
    var index := ProveCdsOr(branches, at, choice, n.index, h.index);
    OrProves(branches, at, choice, n.index, h.index);
    return Ok(Proof(bits.value.0, sum.value, index.value));
  }

  lemma BitProves(target: Point, bit: bool, blinding: int, n: BitNonces, hash: BitHash)
    requires BitNoncesOk(n) && Canonical(blinding) && PedersenCommit(if bit then 1 else 0, blinding) == target
    ensures ProveBit(target, bit, blinding, n, hash).Ok?
      && VerifyBit(target, ProveBit(target, bit, blinding, n, hash).value, hash)
  {
    hide PedersenCommit, VerifyBit, BitResponse;
    BitComplete(target, bit, blinding, n, hash);
  }

  lemma SumProves(st: Statement, secret: int, nonce: int, hash: SchnorrHash)
    requires StatementOk(st) && OpensSchnorr(SumStatement(st), secret)
    ensures ProveSchnorr(SumStatement(st), secret, nonce, hash).Ok?
    ensures VerifySchnorr(SumStatement(st), ProveSchnorr(SumStatement(st), secret, nonce, hash).value, hash)
  {
    hide Subtract, SumPoints, VerifySchnorr, OpensSchnorr;
    ZeroOneCanonical();
    SchnorrComplete(SumStatement(st), secret, nonce, hash);
  }

  lemma BranchAt(st: Statement, k: nat)
    requires k < |st.commitments| == |st.transfer|
    ensures IndexBranches(st, |st.commitments|)[k] == IndexBranch(st, k)
  {
  }

  lemma OrProves(st: seq<BranchStatement>, known: nat, w: BranchWitness, n: OrNonces, hash: OrHash)
    requires OrderExceedsRanges() && NoncesOk(n) && Shape(st) && known < |st| && Witnesses(st[known], w)
    requires forall i :: 0 <= i < |st| ==> BranchOk(st[i])
    ensures ProveCdsOr(st, known, w, n, hash).Ok? && VerifyCdsOr(st, ProveCdsOr(st, known, w, n, hash).value, hash)
  {
    hide BranchOk, Witnesses, NoncesOk, VerifyCdsOr, OrderExceedsRanges, Simulated, OrFirsts;
    OrComplete(st, known, w, n, hash);
  }

  // ---- from transcripts to the card ----

  /** Two accepted proofs whose first messages agree and whose challenges differ in every component. */
  predicate Rewound(st: Statement, a: Proof, b: Proof, h: Hashes, other: Hashes) {
    && Verifies(st, a, h) && Verifies(st, b, other)
    && (forall i :: 0 <= i < |st.transfer| ==>
          var x, y := InspectBit(st.transfer[i], a.bits[i]).value, InspectBit(st.transfer[i], b.bits[i]).value;
          x.announcements == y.announcements && x.challenge != y.challenge)
    && a.sum.commitment == b.sum.commitment
    && ModScalar(h.sum(SumStatement(st), a.sum.commitment)) != ModScalar(other.sum(SumStatement(st), b.sum.commitment))
    && var branches := IndexBranches(st, |st.commitments|);
       && FirstMessages(branches, a.index) == FirstMessages(branches, b.index)
       && ModScalar(h.index(branches, FirstMessages(branches, a.index))) != ModScalar(other.index(branches,
           FirstMessages(branches, b.index)))
  }

  lemma TransferBitsExtract(st: Statement, a: seq<BitProof>, b: seq<BitProof>, h: Hashes, other: Hashes)
    returns (bits: seq<int>, blindings: seq<int>)
    requires StatementOk(st) && BitsVerify(st, a, h) && BitsVerify(st, b, other)
    requires forall i :: 0 <= i < |st.transfer| ==>
      var x, y := InspectBit(st.transfer[i], a[i]).value, InspectBit(st.transfer[i], b[i]).value;
      x.announcements == y.announcements && x.challenge != y.challenge
    ensures |bits| == |blindings| == |st.transfer|
    ensures forall i :: 0 <= i < |bits| ==>
      (bits[i] == 0 || bits[i] == 1) && st.transfer[i] == Point(bits[i], blindings[i])
  {
    hide InspectBit, ModScalar, BitHashAt;
    bits, blindings := [], [];
    for at := 0 to |st.transfer|
      invariant |bits| == |blindings| == at
      invariant forall i :: 0 <= i < at ==>
        (bits[i] == 0 || bits[i] == 1) && st.transfer[i] == Point(bits[i], blindings[i])
    {
      assert VerifyBit(st.transfer[at], a[at], BitHashAt(h, at))
        && VerifyBit(st.transfer[at], b[at], BitHashAt(other, at));
      var bit, blinding := BitExtracts(st.transfer[at], a[at], b[at]);
      bits, blindings := bits + [if bit then 1 else 0], blindings + [blinding];
    }
  }

  /** An accepted transfer that can be rewound moves exactly the card the index selects in the committed hand. */
  lemma RewoundTransferIsRight(st: Statement, counts: seq<int>, blindings: seq<int>, a: Proof, b: Proof, h: Hashes,
                               other: Hashes) returns (k: nat)
    requires OrderExceedsRanges() && CommittedHand(st, counts, blindings) && Rewound(st, a, b, h, other)
    ensures k < |counts| && OneHot(st, k) && InInterval(counts, st.index, k)
    ensures forall j: nat :: j < |counts| && InInterval(counts, st.index, j) ==> j == k
  {
    hide InspectBit, ModScalar, OrderExceedsRanges, IndexBranch, IndexBranches, BranchHolds, Witnesses, InspectSchnorr,
      OpensSchnorr, SumStatement,
      Extracted, BitHashAt, Subtract;
    var bits, transferBlindings := TransferBitsExtract(st, a.bits, b.bits, h, other);
    var e, f := ModScalar(h.sum(SumStatement(st), a.sum.commitment)),
      ModScalar(other.sum(SumStatement(st), b.sum.commitment));
    SchnorrExtracts(SumStatement(st), a.sum, e, b.sum, f);
    SumStatementIs(st);
    var at, w := OrExtracts(IndexBranches(st, |st.commitments|), a.index, h.index, b.index, other.index);
    BranchAt(st, at);
    k := at;
    TransfersSelectedCard(st, counts, blindings, bits, transferBlindings,
                          Extracted(a.sum.response, b.sum.response, e, f), k, w);
  }

  lemma SumStatementIs(st: Statement)
    requires StatementOk(st)
    ensures SumStatement(st) == SchnorrStatement(H_POINT, Subtract(SumPoints(st.transfer, |st.transfer|), G_POINT))
  {
  }
}
