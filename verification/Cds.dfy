/** One of several branches holds: an opening with its ranges (packages/crypto/src/cds.ts). */
module Cds {
  import opened Results
  import opened Group
  import opened Sigma
  import opened Range

  const MAX_BRANCHES := 8
  const MAX_RANGES := 2

  datatype BranchStatement = BranchStatement(opening: SchnorrStatement, ranges: seq<RangeStatement>)

  datatype BranchProof = BranchProof(challenge: int, opening: SchnorrProof, ranges: seq<RangeProof>)

  datatype RangeFirst = RangeFirst(commitments: seq<Point>, announcements: seq<Announcements>)

  datatype FirstMessage = FirstMessage(opening: Point, ranges: seq<RangeFirst>)

  datatype Opening = Opening(value: int, blinding: int)

  datatype BranchWitness = BranchWitness(secret: int, ranges: seq<Opening>)

  type OrHash = (seq<BranchStatement>, seq<FirstMessage>) -> int

  predicate Shape(st: seq<BranchStatement>) {
    && 1 <= |st| <= MAX_BRANCHES
    && forall i :: 0 <= i < |st| ==> |st[i].ranges| <= MAX_RANGES
  }

  predicate BranchOk(b: BranchStatement) {
    SchnorrStatementOk(b.opening) && forall i :: 0 <= i < |b.ranges| ==> RangeStatementOk(b.ranges[i])
  }

  // ---- one branch ----

  /** Opening and ranges answer the branch challenge. */
  predicate BranchHolds(st: BranchStatement, proof: BranchProof) {
    && InspectSchnorr(st.opening, proof.opening, proof.challenge)
    && |proof.ranges| == |st.ranges|
    && forall i :: 0 <= i < |st.ranges| ==>
      InspectRange(st.ranges[i], proof.ranges[i]).Ok?
        && InspectRange(st.ranges[i], proof.ranges[i]).value.challenge == proof.challenge
  }

  function RangeFirstOf(st: RangeStatement, proof: RangeProof): RangeFirst
    requires InspectRange(st, proof).Ok?
  {
    RangeFirst(InspectRange(st, proof).value.commitments, InspectRange(st, proof).value.announcements)
  }

  function BranchFirst(st: BranchStatement, proof: BranchProof): (r: FirstMessage)
    requires BranchHolds(st, proof)
    ensures r.opening == proof.opening.commitment && |r.ranges| == |st.ranges|
    ensures forall i :: 0 <= i < |st.ranges| ==> r.ranges[i] == RangeFirstOf(st.ranges[i], proof.ranges[i])
  {
    FirstMessage(proof.opening.commitment,
                 seq(|st.ranges|, i requires 0 <= i < |st.ranges| => RangeFirstOf(st.ranges[i], proof.ranges[i])))
  }

  /** A witness of one branch: the opening's secret and a value in range for every range. */
  predicate Witnesses(st: BranchStatement, w: BranchWitness) {
    && OpensSchnorr(st.opening, w.secret)
    && |w.ranges| == |st.ranges|
    && forall i :: 0 <= i < |st.ranges| ==> ValidOpening(st.ranges[i], w.ranges[i].value, w.ranges[i].blinding)
  }

  // ---- all branches ----

  /** The running sum of branch challenges, reduced at every step. */
  function ChallengeSum(challenges: seq<int>): int {
    if challenges == [] then 0 else ModScalar(ChallengeSum(challenges[..|challenges| - 1])
                                              + challenges[|challenges| - 1])
  }

  function Challenges(proofs: seq<BranchProof>): (r: seq<int>)
    ensures |r| == |proofs| && forall i :: 0 <= i < |r| ==> r[i] == proofs[i].challenge
  {
    seq(|proofs|, i requires 0 <= i < |proofs| => proofs[i].challenge)
  }

  predicate AllHold(st: seq<BranchStatement>, proofs: seq<BranchProof>) {
    |proofs| == |st| && forall i :: 0 <= i < |st| ==> BranchHolds(st[i], proofs[i])
  }

  function FirstMessages(st: seq<BranchStatement>, proofs: seq<BranchProof>): (r: seq<FirstMessage>)
    requires AllHold(st, proofs)
    ensures |r| == |st| && forall i :: 0 <= i < |r| ==> r[i] == BranchFirst(st[i], proofs[i])
  {
    seq(|st|, i requires 0 <= i < |st| => BranchFirst(st[i], proofs[i]))
  }

  predicate VerifyCdsOr(st: seq<BranchStatement>, proofs: seq<BranchProof>, hash: OrHash) {
    && Shape(st) && AllHold(st, proofs)
    && ChallengeSum(Challenges(proofs)) == ModScalar(hash(st, FirstMessages(st, proofs)))
  }

  // ---- proving ----

  /** The derived secrets of a proof: of each simulated branch, and of the known one. */
  datatype OrNonces = OrNonces(challenge: nat -> int, response: nat -> int, fake: (nat, nat) -> FakeNonces, nonce: int,
                               range: nat -> RangeNonces)

  function SimulateBranch(st: BranchStatement, index: nat, n: OrNonces): BranchProof
    requires BranchOk(st) && OrderExceedsRanges()
  {
    var challenge := ModScalar(n.challenge(index));
    BranchProof(challenge, SimulateSchnorr(st.opening, challenge, ModScalar(n.response(index))),
                seq(|st.ranges|, at requires 0 <= at < |st.ranges| =>
                    SimulateRange(st.ranges[at], challenge, n.fake(index, at))))
  }

  function RespondBranch(st: BranchStatement, w: BranchWitness, n: OrNonces, challenge: int): BranchProof
    requires Witnesses(st, w) && OrderExceedsRanges()
  {
    BranchProof(challenge, SchnorrProof(Scale(st.opening.base, n.nonce), SchnorrResponse(w.secret, n.nonce, challenge)),
                seq(|st.ranges|, at requires 0 <= at < |st.ranges| =>
                  RespondRange(PrepareRange(st.ranges[at], w.ranges[at].value, w.ranges[at].blinding,
                                            n.range(at)).value, challenge)))
  }

  /** The first message of the known branch, before any challenge. */
  function PreparedFirst(st: BranchStatement, w: BranchWitness, n: OrNonces): FirstMessage
    requires Witnesses(st, w) && OrderExceedsRanges()
  {
    FirstMessage(Scale(st.opening.base, n.nonce),
                 seq(|st.ranges|, at requires 0 <= at < |st.ranges| =>
                   var p := PrepareRange(st.ranges[at], w.ranges[at].value, w.ranges[at].blinding, n.range(at)).value;
                   RangeFirst(FirstCommitments(p), FirstAnnouncements(p))))
  }

  predicate NoncesOk(n: OrNonces) {
    forall at: nat :: at < MAX_RANGES ==> RangeNoncesOk(n.range(at).bit)
  }

  /** Every branch but the known one, simulated; the known place is a branch with challenge zero. */
  function Simulated(st: seq<BranchStatement>, known: nat, w: BranchWitness, n: OrNonces,
                     challenge: int): (r: seq<BranchProof>)
    requires known < |st| && (forall i :: 0 <= i < |st| ==> BranchOk(st[i])) && Witnesses(st[known], w)
      && OrderExceedsRanges()
    ensures |r| == |st| && forall i :: 0 <= i < |st| ==>
      r[i] == if i == known then RespondBranch(st[i], w, n, challenge) else SimulateBranch(st[i], i, n)
  {
    seq(|st|, i requires 0 <= i < |st| =>
        if i == known then RespondBranch(st[i], w, n, challenge) else SimulateBranch(st[i], i, n))
  }

  function OrFirsts(st: seq<BranchStatement>, known: nat, w: BranchWitness, n: OrNonces): (r: seq<FirstMessage>)
    requires known < |st| && (forall i :: 0 <= i < |st| ==> BranchOk(st[i])) && Witnesses(st[known], w)
      && OrderExceedsRanges()
    requires forall i :: 0 <= i < |st| ==> i == known || BranchHolds(st[i], SimulateBranch(st[i], i, n))
    ensures |r| == |st| && forall i :: 0 <= i < |st| ==>
      r[i] == if i == known then PreparedFirst(st[i], w, n) else BranchFirst(st[i], SimulateBranch(st[i], i, n))
  {
    seq(|st|, i requires 0 <= i < |st| =>
        if i == known then PreparedFirst(st[i], w, n) else BranchFirst(st[i], SimulateBranch(st[i], i, n)))
  }

  function SimulatedChallenges(st: seq<BranchStatement>, known: nat, n: OrNonces): (r: seq<int>)
    ensures |r| == |st| && forall i :: 0 <= i < |st| ==> r[i] == if i == known then 0 else ModScalar(n.challenge(i))
  {
    seq(|st|, i requires 0 <= i < |st| => if i == known then 0 else ModScalar(n.challenge(i)))
  }

  lemma SimulatedBranchHolds(st: BranchStatement, index: nat, n: OrNonces)
    requires BranchOk(st) && OrderExceedsRanges()
    ensures BranchHolds(st, SimulateBranch(st, index, n))
  {
    hide InspectRange, InspectSchnorr, SimulateRange, SimulateSchnorr, ModScalar, OrderExceedsRanges;
    var challenge := ModScalar(n.challenge(index));
    SchnorrSimulates(st.opening, challenge, ModScalar(n.response(index)));
    forall at | 0 <= at < |st.ranges|
      ensures InspectRange(st.ranges[at], SimulateRange(st.ranges[at], challenge, n.fake(index, at))).Ok?
      ensures InspectRange(st.ranges[at], SimulateRange(st.ranges[at], challenge, n.fake(index, at))).value.challenge
        == challenge
    {
      RangeSimulates(st.ranges[at], challenge, n.fake(index, at));
    }
  }

  lemma KnownBranchHolds(st: BranchStatement, w: BranchWitness, n: OrNonces, challenge: int)
    requires BranchOk(st) && Witnesses(st, w) && OrderExceedsRanges() && NoncesOk(n) && Canonical(challenge)
      && |st.ranges| <= MAX_RANGES
    ensures BranchHolds(st, RespondBranch(st, w, n, challenge))
    ensures BranchFirst(st, RespondBranch(st, w, n, challenge)) == PreparedFirst(st, w, n)
  {
    hide InspectRange, InspectSchnorr, RespondRange, FirstCommitments, FirstAnnouncements, Blindings, ModScalar, Scale,
      OrderExceedsRanges, RangeNoncesOk;
    SchnorrAnswers(st.opening, w.secret, n.nonce, challenge);
    forall at | 0 <= at < |st.ranges|
      ensures var p := PrepareRange(st.ranges[at], w.ranges[at].value, w.ranges[at].blinding, n.range(at)).value;
        InspectRange(st.ranges[at], RespondRange(p, challenge))
          == Ok(RangeInspection(challenge, FirstCommitments(p), FirstAnnouncements(p)))
    {
      RangeAnswers(st.ranges[at], w.ranges[at].value, w.ranges[at].blinding, n.range(at), challenge);
    }
  }

  function ProveCdsOr(st: seq<BranchStatement>, known: nat, w: BranchWitness, n: OrNonces,
                      hash: OrHash): Result<seq<BranchProof>>
    requires OrderExceedsRanges()
  {
    if !Shape(st) || known >= |st| || (exists i :: 0 <= i < |st| && !BranchOk(st[i]))
       || !Witnesses(st[known], w) then Err("witness")
    else
      assert forall i :: 0 <= i < |st| ==> BranchHolds(st[i], SimulateBranch(st[i], i, n)) by {
        forall i | 0 <= i < |st| ensures BranchHolds(st[i], SimulateBranch(st[i], i, n)) {
          SimulatedBranchHolds(st[i], i, n);
        }
      }
      var challenge := ModScalar(hash(st, OrFirsts(st, known, w, n)));
      var honest := ModScalar(challenge - ChallengeSum(SimulatedChallenges(st, known, n)));
      Ok(Simulated(st, known, w, n, honest))
  }

  /** Setting one zero challenge to `own` adds `own` to the sum. */
  lemma {:induction false} SumWithOwn(others: seq<int>, all: seq<int>, known: nat, own: int)
    requires |others| == |all| && known < |all| && others[known] == 0 && all[known] == own
    requires forall i :: 0 <= i < |all| ==> i == known || all[i] == others[i]
    ensures Same(ChallengeSum(all), ChallengeSum(others) + own)
    decreases |all|
  {
    hide ModScalar;
    var n := |all| - 1;
    var rest, last := ChallengeSum(others[..n]), all[n];
    ModIsSame(ChallengeSum(all[..n]) + last);
    ModIsSame(rest + others[n]);
    AddSame(ModScalar(rest + others[n]), rest + others[n], own, own);
    if known == n {
      assert all[..n] == others[..n];
    } else {
      SumWithOwn(others[..n], all[..n], known, own);
      AddSame(ChallengeSum(all[..n]), rest + own, last, last);
      assert rest + own + last == rest + last + own;
    }
  }

  lemma OwnCompletes(challenge: int, sum: int, total: int)
    requires Canonical(challenge) && Same(total, sum + ModScalar(challenge - sum))
    ensures Same(total, challenge)
  {
    hide ModScalar;
    ModIsSame(challenge - sum);
    AddSame(sum, sum, ModScalar(challenge - sum), challenge - sum);
    assert sum + (challenge - sum) == challenge;
  }

  /** Completeness: every proof from one known branch is accepted, whichever branch it is. */
  lemma OrComplete(st: seq<BranchStatement>, known: nat, w: BranchWitness, n: OrNonces, hash: OrHash)
    requires OrderExceedsRanges() && NoncesOk(n) && ProveCdsOr(st, known, w, n, hash).Ok?
    ensures VerifyCdsOr(st, ProveCdsOr(st, known, w, n, hash).value, hash)
  {
    hide BranchHolds, BranchFirst, SimulateBranch, RespondBranch, PreparedFirst, ModScalar, OrderExceedsRanges,
      ChallengeSum, BranchOk, Witnesses, NoncesOk;
    var proofs := ProveCdsOr(st, known, w, n, hash).value;
    forall i | 0 <= i < |st| ensures BranchHolds(st[i], SimulateBranch(st[i], i, n)) {
      SimulatedBranchHolds(st[i], i, n);
    }
    var firsts := OrFirsts(st, known, w, n);
    var challenge := ModScalar(hash(st, firsts));
    var others := SimulatedChallenges(st, known, n);
    var honest := ModScalar(challenge - ChallengeSum(others));
    KnownBranchHolds(st[known], w, n, honest);
    assert AllHold(st, proofs);
    assert FirstMessages(st, proofs) == firsts;
    BranchChallenges(st, known, w, n, honest);
    SumWithOwn(others, Challenges(proofs), known, honest);
    OwnCompletes(challenge, ChallengeSum(others), ChallengeSum(Challenges(proofs)));
    SumCanonical(Challenges(proofs));
    CanonicalSame(ChallengeSum(Challenges(proofs)), challenge);
  }

  lemma SumCanonical(challenges: seq<int>)
    ensures Canonical(ChallengeSum(challenges))
  {
    ZeroOneCanonical();
  }

  lemma BranchChallenges(st: seq<BranchStatement>, known: nat, w: BranchWitness, n: OrNonces, honest: int)
    requires known < |st| && (forall i :: 0 <= i < |st| ==> BranchOk(st[i])) && Witnesses(st[known], w)
      && OrderExceedsRanges()
    ensures var proofs := Simulated(st, known, w, n, honest);
      forall i :: 0 <= i < |st| ==> proofs[i].challenge == if i == known then honest else ModScalar(n.challenge(i))
  {
    hide ModScalar, SimulateSchnorr, SimulateRange, RespondRange, PrepareRange, Scale, OrderExceedsRanges;
  }

  // ---- soundness ----

  lemma DifferingPlace(xs: seq<int>, ys: seq<int>) returns (i: nat)
    requires |xs| == |ys| && xs != ys
    ensures i < |xs| && xs[i] != ys[i]
  {
    i :| 0 <= i < |xs| && xs[i] != ys[i];
  }

  lemma BranchExtracts(st: BranchStatement, a: BranchProof, b: BranchProof) returns (w: BranchWitness)
    requires OrderExceedsRanges() && BranchHolds(st, a) && BranchHolds(st, b) && a.challenge != b.challenge
    requires BranchFirst(st, a) == BranchFirst(st, b)
    ensures Witnesses(st, w)
  {
    hide InspectRange, InspectSchnorr, Extracted, ValidOpening, OpensSchnorr, OrderExceedsRanges;
    SchnorrExtracts(st.opening, a.opening, a.challenge, b.opening, b.challenge);
    var openings: seq<Opening> := [];
    for at := 0 to |st.ranges|
      invariant |openings| == at
      invariant forall i :: 0 <= i < at ==> ValidOpening(st.ranges[i], openings[i].value, openings[i].blinding)
    {
      assert BranchFirst(st, a).ranges[at] == BranchFirst(st, b).ranges[at];
      var value, blinding := RangeExtracts(st.ranges[at], a.ranges[at], b.ranges[at]);
      openings := openings + [Opening(value, blinding)];
    }
    w := BranchWitness(Extracted(a.opening.response, b.opening.response, a.challenge, b.challenge), openings);
  }

  /** Two accepted proofs with equal first messages and different totals fully open some single branch. */
  lemma OrExtracts(st: seq<BranchStatement>, a: seq<BranchProof>, hash: OrHash, b: seq<BranchProof>, other: OrHash)
    returns (k: nat, w: BranchWitness)
    requires OrderExceedsRanges() && VerifyCdsOr(st, a, hash) && VerifyCdsOr(st, b, other)
    requires FirstMessages(st, a) == FirstMessages(st, b)
    requires ModScalar(hash(st, FirstMessages(st, a))) != ModScalar(other(st, FirstMessages(st, b)))
    ensures k < |st| && Witnesses(st[k], w)
  {
    hide BranchHolds, BranchFirst, Witnesses, ModScalar, OrderExceedsRanges;
    k := DifferingPlace(Challenges(a), Challenges(b));
    assert FirstMessages(st, a)[k] == FirstMessages(st, b)[k];
    w := BranchExtracts(st[k], a[k], b[k]);
  }
}
