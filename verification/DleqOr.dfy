/** One of several equalities of logarithms holds (packages/crypto/src/dleq-or.ts). */
module DleqOr {
  import opened Results
  import opened Group
  import Sigma

  const MAX_BRANCHES := 64

  datatype Branch = Branch(base1: int, point1: int, base2: int, point2: int)

  datatype BranchProof = BranchProof(challenge: int, response: int)

  datatype Announcement = Announcement(first: int, second: int)

  type Hash = (seq<Branch>, seq<Announcement>) -> int

  predicate BranchOk(b: Branch) {
    && Canonical(b.base1) && b.base1 != 0 && Canonical(b.point1)
    && Canonical(b.base2) && b.base2 != 0 && Canonical(b.point2)
  }

  predicate StatementOk(st: seq<Branch>) {
    1 <= |st| <= MAX_BRANCHES && forall i :: 0 <= i < |st| ==> BranchOk(st[i])
  }

  /** The first message a challenge and a response imply. */
  function Announce(b: Branch, challenge: int, response: int): Announcement {
    Announcement(SubtractPoints(ScalePoint(b.base1, response), ScalePoint(b.point1, challenge)),
                 SubtractPoints(ScalePoint(b.base2, response), ScalePoint(b.point2, challenge)))
  }

  predicate Opens(b: Branch, secret: int) {
    Canonical(secret) && ScalePoint(b.base1, secret) == b.point1 && ScalePoint(b.base2, secret) == b.point2
  }

  function Announcements(st: seq<Branch>, proofs: seq<BranchProof>, k: nat): (r: seq<Announcement>)
    requires k <= |st| == |proofs|
    ensures |r| == k && forall i :: 0 <= i < k ==> r[i] == Announce(st[i], proofs[i].challenge, proofs[i].response)
  {
    seq(k, i requires 0 <= i < k => Announce(st[i], proofs[i].challenge, proofs[i].response))
  }

  /** The running sum of the challenges, reduced at every step. */
  function ChallengeSum(proofs: seq<BranchProof>): int {
    if proofs == [] then 0 else ModScalar(ChallengeSum(proofs[..|proofs| - 1]) + proofs[|proofs| - 1].challenge)
  }

  predicate Verifies(st: seq<Branch>, proofs: seq<BranchProof>, hash: Hash) {
    && StatementOk(st) && |proofs| == |st|
    && (forall i :: 0 <= i < |proofs| ==> Canonical(proofs[i].challenge) && Canonical(proofs[i].response))
    && ChallengeSum(proofs) == ModScalar(hash(st, Announcements(st, proofs, |st|)))
  }

  /** The loop sums the challenges and rebuilds every first message. */
  method VerifyDleqOr(st: seq<Branch>, proofs: seq<BranchProof>, hash: Hash) returns (ok: bool)
    ensures ok <==> Verifies(st, proofs, hash)
  {
    hide ModScalar, Announce;
    if !StatementOk(st) || |proofs| != |st| {
      return false;
    }
    var commitments: seq<Announcement>, sum := [], 0;
    for index := 0 to |st|
      invariant commitments == Announcements(st, proofs, index)
      invariant sum == ChallengeSum(proofs[..index])
      invariant forall i :: 0 <= i < index ==> Canonical(proofs[i].challenge) && Canonical(proofs[i].response)
    {
      var proof := proofs[index];
      if !Canonical(proof.challenge) || !Canonical(proof.response) {
        return false;
      }
      assert proofs[..index + 1][..index] == proofs[..index];
      sum := ModScalar(sum + proof.challenge);
      commitments := commitments + [Announce(st[index], proof.challenge, proof.response)];
    }
    assert proofs[..|proofs|] == proofs;
    ok := sum == ModScalar(hash(st, commitments));
  }

  // ---- proving ----

  /** The unreduced sum of the other branches' challenges. */
  function OtherSum(proofs: seq<BranchProof>, known: nat): int {
    if proofs == [] then 0
    else OtherSum(proofs[..|proofs| - 1], known) + (if |proofs| - 1 == known then 0 else proofs[|proofs| - 1].challenge)
  }

  lemma {:induction false} SumSplits(proofs: seq<BranchProof>, known: nat)
    ensures Same(ChallengeSum(proofs), OtherSum(proofs, known)
                 + if known < |proofs| then proofs[known].challenge else 0)
  {
    hide ModScalar;
    if proofs != [] {
      var front, last := proofs[..|proofs| - 1], proofs[|proofs| - 1];
      SumSplits(front, known);
      ModIsSame(ChallengeSum(front) + last.challenge);
      AddSame(ChallengeSum(front), OtherSum(front, known) + (if known < |front| then proofs[known].challenge else 0),
              last.challenge, last.challenge);
    }
  }

  lemma {:induction false} OtherSumIgnores(proofs: seq<BranchProof>, known: nat, own: BranchProof)
    requires known < |proofs|
    ensures OtherSum(proofs[known := own], known) == OtherSum(proofs, known)
  {
    var n := |proofs| - 1;
    if known < n {
      assert proofs[known := own][..n] == proofs[..n][known := own];
      OtherSumIgnores(proofs[..n], known, own);
    } else {
      assert proofs[known := own][..n] == proofs[..n];
    }
  }

  /** The known branch announces its nonce; answering it reproduces that announcement. */
  lemma OwnAnnouncement(b: Branch, secret: int, nonce: int, challenge: int)
    requires Opens(b, secret)
    ensures Announce(b, challenge, ModScalar(nonce + challenge * secret))
      == Announcement(ScalePoint(b.base1, nonce), ScalePoint(b.base2, nonce))
  {
    hide ModScalar;
    NonceRemains(b.base1, secret, nonce, challenge);
    NonceRemains(b.base2, secret, nonce, challenge);
  }

  lemma NonceRemains(base: int, secret: int, nonce: int, e: int)
    ensures SubtractPoints(ScalePoint(base, ModScalar(nonce + e * secret)), ScalePoint(ScalePoint(base, secret), e))
      == ScalePoint(base, nonce)
  {
    hide ModScalar;
    var a, b, c := ScalePoint(base, ModScalar(nonce + e * secret)), ScalePoint(base, nonce),
      ScalePoint(ScalePoint(base, secret), e);
    Sigma.ResponseAnswers(base, secret, nonce, e);
    AddSame(a, b + c, c, c);
    assert b + c - c == b;
    CanonicalSame(SubtractPoints(a, c), b);
  }

  lemma TotalMatches(total: int, others: int, sum: int, own: int)
    requires Canonical(total) && Canonical(sum) && own == ModScalar(total - others) && Same(sum, others + own)
    ensures sum == total
  {
    hide ModScalar;
    ModIsSame(total - others);
    AddSame(others, others, own, total - others);
    assert others + (total - others) == total;
    CanonicalSame(sum, total);
  }

  lemma SumIsCanonical(proofs: seq<BranchProof>)
    ensures Canonical(ChallengeSum(proofs))
  {
    OneIsCanonical();
  }

  /** A branch's first message while proving: the nonce's for the known one, else a simulated one. */
  function Prepared(b: Branch, own: bool, proof: BranchProof, nonce: int): Announcement {
    if own then Announcement(ScalePoint(b.base1, nonce), ScalePoint(b.base2, nonce)) else Announce(b, proof.challenge,
        proof.response)
  }

  /**
   * All branches are simulated first; the known place is then overwritten with the challenge that is
   * left and its answer. Every proof of a true branch is accepted.
   */
  method ProveDleqOr(st: seq<Branch>, known: nat, secret: int, nonce: int, challenge: nat -> int, response: nat -> int,
                     hash: Hash)
    returns (r: Result<seq<BranchProof>>)
    ensures r.Ok? <==> StatementOk(st) && known < |st| && Opens(st[known], secret)
    ensures r.Ok? ==> Verifies(st, r.value, hash)
  {
    hide ModScalar, Announce, Opens;
    if !StatementOk(st) || known >= |st| || !Opens(st[known], secret) {
      return Err("witness");
    }
    var proofs: seq<BranchProof>, commitments: seq<Announcement>, others := [], [], 0;
    for index := 0 to |st|
      invariant |proofs| == |commitments| == index
      invariant others == OtherSum(proofs, known)
      invariant forall i :: 0 <= i < index ==> Canonical(proofs[i].challenge) && Canonical(proofs[i].response)
      invariant forall i :: 0 <= i < index ==> commitments[i] == Prepared(st[i], i == known, proofs[i], nonce)
    {
      ghost var prior := proofs;
      if index == known {
        OneIsCanonical();
        proofs := proofs + [BranchProof(0, 0)];
        commitments := commitments
          + [Announcement(ScalePoint(st[index].base1, nonce), ScalePoint(st[index].base2, nonce))];
      } else {
        var e, z := ModScalar(challenge(index)), ModScalar(response(index));
        proofs := proofs + [BranchProof(e, z)];
        commitments := commitments + [Announce(st[index], e, z)];
        others := others + e;
      }
      assert proofs[..index] == prior;
    }
    var total := ModScalar(hash(st, commitments));
    var own := ModScalar(total - others);
    var answer := ModScalar(nonce + own * secret);
    OtherSumIgnores(proofs, known, BranchProof(own, answer));
    OwnAnnouncement(st[known], secret, nonce, own);
    proofs := proofs[known := BranchProof(own, answer)];
    assert Announcements(st, proofs, |st|) == commitments;
    SumSplits(proofs, known);
    SumIsCanonical(proofs);
    TotalMatches(total, others, ChallengeSum(proofs), own);
    return Ok(proofs);
  }

  // ---- soundness ----

  lemma SequencesDiffer(a: seq<BranchProof>, b: seq<BranchProof>)
    requires |a| == |b| && ChallengeSum(a) != ChallengeSum(b)
    ensures exists i :: 0 <= i < |a| && a[i].challenge != b[i].challenge
  {
    SumByChallenges(a, b);
  }

  lemma {:induction false} SumByChallenges(a: seq<BranchProof>, b: seq<BranchProof>)
    requires |a| == |b|
    ensures (forall i :: 0 <= i < |a| ==> a[i].challenge == b[i].challenge) ==> ChallengeSum(a) == ChallengeSum(b)
  {
    if a != [] {
      SumByChallenges(a[..|a| - 1], b[..|b| - 1]);
    }
  }

  /** Two accepted proofs with equal first messages and different totals reveal the secret of some branch. */
  lemma OrExtracts(st: seq<Branch>, a: seq<BranchProof>, hash: Hash, b: seq<BranchProof>, other: Hash)
    returns (k: nat, secret: int)
    requires Verifies(st, a, hash) && Verifies(st, b, other)
    requires Announcements(st, a, |st|) == Announcements(st, b, |st|)
    requires ModScalar(hash(st, Announcements(st, a, |st|))) != ModScalar(other(st, Announcements(st, b, |st|)))
    ensures k < |st| && Opens(st[k], secret)
  {
    hide ModScalar, Sigma.Extracted;
    SequencesDiffer(a, b);
    k :| 0 <= k < |st| && a[k].challenge != b[k].challenge;
    var e, z, f, w := a[k].challenge, a[k].response, b[k].challenge, b[k].response;
    Sigma.CanonicalDiffer(e, f);
    secret := Sigma.Extracted(z, w, e, f);
    var first := Announcements(st, a, |st|)[k];
    assert Announcements(st, b, |st|)[k] == first;
    Sigma.SimulatedAnswers(st[k].base1, st[k].point1, e, z);
    Sigma.SimulatedAnswers(st[k].base1, st[k].point1, f, w);
    Sigma.SimulatedAnswers(st[k].base2, st[k].point2, e, z);
    Sigma.SimulatedAnswers(st[k].base2, st[k].point2, f, w);
    Sigma.TwoAnswers(st[k].base1, st[k].point1, first.first, z, e, w, f);
    Sigma.TwoAnswers(st[k].base2, st[k].point2, first.second, z, e, w, f);
  }
}
