/** Votes, quorum sizes and sorted quorum certificates (packages/protocol/src/votes.ts). */
module Votes {
  import opened Results

  type Seat = nat

  /** The hash of the value being agreed on; it covers neither round nor proposer. */
  type Hash = nat

  datatype Phase = Prevote | Precommit

  /** A signed vote, identified by its signed body. */
  datatype Vote = Vote(seat: Seat, height: nat, term: nat, phase: Phase, value: Option<Hash>)

  /** What every vote of one certificate must agree on. */
  datatype Ballot = Ballot(height: nat, term: nat, phase: Phase, value: Option<Hash>)

  const MAX_VOTERS := 6

  predicate OrderedSeats(voters: seq<Seat>) {
    && 1 <= |voters| <= MAX_VOTERS
    && forall i, j :: 0 <= i < j < |voters| ==> voters[i] < voters[j]
  }

  function VoterSet(voters: seq<Seat>): set<Seat> {
    set s | s in voters
  }

  lemma {:induction false} VoterCount(voters: seq<Seat>)
    requires forall i, j :: 0 <= i < j < |voters| ==> voters[i] < voters[j]
    ensures |VoterSet(voters)| == |voters|
  {
    if voters != [] {
      var front, last := voters[..|voters| - 1], voters[|voters| - 1];
      VoterCount(front);
      assert voters == front + [last];
      assert VoterSet(voters) == VoterSet(front) + {last};
    }
  }

  function QuorumSize(voterCount: nat): (q: nat)
    requires 1 <= voterCount <= MAX_VOTERS
    ensures 1 <= q <= voterCount
  {
    if voterCount == 1 then 1 else (voterCount + 1) / 2 + 1
  }

  /** The number of faulty voters a height tolerates. */
  function Tolerated(voterCount: nat): nat {
    if voterCount == 1 then 0 else 1
  }

  /** Two quorums share more voters than may be faulty, so they share an honest one. */
  lemma QuorumsMeet(voters: seq<Seat>, left: set<Seat>, right: set<Seat>, faulty: set<Seat>) returns (s: Seat)
    requires OrderedSeats(voters) && |faulty| <= Tolerated(|voters|)
    requires left <= VoterSet(voters) && right <= VoterSet(voters)
    requires |left| >= QuorumSize(|voters|) && |right| >= QuorumSize(|voters|)
    ensures s in left && s in right && s !in faulty
  {
    VoterCount(voters);
    var union, both := left + right, left * right;
    assert |union| + |both| == |left| + |right|;
    Subset(union, VoterSet(voters));
    assert |both| > |faulty|;
    if both <= faulty {
      Subset(both, faulty);
      assert false;
    }
    s :| s in both && s !in faulty;
  }

  /** A quorum is as small as it can be for any two of them to share a voter beside the tolerated faulty ones. */
  lemma QuorumIsLeast(voterCount: nat, size: nat)
    requires 1 <= voterCount <= MAX_VOTERS
    ensures size >= QuorumSize(voterCount) <==> 2 * size > voterCount + Tolerated(voterCount)
  {
  }

  lemma {:induction false} Subset<T>(a: set<T>, b: set<T>)
    requires a <= b
    ensures |a| <= |b|
  {
    if a != {} {
      var x :| x in a;
      Subset(a - {x}, b - {x});
    }
  }

  /** A vote of this membership; its signature is checked on delivery. */
  predicate ValidVote(vote: Vote, voters: seq<Seat>) {
    vote.seat in voters && vote.height >= 1 && vote.term >= 1
  }

  predicate Matches(vote: Vote, target: Ballot) {
    vote == Vote(vote.seat, target.height, target.term, target.phase, target.value)
  }

  function Signers(votes: seq<Vote>): set<Seat> {
    set v | v in votes :: v.seat
  }

  predicate Rising(votes: seq<Vote>) {
    forall i, j :: 0 <= i < j < |votes| ==> votes[i].seat < votes[j].seat
  }

  /** Enough valid votes for exactly the target ballot, each seat once and in rising order. */
  predicate ValidCertificate(votes: seq<Vote>, voters: seq<Seat>, target: Ballot)
    requires OrderedSeats(voters)
  {
    && QuorumSize(|voters|) <= |votes| <= |voters|
    && Rising(votes)
    && (forall v :: v in votes ==> ValidVote(v, voters) && Matches(v, target))
  }

  /** The checking loop: seats must rise, and every vote must match the target. */
  method VerifyCertificate(votes: seq<Vote>, voters: seq<Seat>, target: Ballot) returns (r: Result<seq<Vote>>)
    requires OrderedSeats(voters)
    ensures r.Ok? <==> ValidCertificate(votes, voters, target)
    ensures r.Ok? ==> r.value == votes
  {
    if |votes| < QuorumSize(|voters|) || |votes| > |voters| {
      return Err("schema");
    }
    var certified: seq<Vote> := [];
    var priorSeat: int := -1;
    for i := 0 to |votes|
      invariant certified == votes[..i]
      invariant forall j :: 0 <= j < i ==> votes[j].seat <= priorSeat
      invariant forall j, k :: 0 <= j < k < i ==> votes[j].seat < votes[k].seat
      invariant forall j :: 0 <= j < i ==> ValidVote(votes[j], voters) && Matches(votes[j], target)
      invariant i == 0 ==> priorSeat == -1
      invariant i > 0 ==> priorSeat == votes[i - 1].seat
    {
      var vote := votes[i];
      if vote.seat <= priorSeat {
        assert i > 0 && votes[i - 1].seat >= votes[i].seat;
        return Err("vote-order");
      }
      priorSeat := vote.seat;
      if !ValidVote(vote, voters) {
        assert vote in votes;
        return Err("vote-seat");
      }
      if vote.height != target.height || vote.term != target.term || vote.phase != target.phase
         || vote.value != target.value {
        assert vote in votes;
        return Err("vote-conflict");
      }
      certified := certified + [vote];
    }
    return Ok(certified);
  }

  /** Votes of distinct seats have as many signers as there are votes. */
  lemma {:induction false} SignerCount(votes: seq<Vote>)
    requires forall i, j :: 0 <= i < j < |votes| ==> votes[i].seat != votes[j].seat
    ensures |Signers(votes)| == |votes|
  {
    if votes == [] {
      assert Signers(votes) == {};
    } else {
      var front, last := votes[..|votes| - 1], votes[|votes| - 1];
      SignerCount(front);
      assert votes == front + [last];
      assert Signers(votes) == Signers(front) + {last.seat};
    }
  }

  lemma CertificateSigners(votes: seq<Vote>, voters: seq<Seat>, target: Ballot)
    requires OrderedSeats(voters) && ValidCertificate(votes, voters, target)
    ensures Signers(votes) <= VoterSet(voters) && |Signers(votes)| == |votes| >= QuorumSize(|voters|)
  {
    SignerCount(votes);
  }

  // ---- sorting a vote set into a certificate ----

  function InsertVote(v: Vote, votes: seq<Vote>): (r: seq<Vote>)
    ensures |r| == |votes| + 1
    ensures forall x :: x in r <==> x == v || x in votes
  {
    if votes == [] || v.seat <= votes[0].seat then [v] + votes
    else [votes[0]] + InsertVote(v, votes[1..])
  }

  function SortBySeat(votes: seq<Vote>): (r: seq<Vote>)
    ensures |r| == |votes|
    ensures forall x :: x in r <==> x in votes
  {
    if votes == [] then [] else InsertVote(votes[0], SortBySeat(votes[1..]))
  }

  lemma {:induction false} InsertKeepsOrder(v: Vote, votes: seq<Vote>)
    requires Rising(votes)
    requires forall x :: x in votes ==> x.seat != v.seat
    ensures Rising(InsertVote(v, votes))
  {
    if votes == [] || v.seat <= votes[0].seat {
      assert forall j :: 0 <= j < |votes| ==> votes[j] in votes;
      assert votes != [] ==> votes[0] in votes;
    } else {
      InsertKeepsOrder(v, votes[1..]);
      var tail := InsertVote(v, votes[1..]);
      forall j | 0 <= j < |tail| ensures votes[0].seat < tail[j].seat {
        assert tail[j] in tail;
      }
    }
  }

  /** Distinct seats sort into a strictly rising list. */
  lemma {:induction false} SortRises(votes: seq<Vote>)
    requires forall i, j :: 0 <= i < j < |votes| ==> votes[i].seat != votes[j].seat
    ensures Rising(SortBySeat(votes))
  {
    if votes != [] {
      SortRises(votes[1..]);
      var tail := SortBySeat(votes[1..]);
      forall x | x in tail ensures x.seat != votes[0].seat {
        assert x in votes[1..];
        var k :| 0 <= k < |votes[1..]| && votes[1..][k] == x;
        assert votes[0].seat != votes[k + 1].seat;
      }
      InsertKeepsOrder(votes[0], tail);
    }
  }
}
