/** Two quorums of precommits at one height name one value, whatever rounds they belong to. */
module Agreement {
  import opened Results
  import opened Votes
  import opened Proposals
  import opened ConsensusRestore
  import opened LockRule

  predicate Lawful(seat: Seat, ctx: Context, faulty: set<Seat>) {
    seat in ctx.voters && seat !in faulty
  }

  /** Lawful voters sign one vote per round and phase. */
  ghost predicate SignOnce(seen: iset<Vote>, ctx: Context, height: nat, faulty: set<Seat>) {
    forall v, w | v in seen && w in seen && Lawful(v.seat, ctx, faulty) && v.height == height && w.height == height
      :: SameBallotPlace(v, w) ==> v == w
  }

  /** They precommit only values with a prevote quorum. */
  ghost predicate CommitsSupported(seen: iset<Vote>, ctx: Context, height: nat, faulty: set<Seat>)
    requires OrderedSeats(ctx.voters)
  {
    forall c :: c in seen && Lawful(c.seat, ctx, faulty) && c.height == height && IsOwnCommit(c, c.seat) ==>
      Supported(seen, ctx, PrevoteFor(height, c.term, c.value.value))
  }

  /** They prevote only values their earlier precommits justify. */
  ghost predicate PrevotesJustified(seen: iset<Vote>, ctx: Context, height: nat, faulty: set<Seat>)
    requires OrderedSeats(ctx.voters)
  {
    forall v, c | v in seen && c in seen && v.seat == c.seat && Lawful(c.seat, ctx, faulty) && v.height == height
      && c.height == height
      :: IsOwnPrevote(v, v.seat) && IsOwnCommit(c, c.seat) && c.term < v.term ==>
           Justified(seen, ctx, height, c.term, c.value.value, v.term, v.value.value)
  }

  ghost predicate LawfulHistory(seen: iset<Vote>, ctx: Context, height: nat, faulty: set<Seat>)
    requires OrderedSeats(ctx.voters)
  {
    && |faulty| <= Tolerated(|ctx.voters|)
    && SignOnce(seen, ctx, height, faulty)
    && CommitsSupported(seen, ctx, height, faulty)
    && PrevotesJustified(seen, ctx, height, faulty)
  }

  function PrecommitFor(height: nat, round: nat, hash: Hash): Ballot {
    Ballot(height, round, Precommit, Some(hash))
  }

  /** Two supported ballots have a lawful voter in common. */
  lemma CommonVoter(seen: iset<Vote>, ctx: Context, faulty: set<Seat>, a: Ballot, b: Ballot) returns (s: Seat)
    requires OrderedSeats(ctx.voters) && |faulty| <= Tolerated(|ctx.voters|)
    requires Supported(seen, ctx, a) && Supported(seen, ctx, b)
    ensures Lawful(s, ctx, faulty)
    ensures Vote(s, a.height, a.term, a.phase, a.value) in seen && Vote(s, b.height, b.term, b.phase, b.value) in seen
  {
    s := QuorumsMeet(ctx.voters, Supporters(seen, ctx, a), Supporters(seen, ctx, b), faulty);
  }

  lemma OnePrevoteQuorum(seen: iset<Vote>, ctx: Context, height: nat, faulty: set<Seat>, round: nat, left: Hash,
                         right: Hash)
    requires OrderedSeats(ctx.voters) && LawfulHistory(seen, ctx, height, faulty)
    requires Supported(seen, ctx, PrevoteFor(height, round, left))
      && Supported(seen, ctx, PrevoteFor(height, round, right))
    ensures left == right
  {
    var s := CommonVoter(seen, ctx, faulty, PrevoteFor(height, round, left), PrevoteFor(height, round, right));
  }

  /** After a precommit quorum, every prevote quorum of that or a later round names its value. */
  lemma {:induction false} QuorumBindsLaterRounds(seen: iset<Vote>, ctx: Context, height: nat, faulty: set<Seat>,
                                                  from: nat, hash: Hash, round: nat, value: Hash)
    requires OrderedSeats(ctx.voters) && LawfulHistory(seen, ctx, height, faulty) && from <= round
    requires Supported(seen, ctx, PrecommitFor(height, from, hash))
      && Supported(seen, ctx, PrevoteFor(height, round, value))
    ensures value == hash
    decreases round
  {
    hide Supported;
    var s := CommonVoter(seen, ctx, faulty, PrecommitFor(height, from, hash), PrevoteFor(height, round, value));
    var commit, prevote := Vote(s, height, from, Precommit, Some(hash)), Vote(s, height, round, Prevote, Some(value));
    if round == from {
      OnePrevoteQuorum(seen, ctx, height, faulty, from, hash, value);
    } else {
      assert Justified(seen, ctx, height, from, hash, round, value);
      var lockRound: nat, lockHash: Hash :|
        && LockedAt(seen, ctx, height, from, hash, round, lockRound, lockHash)
        && (lockHash == value
            || exists later: nat ::
                 lockRound <= later < round && Supported(seen, ctx, PrevoteFor(height, later, value)));
      QuorumBindsLaterRounds(seen, ctx, height, faulty, from, hash, lockRound, lockHash);
      if lockHash != value {
        var later: nat :| lockRound <= later < round && Supported(seen, ctx, PrevoteFor(height, later, value));
        QuorumBindsLaterRounds(seen, ctx, height, faulty, from, hash, later, value);
      }
    }
  }

  /** Agreement: no two precommit quorums of one height disagree. */
  lemma PrecommitQuorumsAgree(seen: iset<Vote>, ctx: Context, height: nat, faulty: set<Seat>,
                              round: nat, hash: Hash, other: nat, value: Hash)
    requires OrderedSeats(ctx.voters) && LawfulHistory(seen, ctx, height, faulty)
    requires Supported(seen, ctx, PrecommitFor(height, round, hash))
      && Supported(seen, ctx, PrecommitFor(height, other, value))
    ensures hash == value
  {
    hide Supported;
    if round <= other {
      var s := CommonVoter(seen, ctx, faulty, PrecommitFor(height, other, value), PrecommitFor(height, other, value));
      QuorumBindsLaterRounds(seen, ctx, height, faulty, round, hash, other, value);
    } else {
      PrecommitQuorumsAgree(seen, ctx, height, faulty, other, value, round, hash);
    }
  }
}
