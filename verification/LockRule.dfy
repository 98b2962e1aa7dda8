/**
 * The lock rule as a property of one voter's signed history: which prevotes and precommits it may
 * have signed, given the votes that exist.
 */
module LockRule {
  import opened Results
  import opened Votes
  import opened Proposals
  import opened Consensus
  import opened ConsensusRestore

  /** All votes that exist: those known to be signed elsewhere and those in this record. */
  ghost function Seen(votes: seq<Vote>, known: iset<Vote>): iset<Vote> {
    known + iset v | v in votes
  }

  ghost function Supporters(seen: iset<Vote>, ctx: Context, ballot: Ballot): set<Seat> {
    set s | s in VoterSet(ctx.voters) && Vote(s, ballot.height, ballot.term, ballot.phase, ballot.value) in seen
  }

  /** A quorum of voters has signed this ballot. */
  ghost predicate Supported(seen: iset<Vote>, ctx: Context, ballot: Ballot)
    requires OrderedSeats(ctx.voters)
  {
    |Supporters(seen, ctx, ballot)| >= ctx.Quorum()
  }

  lemma SupportGrows(seen: iset<Vote>, more: iset<Vote>, ctx: Context, ballot: Ballot)
    requires OrderedSeats(ctx.voters) && seen <= more && Supported(seen, ctx, ballot)
    ensures Supported(more, ctx, ballot)
  {
    Subset(Supporters(seen, ctx, ballot), Supporters(more, ctx, ballot));
  }

  lemma CertificateSupports(votes: seq<Vote>, ctx: Context, ballot: Ballot, seen: iset<Vote>)
    requires OrderedSeats(ctx.voters) && ValidCertificate(votes, ctx.voters, ballot)
    requires forall v :: v in votes ==> v in seen
    ensures Supported(seen, ctx, ballot)
  {
    CertificateSigners(votes, ctx.voters, ballot);
    forall s | s in Signers(votes) ensures s in Supporters(seen, ctx, ballot) {
      var v :| v in votes && v.seat == s;
    }
    Subset(Signers(votes), Supporters(seen, ctx, ballot));
  }

  function PrevoteFor(height: nat, round: nat, hash: Hash): Ballot {
    Ballot(height, round, Prevote, Some(hash))
  }

  /**
   * A voter that precommitted `hash` in round `from` may prevote `value` in a later round only for
   * its lock, or for a value with a prevote quorum at least as recent as that lock.
   */
  ghost predicate Justified(seen: iset<Vote>, ctx: Context, height: nat, from: nat, hash: Hash, round: nat, value: Hash)
    requires OrderedSeats(ctx.voters)
  {
    exists lockRound: nat, lockHash: Hash ::
      && LockedAt(seen, ctx, height, from, hash, round, lockRound, lockHash)
      && (lockHash == value
          || exists justified: nat ::
               lockRound <= justified < round && Supported(seen, ctx, PrevoteFor(height, justified, value)))
  }

  ghost predicate LockedAt(seen: iset<Vote>, ctx: Context, height: nat, from: nat, hash: Hash, round: nat,
                           lockRound: nat, lockHash: Hash)
    requires OrderedSeats(ctx.voters)
  {
    && from <= lockRound < round
    && (lockRound == from ==> lockHash == hash)
    && Supported(seen, ctx, PrevoteFor(height, lockRound, lockHash))
  }

  /** Every own non-nil precommit had a prevote quorum, and the lock is at least as recent. */
  ghost predicate CommitRule(votes: seq<Vote>, locked: Option<QuorumValue>, seat: Seat, height: nat, ctx: Context,
                             known: iset<Vote>)
    requires OrderedSeats(ctx.voters)
  {
    forall v :: v in votes && IsOwnCommit(v, seat) ==>
      && locked.Some?
      && v.term <= locked.value.round
      && (v.term == locked.value.round ==> v.value.value == locked.value.hash)
      && Supported(Seen(votes, known), ctx, PrevoteFor(height, v.term, v.value.value))
  }

  predicate IsOwnPrevote(v: Vote, seat: Seat) {
    v.seat == seat && v.phase == Prevote && v.value.Some?
  }

  /** Every own non-nil prevote respects every earlier own precommit. */
  ghost predicate PrevoteRule(votes: seq<Vote>, seat: Seat, height: nat, ctx: Context, known: iset<Vote>)
    requires OrderedSeats(ctx.voters)
  {
    forall v, c :: v in votes && c in votes && IsOwnPrevote(v, seat) && IsOwnCommit(c, seat) && c.term < v.term ==>
      Justified(Seen(votes, known), ctx, height, c.term, c.value.value, v.term, v.value.value)
  }

  lemma JustifiedGrows(seen: iset<Vote>, more: iset<Vote>, ctx: Context, height: nat, from: nat, hash: Hash,
                       round: nat, value: Hash)
    requires OrderedSeats(ctx.voters) && seen <= more && Justified(seen, ctx, height, from, hash, round, value)
    ensures Justified(more, ctx, height, from, hash, round, value)
  {
    var lockRound: nat, lockHash: Hash :|
      && LockedAt(seen, ctx, height, from, hash, round, lockRound, lockHash)
      && (lockHash == value
          || exists justified: nat ::
               lockRound <= justified < round && Supported(seen, ctx, PrevoteFor(height, justified, value)));
    SupportGrows(seen, more, ctx, PrevoteFor(height, lockRound, lockHash));
    assert LockedAt(more, ctx, height, from, hash, round, lockRound, lockHash);
    if lockHash != value {
      var justified: nat :| lockRound <= justified < round
        && Supported(seen, ctx, PrevoteFor(height, justified, value));
      SupportGrows(seen, more, ctx, PrevoteFor(height, justified, value));
    }
  }

  /** The rules hold on when more votes come to exist. */
  lemma RulesGrow(votes: seq<Vote>, locked: Option<QuorumValue>, seat: Seat, height: nat, ctx: Context,
                  known: iset<Vote>, more: iset<Vote>)
    requires OrderedSeats(ctx.voters) && known <= more
    requires CommitRule(votes, locked, seat, height, ctx, known) && PrevoteRule(votes, seat, height, ctx, known)
    ensures CommitRule(votes, locked, seat, height, ctx, more) && PrevoteRule(votes, seat, height, ctx, more)
  {
    var seen, wide := Seen(votes, known), Seen(votes, more);
    assert seen <= wide;
    forall v | v in votes && IsOwnCommit(v, seat)
      ensures Supported(wide, ctx, PrevoteFor(height, v.term, v.value.value))
    {
      SupportGrows(seen, wide, ctx, PrevoteFor(height, v.term, v.value.value));
    }
    forall v, c | v in votes && c in votes && IsOwnPrevote(v, seat) && IsOwnCommit(c, seat) && c.term < v.term
      ensures Justified(wide, ctx, height, c.term, c.value.value, v.term, v.value.value)
    {
      JustifiedGrows(seen, wide, ctx, height, c.term, c.value.value, v.term, v.value.value);
    }
  }

  /** What a new vote of this voter must satisfy for the rules to go on holding. */
  ghost predicate MayPush(v: Vote, votes: seq<Vote>, locked: Option<QuorumValue>, seat: Seat, height: nat,
                          ctx: Context, known: iset<Vote>)
    requires OrderedSeats(ctx.voters)
  {
    && (IsOwnCommit(v, seat) ==>
          && locked.Some? && locked.value.round == v.term && locked.value.hash == v.value.value
          && Supported(Seen(votes, known), ctx, PrevoteFor(height, v.term, v.value.value))
          && forall p :: p in votes && IsOwnPrevote(p, seat) ==> p.term <= v.term)
    && (IsOwnPrevote(v, seat) ==>
          forall c :: c in votes && IsOwnCommit(c, seat) && c.term < v.term ==>
            Justified(Seen(votes, known), ctx, height, c.term, c.value.value, v.term, v.value.value))
  }

  lemma PushKeepsRules(v: Vote, votes: seq<Vote>, locked: Option<QuorumValue>, seat: Seat, height: nat, ctx: Context,
                       known: iset<Vote>)
    requires OrderedSeats(ctx.voters) && MayPush(v, votes, locked, seat, height, ctx, known)
    requires CommitRule(votes, locked, seat, height, ctx, known) && PrevoteRule(votes, seat, height, ctx, known)
    ensures CommitRule(votes + [v], locked, seat, height, ctx, known)
      && PrevoteRule(votes + [v], seat, height, ctx, known)
  {
    var more := votes + [v];
    var seen, wide := Seen(votes, known), Seen(more, known);
    assert seen <= wide;
    forall x | x in more && IsOwnCommit(x, seat)
      ensures Supported(wide, ctx, PrevoteFor(height, x.term, x.value.value))
    {
      SupportGrows(seen, wide, ctx, PrevoteFor(height, x.term, x.value.value));
    }
    forall p, c | p in more && c in more && IsOwnPrevote(p, seat) && IsOwnCommit(c, seat) && c.term < p.term
      ensures Justified(wide, ctx, height, c.term, c.value.value, p.term, p.value.value)
    {
      JustifiedGrows(seen, wide, ctx, height, c.term, c.value.value, p.term, p.value.value);
    }
  }

  /** A proposal the lock accepts respects every earlier own precommit. */
  lemma AcceptedIsJustified(s: State, ctx: Context, known: iset<Vote>, p: Proposal, c: Vote)
    requires OrderedSeats(ctx.voters) && ValidProposal(p, ctx) && LockAccepts(s, p)
    requires p.entry.height == s.height && p.entry.term == s.round
    requires forall v :: v in p.prevotes ==> v in Seen(s.votes, known)
    requires CommitRule(s.votes, s.locked, s.seat, s.height, ctx, known)
    requires s.locked.Some? ==>
      && s.locked.value.round < s.round
      && Supported(Seen(s.votes, known), ctx, PrevoteFor(s.height, s.locked.value.round, s.locked.value.hash))
    requires c in s.votes && IsOwnCommit(c, s.seat) && c.term < p.entry.term
    ensures Justified(Seen(s.votes, known), ctx, s.height, c.term, c.value.value, p.entry.term, p.entry.hash)
  {
    var seen, lock, hash := Seen(s.votes, known), s.locked.value, p.entry.hash;
    assert LockedAt(seen, ctx, s.height, c.term, c.value.value, p.entry.term, lock.round, lock.hash);
    if lock.hash != hash {
      var round := p.validRound.value;
      CertificateSupports(p.prevotes, ctx, PrevoteFor(s.height, round, hash), seen);
      assert lock.round <= round < p.entry.term && Supported(seen, ctx, PrevoteFor(s.height, round, hash));
    }
  }
}
