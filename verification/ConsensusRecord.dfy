/**
 * The record invariant: what every reducer keeps, whatever the admission policy and whatever
 * authenticated messages arrive. Only the exact match of lock and precommit is left to
 * `ConsensusLocks.dfy`, because admission can break it.
 */
module ConsensusRecord {
  import opened Results
  import opened Votes
  import opened Proposals
  import opened Consensus
  import opened ConsensusRestore
  import opened LockRule

  // ---- the invariant, part by part ----

  predicate VotesInv(votes: seq<Vote>, round: nat, height: nat, ctx: Context) {
    && (forall v :: v in votes ==> ValidVote(v, ctx.voters) && v.height == height && v.term <= round)
    && UniqueVotes(votes)
  }

  /** Every own vote inside a proof is in the record, and every other one was signed elsewhere. */
  ghost predicate Grounded(proof: seq<Vote>, votes: seq<Vote>, seat: Seat, height: nat, known: iset<Vote>) {
    forall v :: v in proof && v.height == height ==> if v.seat == seat then v in votes else v in known
  }

  ghost predicate ForeignKnown(votes: seq<Vote>, seat: Seat, known: iset<Vote>) {
    forall v :: v in votes && v.seat != seat ==> v in known
  }

  /** The lock rule over everything this voter signed; a round opens with an older lock. */
  ghost predicate LockInv(votes: seq<Vote>, locked: Option<QuorumValue>, step: Step, round: nat,
                          seat: Seat, height: nat, ctx: Context, known: iset<Vote>)
    requires OrderedSeats(ctx.voters)
  {
    && ForeignKnown(votes, seat, known)
    && CommitRule(votes, locked, seat, height, ctx, known)
    && PrevoteRule(votes, seat, height, ctx, known)
    && (step == AtPropose && locked.Some? ==> locked.value.round < round)
  }

  ghost predicate ProposalInv(p: Proposal, votes: seq<Vote>, round: nat, seat: Seat, height: nat, ctx: Context,
                              known: iset<Vote>)
    requires OrderedSeats(ctx.voters)
  {
    ValidProposal(p, ctx) && p.entry.term <= round && Grounded(p.prevotes, votes, seat, height, known)
  }

  ghost predicate FewPerRound(proposals: seq<Proposal>) {
    forall round: nat :: |ProposalsAt(proposals, round)| <= 2
  }

  predicate DistinctProposals(proposals: seq<Proposal>, seat: Seat) {
    forall i, j :: 0 <= i < j < |proposals| ==>
      proposals[i].entry.term != proposals[j].entry.term
      || (proposals[i].entry.hash != proposals[j].entry.hash
          && !(proposals[i].entry.sequencer == seat && proposals[j].entry.sequencer == seat))
  }

  ghost predicate ProposalsInv(proposals: seq<Proposal>, votes: seq<Vote>, round: nat, seat: Seat, height: nat,
                               ctx: Context, known: iset<Vote>)
    requires OrderedSeats(ctx.voters)
  {
    && (forall p :: p in proposals ==> ProposalInv(p, votes, round, seat, height, ctx, known))
    && FewPerRound(proposals)
    && DistinctProposals(proposals, seat)
  }

  ghost predicate HintInv(h: Hint, votes: seq<Vote>, round: nat, seat: Seat, height: nat, ctx: Context,
                          known: iset<Vote>)
    requires OrderedSeats(ctx.voters)
  {
    ValidHint(h, round, height, ctx) && h.seat != seat && Grounded(HintVotes(h), votes, seat, height, known)
  }

  predicate OneHintPerSeat(hints: seq<Hint>) {
    forall i, j :: 0 <= i < j < |hints| ==> hints[i].seat != hints[j].seat
  }

  ghost predicate HintsInv(hints: seq<Hint>, votes: seq<Vote>, round: nat, seat: Seat, height: nat, ctx: Context,
                           known: iset<Vote>)
    requires OrderedSeats(ctx.voters)
  {
    && (forall h :: h in hints ==> HintInv(h, votes, round, seat, height, ctx, known))
    && OneHintPerSeat(hints)
  }

  ghost predicate EvidenceInv(e: Equivocation, votes: seq<Vote>, seat: Seat, height: nat, ctx: Context,
                              known: iset<Vote>)
    requires OrderedSeats(ctx.voters)
  {
    ValidEquivocation(e, height, ctx) && Grounded(EquivocationVotes(e), votes, seat, height, known)
  }

  ghost predicate EvidencesInv(es: seq<Equivocation>, votes: seq<Vote>, seat: Seat, height: nat, ctx: Context,
                               known: iset<Vote>)
    requires OrderedSeats(ctx.voters)
  {
    forall e :: e in es ==> EvidenceInv(e, votes, seat, height, ctx, known)
  }

  predicate QuorumInv(q: Option<QuorumValue>, votes: seq<Vote>, round: nat, height: nat, ctx: Context)
    requires OrderedSeats(ctx.voters)
  {
    q.Some? ==>
      && ValidQuorumValue(q.value, round, height, ctx)
      && forall v :: v in q.value.prevotes ==> v in votes
  }

  predicate Covers(valid: Option<QuorumValue>, locked: Option<QuorumValue>) {
    locked.Some? ==>
      && valid.Some?
      && valid.value.round >= locked.value.round
      && (valid.value.round == locked.value.round ==> valid.value.hash == locked.value.hash)
  }

  /** A non-nil precommit is only signed for a recorded proposal of that round. */
  predicate CommitsProposed(votes: seq<Vote>, proposals: seq<Proposal>, seat: Seat) {
    forall v :: v in votes && IsOwnCommit(v, seat) ==>
      exists p :: p in proposals && p.entry.term == v.term && p.entry.hash == v.value.value
  }

  predicate OwnEntryRecorded(c: Option<CertifiedEntry>, proposals: seq<Proposal>, seat: Seat) {
    c.Some? && c.value.entry.sequencer == seat ==> exists p :: p in proposals && p.entry == c.value.entry
  }

  ghost predicate CertificatesInv(decision: Option<CertifiedEntry>, unapplied: Option<CertifiedEntry>,
                            halted: Option<HaltReason>, haltKind: Option<HaltKind>,
                            proposals: seq<Proposal>, votes: seq<Vote>, seat: Seat, height: nat, ctx: Context,
                              known: iset<Vote>)
    requires OrderedSeats(ctx.voters)
  {
    && (decision.Some? ==> ValidCertified(decision.value, ctx))
    && OwnEntryRecorded(decision, proposals, seat) && OwnEntryRecorded(unapplied, proposals, seat)
    && Grounded(CertificateVotes(decision), votes, seat, height, known)
    && Grounded(CertificateVotes(unapplied), votes, seat, height, known)
    && (halted.None? <==> haltKind.None?)
    && (if haltKind == Some(CertifiedValidation) then
          && decision.None? && unapplied.Some?
          && unapplied.value.entry.height == height && AuthenticCertified(unapplied.value, ctx)
        else unapplied.None?)
  }

  predicate StepInv(step: Step, votes: seq<Vote>, seat: Seat, round: nat) {
    && (VoteOf(votes, seat, round, Prevote).Some? <==> step != AtPropose)
    && (VoteOf(votes, seat, round, Precommit).Some? <==> step == AtPrecommit)
  }

  predicate InputInv(inputKnown: bool, timers: Timers, proposals: seq<Proposal>, hints: seq<Hint>) {
    && (timers.propose ==> inputKnown)
    && (!inputKnown ==> proposals == [] && forall h :: h in hints ==> !h.ProposalHint?)
  }

  predicate TimersInv(timers: Timers, votes: seq<Vote>, round: nat, ctx: Context)
    requires OrderedSeats(ctx.voters)
  {
    && (timers.prevote ==> |VotesAt(votes, round, Prevote)| >= ctx.Quorum())
    && (timers.precommit ==> |VotesAt(votes, round, Precommit)| >= ctx.Quorum())
  }

  predicate AccusationsInv(proven: Option<ProvenOffender>, pending: Option<Control>, height: nat, parentHash: Hash,
                           ctx: Context) {
    && (proven.Some? ==>
          && proven.value.atHeight <= height
          && (proven.value.atHeight == height ==> proven.value.parentHash == parentHash)
          && ObjectiveProofParent(proven.value.control, ctx) == Ok(proven.value.parentHash))
    && (pending.Some? ==> proven.Some? && proven.value.control == pending.value)
    // A retained accusation is dropped only once some accusation was committed, and exclusions stay.
    && (proven.Some? && pending.None? ==> ctx.excluded != [])
  }

  ghost predicate RecordInv(s: State, ctx: Context, known: iset<Vote>) {
    && ctx.WellFormed()
    && Bound(s, ctx, s.seat)
    && s.round >= 1
    && VotesInv(s.votes, s.round, s.height, ctx)
    && ProposalsInv(s.proposals, s.votes, s.round, s.seat, s.height, ctx, known)
    && HintsInv(s.hints, s.votes, s.round, s.seat, s.height, ctx, known)
    && EvidencesInv(s.equivocations, s.votes, s.seat, s.height, ctx, known)
    && QuorumInv(s.valid, s.votes, s.round, s.height, ctx)
    && QuorumInv(s.locked, s.votes, s.round, s.height, ctx)
    && Covers(s.valid, s.locked)
    && CertificatesInv(s.decision, s.unapplied, s.halted, s.haltKind, s.proposals, s.votes, s.seat, s.height, ctx,
                       known)
    && StepInv(s.step, s.votes, s.seat, s.round)
    && InputInv(s.inputKnown, s.timers, s.proposals, s.hints)
    && TimersInv(s.timers, s.votes, s.round, ctx)
    && AccusationsInv(s.provenOffender, s.pendingAccusation, s.height, s.parentHash, ctx)
    && LockInv(s.votes, s.locked, s.step, s.round, s.seat, s.height, ctx, known)
    && CommitsProposed(s.votes, s.proposals, s.seat)
  }

  // ---- what every transition only adds to ----

  predicate Sticky<T(==)>(before: Option<T>, after: Option<T>) {
    before.Some? ==> after == before
  }

  /** Signed votes and proposals are never dropped, and a decision never changes. */
  predicate Extends(s: State, t: State) {
    && s.seat == t.seat && s.height == t.height && s.binding == t.binding && s.parentHash == t.parentHash
    && s.votes <= t.votes && s.proposals <= t.proposals
    && s.round <= t.round
    && Sticky(s.decision, t.decision)
  }

  /** Whatever a transition broadcasts is already part of the record it returns. */
  predicate EffectsRecorded(effects: seq<Effect>, s: State) {
    forall e :: e in effects ==>
      && (e.BroadcastVote? ==> e.vote in s.votes && e.vote.seat == s.seat)
      && (e.BroadcastProposal? ==> e.proposal in s.proposals && e.proposal.entry.sequencer == s.seat)
  }

  ghost predicate Good(w: Work, ctx: Context, known: iset<Vote>) {
    OrderedSeats(ctx.voters) && RecordInv(w.state, ctx, known) && EffectsRecorded(w.effects, w.state)
  }

  lemma ExtendsTransitive(s: State, t: State, u: State)
    requires Extends(s, t) && Extends(t, u)
    ensures Extends(s, u)
  {
  }

  // ---- what the invariant gives back ----

  lemma RecordedVotes(s: State, ctx: Context, known: iset<Vote>)
    requires RecordInv(s, ctx, known)
    ensures OrderedSeats(ctx.voters) && VotesInv(s.votes, s.round, s.height, ctx)
      && StepInv(s.step, s.votes, s.seat, s.round)
  {
  }

  lemma RecordedProposal(s: State, ctx: Context, known: iset<Vote>, p: Proposal)
    requires RecordInv(s, ctx, known) && p in s.proposals
    ensures OrderedSeats(ctx.voters) && ProposalInv(p, s.votes, s.round, s.seat, s.height, ctx, known)
  {
  }

  lemma RecordedProposals(s: State, ctx: Context, known: iset<Vote>)
    requires RecordInv(s, ctx, known)
    ensures OrderedSeats(ctx.voters) && ProposalsInv(s.proposals, s.votes, s.round, s.seat, s.height, ctx, known)
    ensures !s.inputKnown ==> s.proposals == [] && forall h :: h in s.hints ==> !h.ProposalHint?
  {
  }

  lemma RecordedHint(s: State, ctx: Context, known: iset<Vote>, h: Hint)
    requires RecordInv(s, ctx, known) && h in s.hints
    ensures OrderedSeats(ctx.voters) && HintInv(h, s.votes, s.round, s.seat, s.height, ctx, known)
  {
  }

  lemma RecordedHints(s: State, ctx: Context, known: iset<Vote>)
    requires RecordInv(s, ctx, known)
    ensures OrderedSeats(ctx.voters) && HintsInv(s.hints, s.votes, s.round, s.seat, s.height, ctx, known)
  {
  }

  lemma RecordedBinding(s: State, ctx: Context, known: iset<Vote>)
    requires RecordInv(s, ctx, known)
    ensures ctx.WellFormed() && Bound(s, ctx, s.seat) && s.round >= 1
    ensures AccusationsInv(s.provenOffender, s.pendingAccusation, s.height, s.parentHash, ctx)
  {
  }

  lemma RecordedQuorums(s: State, ctx: Context, known: iset<Vote>)
    requires RecordInv(s, ctx, known)
    ensures OrderedSeats(ctx.voters) && Covers(s.valid, s.locked)
    ensures QuorumInv(s.valid, s.votes, s.round, s.height, ctx) && QuorumInv(s.locked, s.votes, s.round, s.height, ctx)
  {
  }

  lemma RecordedTimers(s: State, ctx: Context, known: iset<Vote>)
    requires RecordInv(s, ctx, known)
    ensures OrderedSeats(ctx.voters) && TimersInv(s.timers, s.votes, s.round, ctx)
      && (s.timers.propose ==> s.inputKnown)
  {
  }

  lemma RecordedCertificates(s: State, ctx: Context, known: iset<Vote>)
    requires RecordInv(s, ctx, known)
    ensures OrderedSeats(ctx.voters)
    ensures CertificatesInv(s.decision, s.unapplied, s.halted, s.haltKind, s.proposals, s.votes, s.seat, s.height, ctx,
                            known)
  {
  }

  lemma RecordedLocks(s: State, ctx: Context, known: iset<Vote>)
    requires RecordInv(s, ctx, known)
    ensures OrderedSeats(ctx.voters) && LockInv(s.votes, s.locked, s.step, s.round, s.seat, s.height, ctx, known)
    ensures CommitsProposed(s.votes, s.proposals, s.seat)
  {
  }

  /** The invariant holds on when more votes come to exist. */
  lemma MoreKnown(s: State, ctx: Context, known: iset<Vote>, more: iset<Vote>)
    requires RecordInv(s, ctx, known) && known <= more
    ensures RecordInv(s, ctx, more)
  {
    hide CommitRule, PrevoteRule;
    RulesGrow(s.votes, s.locked, s.seat, s.height, ctx, known, more);
    forall p | p in s.proposals ensures ProposalInv(p, s.votes, s.round, s.seat, s.height, ctx, more) {
      assert ProposalInv(p, s.votes, s.round, s.seat, s.height, ctx, known);
    }
    forall h | h in s.hints ensures HintInv(h, s.votes, s.round, s.seat, s.height, ctx, more) {
      assert HintInv(h, s.votes, s.round, s.seat, s.height, ctx, known);
    }
    forall e | e in s.equivocations ensures EvidenceInv(e, s.votes, s.seat, s.height, ctx, more) {
      assert EvidenceInv(e, s.votes, s.seat, s.height, ctx, known);
    }
  }

  // ---- votes and certificates ----

  lemma {:induction false} VotesAtDistinct(votes: seq<Vote>, round: nat, phase: Phase)
    requires UniqueVotes(votes)
    ensures var r := VotesAt(votes, round, phase); forall i, j :: 0 <= i < j < |r| ==> r[i].seat != r[j].seat
  {
    if votes != [] {
      var front, last := votes[..|votes| - 1], votes[|votes| - 1];
      VotesAtDistinct(front, round, phase);
      forall v | v in VotesAt(front, round, phase) && last.term == round && last.phase == phase
        ensures v.seat != last.seat
      {
        var k :| 0 <= k < |front| && front[k] == v;
        assert !SameBallotPlace(votes[k], votes[|votes| - 1]);
      }
    }
  }

  lemma {:induction false} SameValueDistinct(votes: seq<Vote>, value: Option<Hash>)
    requires forall i, j :: 0 <= i < j < |votes| ==> votes[i].seat != votes[j].seat
    ensures var r := WithValue(votes, value); forall i, j :: 0 <= i < j < |r| ==> r[i].seat != r[j].seat
  {
    if votes != [] {
      var front, last := votes[..|votes| - 1], votes[|votes| - 1];
      SameValueDistinct(front, value);
      forall v | v in front ensures v.seat != last.seat {
        var k :| 0 <= k < |front| && front[k] == v;
        assert votes[k].seat != votes[|votes| - 1].seat;
      }
      assert WithValue(votes, value) == WithValue(front, value) + (if last.value == value then [last] else []);
    }
  }

  lemma VotesForDistinct(votes: seq<Vote>, round: nat, phase: Phase, value: Option<Hash>)
    requires UniqueVotes(votes)
    ensures var r := VotesFor(votes, round, phase, value); forall i, j :: 0 <= i < j < |r| ==> r[i].seat != r[j].seat
  {
    VotesAtDistinct(votes, round, phase);
    SameValueDistinct(VotesAt(votes, round, phase), value);
  }

  /** A quorum read off the record is a valid certificate of recorded votes. */
  lemma QuorumForCertifies(s: State, ctx: Context, round: nat, phase: Phase, value: Option<Hash>)
    requires OrderedSeats(ctx.voters) && VotesInv(s.votes, s.round, s.height, ctx)
    requires QuorumFor(s, ctx, round, phase, value).Some?
    ensures ValidCertificate(QuorumFor(s, ctx, round, phase, value).value, ctx.voters,
                             Ballot(s.height, round, phase, value))
    ensures forall v :: v in QuorumFor(s, ctx, round, phase, value).value ==> v in s.votes
  {
    var votes := VotesFor(s.votes, round, phase, value);
    VotesForDistinct(s.votes, round, phase, value);
    SortRises(votes);
    var sorted := SortBySeat(votes);
    var cert := sorted[..ctx.Quorum()];
    forall v | v in cert
      ensures v in s.votes && ValidVote(v, ctx.voters) && Matches(v, Ballot(s.height, round, phase, value))
    {
      assert v in sorted && v in votes;
    }
  }

  /** Two recorded prevote certificates of one round name the same value. */
  lemma OneQuorumPerRound(votes: seq<Vote>, ctx: Context, a: seq<Vote>, b: seq<Vote>, left: Ballot, right: Ballot)
    requires OrderedSeats(ctx.voters) && UniqueVotes(votes)
    requires ValidCertificate(a, ctx.voters, left) && ValidCertificate(b, ctx.voters, right)
    requires left.term == right.term && left.phase == right.phase
    requires (forall v :: v in a ==> v in votes) && (forall v :: v in b ==> v in votes)
    ensures left.value == right.value
  {
    CertificateSigners(a, ctx.voters, left);
    CertificateSigners(b, ctx.voters, right);
    var seat := QuorumsMeet(ctx.voters, Signers(a), Signers(b), {});
    var x :| x in a && x.seat == seat;
    var y :| y in b && y.seat == seat;
    var i :| 0 <= i < |votes| && votes[i] == x;
    var j :| 0 <= j < |votes| && votes[j] == y;
    assert i == j;
  }

  // ---- one field at a time ----

  /** Everything but the vote list itself survives a longer vote list. */
  ghost predicate Rest(s: State, votes: seq<Vote>, ctx: Context, known: iset<Vote>)
    requires OrderedSeats(ctx.voters)
  {
    && ProposalsInv(s.proposals, votes, s.round, s.seat, s.height, ctx, known)
    && HintsInv(s.hints, votes, s.round, s.seat, s.height, ctx, known)
    && EvidencesInv(s.equivocations, votes, s.seat, s.height, ctx, known)
    && QuorumInv(s.valid, votes, s.round, s.height, ctx)
    && QuorumInv(s.locked, votes, s.round, s.height, ctx)
    && CertificatesInv(s.decision, s.unapplied, s.halted, s.haltKind, s.proposals, votes, s.seat, s.height, ctx, known)
    && TimersInv(s.timers, votes, s.round, ctx)
  }

  lemma VotesGrow(s: State, ctx: Context, known: iset<Vote>, votes: seq<Vote>)
    requires RecordInv(s, ctx, known) && s.votes <= votes
    ensures Rest(s, votes, ctx, known)
  {
    assert forall v :: v in s.votes ==> v in votes;
    forall p | p in s.proposals ensures ProposalInv(p, votes, s.round, s.seat, s.height, ctx, known) {
      assert ProposalInv(p, s.votes, s.round, s.seat, s.height, ctx, known);
    }
    forall h | h in s.hints ensures HintInv(h, votes, s.round, s.seat, s.height, ctx, known) {
      assert HintInv(h, s.votes, s.round, s.seat, s.height, ctx, known);
    }
    forall e | e in s.equivocations ensures EvidenceInv(e, votes, s.seat, s.height, ctx, known) {
      assert EvidenceInv(e, s.votes, s.seat, s.height, ctx, known);
    }
    VotesAtGrows(s.votes, votes, s.round, Prevote);
    VotesAtGrows(s.votes, votes, s.round, Precommit);
  }

  lemma {:induction false} VotesAtGrows(votes: seq<Vote>, more: seq<Vote>, round: nat, phase: Phase)
    requires votes <= more
    ensures VotesAt(votes, round, phase) <= VotesAt(more, round, phase)
  {
    if votes != more {
      VotesAtGrows(votes, more[..|more| - 1], round, phase);
    }
  }

  lemma PushUnique(votes: seq<Vote>, v: Vote)
    requires UniqueVotes(votes) && VoteOf(votes, v.seat, v.term, v.phase).None?
    ensures UniqueVotes(votes + [v])
  {
    forall i | 0 <= i < |votes| ensures !SameBallotPlace(votes[i], v) {
      assert votes[i] in votes;
    }
  }

  lemma VoteOfPush(votes: seq<Vote>, v: Vote, seat: Seat, round: nat, phase: Phase)
    ensures VoteOf(votes + [v], seat, round, phase).Some? <==>
            VoteOf(votes, seat, round, phase).Some? || (v.seat == seat && v.term == round && v.phase == phase)
  {
    assert v in votes + [v];
    assert forall x :: x in votes ==> x in votes + [v];
  }

  /** A longer vote list with its own conditions makes a longer record. */
  lemma GrownRecord(s: State, t: State, ctx: Context, known: iset<Vote>)
    requires RecordInv(s, ctx, known) && t == s.(votes := t.votes, step := t.step)
    requires Rest(s, t.votes, ctx, known) && VotesInv(t.votes, s.round, s.height, ctx)
    requires StepInv(t.step, t.votes, s.seat, s.round)
    requires LockInv(t.votes, s.locked, t.step, s.round, s.seat, s.height, ctx, known)
    requires CommitsProposed(t.votes, s.proposals, s.seat)
    ensures RecordInv(t, ctx, known)
  {
    hide CommitsProposed, VotesInv, StepInv, LockInv, ProposalsInv, HintsInv, EvidencesInv, QuorumInv, CertificatesInv,
      TimersInv, AccusationsInv, InputInv, Covers;
  }

  lemma PushKeepsLocks(s: State, ctx: Context, known: iset<Vote>, v: Vote, step: Step)
    requires RecordInv(s, ctx, known) && (v.seat != s.seat ==> v in known && step == s.step)
    requires v.seat == s.seat ==> step != AtPropose && MayPush(v, s.votes, s.locked, s.seat, s.height, ctx, known)
    ensures LockInv(s.votes + [v], s.locked, step, s.round, s.seat, s.height, ctx, known)
  {
    hide RecordInv, CommitRule, PrevoteRule, CommitsProposed;
    RecordedLocks(s, ctx, known);
    if v.seat == s.seat {
      hide MayPush;
      PushKeepsRules(v, s.votes, s.locked, s.seat, s.height, ctx, known);
    } else {
      PushKeepsRules(v, s.votes, s.locked, s.seat, s.height, ctx, known);
    }
  }

  lemma PushKeepsVotes(s: State, ctx: Context, known: iset<Vote>, v: Vote)
    requires RecordInv(s, ctx, known) && ValidVote(v, ctx.voters) && v.height == s.height && v.term <= s.round
    requires VoteOf(s.votes, v.seat, v.term, v.phase).None?
    ensures VotesInv(s.votes + [v], s.round, s.height, ctx)
  {
    hide RecordInv;
    RecordedVotes(s, ctx, known);
    PushUnique(s.votes, v);
  }

  lemma PushForeignVote(s: State, ctx: Context, known: iset<Vote>, v: Vote)
    requires RecordInv(s, ctx, known) && ValidVote(v, ctx.voters) && v.height == s.height && v.term <= s.round
    requires v.seat != s.seat && v in known && VoteOf(s.votes, v.seat, v.term, v.phase).None?
    ensures RecordInv(s.(votes := s.votes + [v]), ctx, known)
  {
    hide RecordInv, Rest, LockInv, VotesInv;
    RecordedVotes(s, ctx, known);
    RecordedLocks(s, ctx, known);
    PushKeepsLocks(s, ctx, known, v, s.step);
    PushKeepsVotes(s, ctx, known, v);
    VotesGrow(s, ctx, known, s.votes + [v]);
    VoteOfPush(s.votes, v, s.seat, s.round, Prevote);
    VoteOfPush(s.votes, v, s.seat, s.round, Precommit);
    GrownRecord(s, s.(votes := s.votes + [v]), ctx, known);
  }

  lemma PushOwnVote(s: State, ctx: Context, known: iset<Vote>, phase: Phase, value: Option<Hash>)
    requires RecordInv(s, ctx, known) && s.step == (if phase == Prevote then AtPropose else AtPrevote)
    requires MayPush(Vote(s.seat, s.height, s.round, phase, value), s.votes, s.locked, s.seat, s.height, ctx, known)
    requires phase == Precommit && value.Some? ==>
      exists p :: p in s.proposals && p.entry.term == s.round && p.entry.hash == value.value
    ensures var v := Vote(s.seat, s.height, s.round, phase, value);
            RecordInv(s.(votes := s.votes + [v], step := StepOf(phase)), ctx, known)
  {
    hide RecordInv, MayPush, Rest, LockInv, VotesInv;
    var v := Vote(s.seat, s.height, s.round, phase, value);
    RecordedVotes(s, ctx, known);
    RecordedLocks(s, ctx, known);
    RecordedBinding(s, ctx, known);
    PushKeepsLocks(s, ctx, known, v, StepOf(phase));
    PushKeepsVotes(s, ctx, known, v);
    VotesGrow(s, ctx, known, s.votes + [v]);
    VoteOfPush(s.votes, v, s.seat, s.round, Prevote);
    VoteOfPush(s.votes, v, s.seat, s.round, Precommit);
    GrownRecord(s, s.(votes := s.votes + [v], step := StepOf(phase)), ctx, known);
  }

  lemma PushProposalList(s: State, ctx: Context, known: iset<Vote>, p: Proposal)
    requires OrderedSeats(ctx.voters) && ProposalsInv(s.proposals, s.votes, s.round, s.seat, s.height, ctx, known)
    requires ProposalInv(p, s.votes, s.round, s.seat, s.height, ctx, known)
    requires ProposalAt(s.proposals, p.entry.term, p.entry.hash).None?
    requires |ProposalsAt(s.proposals, p.entry.term)| < 2
    requires p.entry.sequencer == s.seat ==> forall q :: q in s.proposals && q.entry.term == p.entry.term ==>
      q.entry.sequencer != s.seat
    ensures ProposalsInv(s.proposals + [p], s.votes, s.round, s.seat, s.height, ctx, known)
  {
    var more := s.proposals + [p];
    forall round: nat ensures |ProposalsAt(more, round)| <= 2 {
      assert |ProposalsAt(s.proposals, round)| <= 2;
      assert more[..|s.proposals|] == s.proposals;
    }
    forall i | 0 <= i < |s.proposals| ensures s.proposals[i] in s.proposals {
    }
    assert DistinctProposals(more, s.seat);
  }

  lemma PushProposal(s: State, ctx: Context, known: iset<Vote>, p: Proposal)
    requires RecordInv(s, ctx, known) && s.inputKnown
    requires ProposalsInv(s.proposals + [p], s.votes, s.round, s.seat, s.height, ctx, known)
    ensures RecordInv(s.(proposals := s.proposals + [p]), ctx, known)
  {
    var more := s.proposals + [p];
    assert forall q :: q in s.proposals ==> q in more;
    assert OwnEntryRecorded(s.decision, more, s.seat) && OwnEntryRecorded(s.unapplied, more, s.seat);
  }

  lemma PushEvidence(s: State, ctx: Context, known: iset<Vote>, e: Equivocation)
    requires RecordInv(s, ctx, known) && EvidenceInv(e, s.votes, s.seat, s.height, ctx, known)
    ensures RecordInv(s.(equivocations := s.equivocations + [e]), ctx, known)
  {
  }

  lemma StopsForGood(s: State, t: State, ctx: Context, known: iset<Vote>)
    requires RecordInv(s, ctx, known) && SameOrStopped(s, t)
    ensures RecordInv(t, ctx, known)
  {
  }

  lemma SetHints(s: State, ctx: Context, known: iset<Vote>, hints: seq<Hint>)
    requires RecordInv(s, ctx, known) && HintsInv(hints, s.votes, s.round, s.seat, s.height, ctx, known)
    requires !s.inputKnown ==> forall h :: h in hints ==> !h.ProposalHint?
    ensures RecordInv(s.(hints := hints), ctx, known)
  {
  }

  lemma SetTimers(s: State, ctx: Context, known: iset<Vote>, timers: Timers)
    requires RecordInv(s, ctx, known) && TimersInv(timers, s.votes, s.round, ctx) && (timers.propose ==> s.inputKnown)
    ensures RecordInv(s.(timers := timers), ctx, known)
  {
  }

  lemma SetInputKnown(s: State, ctx: Context, known: iset<Vote>)
    requires RecordInv(s, ctx, known)
    ensures RecordInv(s.(inputKnown := true), ctx, known)
  {
  }

  lemma SetDecision(s: State, ctx: Context, known: iset<Vote>, certified: CertifiedEntry)
    requires RecordInv(s, ctx, known) && s.decision.None? && s.haltKind != Some(CertifiedValidation)
    requires ValidCertified(certified, ctx)
    requires OwnEntryRecorded(Some(certified), s.proposals, s.seat)
    requires Grounded(certified.certificate, s.votes, s.seat, s.height, known)
    ensures RecordInv(s.(decision := Some(certified)), ctx, known)
  {
  }

  lemma SetQuorums(s: State, ctx: Context, known: iset<Vote>, valid: Option<QuorumValue>, locked: Option<QuorumValue>)
    requires RecordInv(s, ctx, known) && Covers(valid, locked)
    requires QuorumInv(valid, s.votes, s.round, s.height, ctx) && QuorumInv(locked, s.votes, s.round, s.height, ctx)
    requires LockInv(s.votes, locked, s.step, s.round, s.seat, s.height, ctx, known)
    ensures RecordInv(s.(valid := valid, locked := locked), ctx, known)
  {
  }
}
