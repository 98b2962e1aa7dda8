/**
 * A round without faults or timeouts: the voters of a quorum exchange one valid proposal and their votes in any order,
 * and every one of them decides it.
 */
module GoodRound {
  import opened Results
  import opened Votes
  import opened Proposals
  import opened Consensus
  import opened ConsensusRestore
  import opened Transitions
  import opened ConsensusRecord
  import opened LockRule
  import opened ConsensusSteps
  import opened ConsensusEvents
  import opened ConsensusDecides
  import opened ConsensusProgress
  import opened ConsensusSends
  import opened ConsensusReacts

  /** Every vote: in this round nothing depends on which votes exist. */
  ghost function Every(): iset<Vote> {
    iset v: Vote | v.seat >= 0
  }

  /** A valid proposal of the first round, without an accusation, in a height that tolerates its excluded voters. */
  predicate Ordinary(ctx: Context, p: Proposal) {
    && ctx.WellFormed() && ValidProposal(p, ctx) && p.entry.term == 1 && ctx.controlOf(p.entry.hash).None?
    && |ctx.excluded| <= Tolerated(|ctx.voters|)
  }

  predicate Admits(admit: Admission, p: Proposal) {
    admit.Some? ==> admit.value(p)
  }

  /** A record that knows no value but the proposed one. */
  predicate Single(s: State, p: Proposal) {
    && s.round == 1 && s.halted.None? && s.hints == [] && s.equivocations == [] && s.provenOffender.None?
    && (forall q :: q in s.proposals ==> q == p)
    && (forall v :: v in s.votes ==> v.value == Some(p.entry.hash))
    && (s.step != AtPropose || s.valid.Some? ==> p in s.proposals)
  }

  /** Such a record has done all that its votes call for. */
  ghost predicate Settled(s: State, ctx: Context, p: Proposal)
    requires OrderedSeats(ctx.voters)
  {
    && RecordInv(s, ctx, Every()) && Single(s, p)
    && match s.decision
       case None =>
         && !Backed(s, ctx, p)
         && (p in s.proposals ==> s.step != AtPropose)
         && (s.step == AtPrevote ==> !Polka(s, ctx, p))
       case Some(c) => c.entry == p.entry && Backed(s, ctx, p)
  }

  // ---- one drive ----

  lemma OnlyBacked(s: State, ctx: Context, p: Proposal)
    requires Ordinary(ctx, p) && forall q :: q in s.proposals ==> q == p
    ensures forall q :: Backed(s, ctx, q) ==> q == p
    ensures Calm(s, ctx)
  {
    hide ValidProposal, QuorumOf;
  }

  lemma AllOfRound(s: State, p: Proposal)
    requires s.round == p.entry.term && forall q :: q in s.proposals ==> q == p
    ensures forall q :: q in ProposalsAt(s.proposals, s.round) <==> q in s.proposals
    ensures p in s.proposals ==> ProposalAt(s.proposals, s.round, p.entry.hash) == Some(p)
  {
  }

  lemma NoValueLocked(w: Work, ctx: Context, known: iset<Vote>, admit: Admission)
    requires Good(w, ctx, known) && Live(w.state) && w.state.proposals == []
    ensures Drive(w, ctx, admit).state.valid == w.state.valid
  {
    hide RecordInv, EffectsRecorded, MaybeCommit, PrecommitNil, ArmTimers, Extends;
    MaybeCommitKept(w, ctx, known);
    var first := MaybeCommit(w, ctx);
    if !Finished(first.state) {
      assert PrevoteWaiting(first, admit) == first;
      NoProposalNoLock(first, ctx, admit);
      PrecommitNilKept(first, ctx, known);
      var precommitted := PrecommitNil(first, ctx);
      ArmTimersKept(precommitted, ctx, known);
      MaybeCommitKept(ArmTimers(precommitted, ctx), ctx, known);
    }
  }

  /** The prevote and precommit that a drive of such a record adds are for its one value. */
  lemma OwedIsValue(s: State, ctx: Context, p: Proposal, admit: Admission)
    requires OrderedSeats(ctx.voters) && RecordInv(s, ctx, Every()) && Single(s, p) && p.entry.term == 1
      && Admits(admit, p)
    requires p in s.proposals
    ensures s.step == AtPropose ==> OwedPrevote(s, p, admit).value == Some(p.entry.hash)
    ensures Admitted(s, p.entry.hash, admit) == Some(p.entry.hash)
  {
    hide RecordInv, CommitRule, PrevoteRule, ValidProposal, ValidCertificate;
    AllOfRound(s, p);
    RecordedLocks(s, ctx, Every());
    RecordedQuorums(s, ctx, Every());
    if s.locked.Some? {
      QuorumRound(s.locked.value, s.round, s.height, ctx);
    }
  }

  lemma QuorumRound(q: QuorumValue, round: nat, height: nat, ctx: Context)
    requires OrderedSeats(ctx.voters) && ValidQuorumValue(q, round, height, ctx)
    ensures q.round >= 1
  {
    assert q.prevotes[0] in q.prevotes;
  }

  /** The votes of a seat in one round and phase, where the record holds at most one. */
  lemma OwnPrevoteIs(s: State, t: State, ctx: Context, p: Proposal, admit: Admission, sent: seq<Effect>, v: Vote)
    requires OrderedSeats(ctx.voters) && RecordInv(s, ctx, Every()) && RecordInv(t, ctx, Every()) && t.seat == s.seat
    requires Single(s, p) && p.entry.term == 1 && Admits(admit, p) && Paid(s, t, sent, ctx, admit)
    requires v in t.votes && v !in s.votes && v.seat == s.seat && v.term == s.round && v.phase == Prevote
    ensures v.value == Some(p.entry.hash)
  {
    hide RecordInv, QuorumOf, OwedPrevote, AnyOf;
    RecordedVotes(s, ctx, Every());
    RecordedVotes(t, ctx, Every());
    OnlyOwn(t, ctx, Every(), v);
    AllOfRound(s, p);
    if s.step == AtPropose {
      var q :| q in ProposalsAt(s.proposals, s.round) && OwedPrevote(s, q, admit) in t.votes;
      OwedIsValue(s, ctx, p, admit);
      OwedIsOwn(s, q, admit);
    }
  }

  lemma OwedIsOwn(s: State, p: Proposal, admit: Admission)
    ensures var v := OwedPrevote(s, p, admit); v.seat == s.seat && v.term == s.round && v.phase == Prevote
  {
  }

  lemma OwnPrecommitIs(s: State, t: State, ctx: Context, p: Proposal, admit: Admission, sent: seq<Effect>, v: Vote)
    requires OrderedSeats(ctx.voters) && RecordInv(s, ctx, Every()) && RecordInv(t, ctx, Every()) && t.seat == s.seat
    requires Single(s, p) && p.entry.term == 1 && Admits(admit, p) && Paid(s, t, sent, ctx, admit)
    requires v in t.votes && v !in s.votes && v.seat == s.seat && v.term == s.round && v.phase == Precommit
    requires forall x :: x in t.votes && x.phase == Prevote ==> x.value == Some(p.entry.hash)
    ensures v.value == Some(p.entry.hash)
  {
    hide RecordInv, QuorumOf, OwedPrevote, AnyOf, Admitted;
    RecordedVotes(s, ctx, Every());
    RecordedVotes(t, ctx, Every());
    OnlyOwn(t, ctx, Every(), v);
    AllOfRound(s, p);
    if PrecommittedNil(t, sent, ctx) {
      QuorumHasVote(t, ctx, t.round, Prevote, None);
    } else if s.step != AtPrecommit {
      var q :| q in ProposalsAt(t.proposals, t.round) && PrecommittedTo(s, t, sent, ctx, q, admit);
      assert q in ProposalsAt(s.proposals, s.round);
      OwedIsValue(s, ctx, p, admit);
    }
  }

  /** Whatever a drive of such a record signs is for its one value. */
  lemma PaidIsSingle(s: State, t: State, ctx: Context, p: Proposal, admit: Admission, sent: seq<Effect>)
    requires OrderedSeats(ctx.voters) && RecordInv(s, ctx, Every()) && RecordInv(t, ctx, Every()) && t.seat == s.seat
    requires Single(s, p) && p.entry.term == 1 && Admits(admit, p) && Paid(s, t, sent, ctx, admit)
    requires forall v :: v in t.votes && v !in s.votes ==> v.seat == s.seat
    ensures forall v :: v in t.votes ==> v.value == Some(p.entry.hash)
  {
    hide RecordInv, Paid, Single;
    RecordedVotes(t, ctx, Every());
    SingleFacts(s, p);
    PaidFacts(s, t, ctx, admit, sent);
    forall v | v in t.votes && v.phase == Prevote ensures v.value == Some(p.entry.hash) {
      if v !in s.votes {
        OwnPrevoteIs(s, t, ctx, p, admit, sent, v);
      }
    }
    forall v | v in t.votes && v.phase == Precommit ensures v.value == Some(p.entry.hash) {
      if v !in s.votes {
        OwnPrecommitIs(s, t, ctx, p, admit, sent, v);
      }
    }
  }

  lemma SingleFacts(s: State, p: Proposal)
    requires Single(s, p)
    ensures s.round == 1 && s.halted.None? && forall v :: v in s.votes ==> v.value == Some(p.entry.hash)
    ensures forall q :: q in s.proposals ==> q == p
  {
  }

  lemma PaidFacts(s: State, t: State, ctx: Context, admit: Admission, sent: seq<Effect>)
    requires OrderedSeats(ctx.voters) && Paid(s, t, sent, ctx, admit)
    ensures t.round == s.round && t.proposals == s.proposals
  {
    hide QuorumOf, OwedPrevote, AnyOf, Admitted;
  }

  lemma PaidSettles(s: State, t: State, ctx: Context, p: Proposal, admit: Admission, sent: seq<Effect>)
    requires OrderedSeats(ctx.voters) && Single(s, p) && p.entry.term == 1 && Paid(s, t, sent, ctx, admit)
    ensures t.step != AtPropose ==> p in t.proposals
    ensures p in t.proposals ==> t.step != AtPropose
    ensures t.step == AtPrevote ==> !Polka(t, ctx, p)
  {
    hide QuorumOf, OwedPrevote, AnyOf, Admitted;
    AllOfRound(s, p);
    if s.step == AtPropose && t.step != AtPropose {
      assert s.proposals != [];
      assert s.proposals[0] in s.proposals;
    }
  }

  lemma SentByDrive(w: Work, ctx: Context, admit: Admission)
    requires OrderedSeats(ctx.voters)
    ensures var t := Drive(w, ctx, admit);
      && w.effects <= t.effects && w.state.votes <= t.state.votes
      && forall v :: v in t.state.votes && v !in w.state.votes && v.seat == w.state.seat ==>
           BroadcastVote(v) in t.effects
  {
    hide Drive;
    DriveSends(w, ctx, admit);
    var t := Drive(w, ctx, admit);
    assert forall e :: e in NewEffects(w, t) ==> e in t.effects;
  }

  /** The drive of a running record with one value settles it. */
  lemma DriveGood(w: Work, ctx: Context, p: Proposal, admit: Admission)
    requires Ordinary(ctx, p) && Good(w, ctx, Every()) && Single(w.state, p) && Running(w.state) && Admits(admit, p)
    ensures var t := Drive(w, ctx, admit);
      && Settled(t.state, ctx, p) && DriveOnly(w.state, t.state)
      && (t.state.decision.Some? ==> Commit(t.state.decision.value) in t.effects)
  {
    hide RecordInv, EffectsRecorded, Drive, ValidProposal, Backed, Polka, Extends, Single, MaybeCommit, BeforeCommit;
    RunningLive(w.state, ctx, Every());
    DriveKept(w, ctx, Every(), admit);
    DriveSettles(w, ctx, Every(), admit);
    var t := Drive(w, ctx, admit);
    SingleFacts(w.state, p);
    OnlyBacked(t.state, ctx, p);
    assert forall e :: e in NewEffects(w, t) ==> e in t.effects;
    DriveIsSingle(w, ctx, p, admit);
  }

  lemma DriveIsSingle(w: Work, ctx: Context, p: Proposal, admit: Admission)
    requires Ordinary(ctx, p) && Good(w, ctx, Every()) && Single(w.state, p) && Running(w.state) && Admits(admit, p)
    requires Drive(w, ctx, admit).state.halted.None? && DriveOnly(w.state, Drive(w, ctx, admit).state)
    ensures var t := Drive(w, ctx, admit).state;
      && Single(t, p)
      && (t.decision.None? ==>
            (p in t.proposals ==> t.step != AtPropose) && (t.step == AtPrevote ==> !Polka(t, ctx, p)))
  {
    hide RecordInv, EffectsRecorded, Drive, ValidProposal, Backed, Polka, Paid, Extends, MaybeCommit, BeforeCommit;
    RunningLive(w.state, ctx, Every());
    var t := Drive(w, ctx, admit).state;
    if w.state.proposals == [] {
      NoValueLocked(w, ctx, Every(), admit);
    } else {
      assert w.state.proposals[0] in w.state.proposals;
    }
    if Backed(w.state, ctx, p) {
      StopsOrDecides(w, ctx, Every(), p);
      MaybeCommitKept(w, ctx, Every());
      DriveStops(w, ctx, admit);
    } else {
      OnlyBacked(w.state, ctx, p);
      DrivePays(w, ctx, Every(), admit);
      var u := BeforeCommit(w, ctx, admit);
      RunningLive(u.state, ctx, Every());
      MaybeCommitKept(u, ctx, Every());
      PaidSettles(w.state, u.state, ctx, p, admit, NewEffects(w, u));
      DrivenVotes(w, ctx, admit);
      PaidIsSingle(w.state, u.state, ctx, p, admit, NewEffects(w, u));
      SamePolka(u.state, t, ctx, p);
    }
  }

  lemma DriveStops(w: Work, ctx: Context, admit: Admission)
    requires OrderedSeats(ctx.voters) && Finished(MaybeCommit(w, ctx).state)
    ensures Drive(w, ctx, admit) == MaybeCommit(w, ctx)
  {
  }

  lemma SamePolka(s: State, t: State, ctx: Context, p: Proposal)
    requires OrderedSeats(ctx.voters) && CommitOnly(s, t)
    ensures Polka(s, ctx, p) <==> Polka(t, ctx, p)
  {
  }

  /** A drive adds no vote of another seat. */
  lemma DrivenVotes(w: Work, ctx: Context, admit: Admission)
    requires Good(w, ctx, Every()) && Live(w.state)
    ensures forall v :: v in BeforeCommit(w, ctx, admit).state.votes && v !in w.state.votes ==> v.seat == w.state.seat
  {
    hide RecordInv, EffectsRecorded, MaybeCommit, PrevoteWaiting, LockValues, PrecommitNil, ArmTimers, Extends;
    MaybeCommitKept(w, ctx, Every());
    DriveAddsOwn(MaybeCommit(w, ctx), ctx, admit);
  }

  /** The drive of a record that decided on its one value changes nothing. */
  lemma DecidedDrive(w: Work, ctx: Context, p: Proposal, admit: Admission)
    requires Ordinary(ctx, p) && Good(w, ctx, Every()) && Single(w.state, p)
    requires w.state.decision.Some? && w.state.decision.value.entry == p.entry
    ensures Drive(w, ctx, admit).state == w.state
  {
    hide RecordInv, EffectsRecorded, ValidProposal, Backed, MaybeCommit, Single;
    SingleFacts(w.state, p);
    RunningLive(w.state, ctx, Every());
    OnlyBacked(w.state, ctx, p);
    MaybeCommitDecides(w, ctx, Every());
  }

  // ---- one event ----

  /** What a voter of this round may be handed: an input, the proposal, and votes for its value. */
  predicate GoodEvent(s: State, ctx: Context, p: Proposal, event: Event) {
    match event
    case InputAvailable => true
    case Propose(candidate) =>
      && s.seat == p.entry.sequencer && candidate.Some?
      && candidate.value.(sequencer := s.seat, term := 1) == p.entry
    case ReceiveProposal(q) => q == p && s.seat != p.entry.sequencer
    case ReceiveVote(v) =>
      ValidVote(v, ctx.voters) && v.height == ctx.height && v.term == 1 && v.value == Some(p.entry.hash)
        && v.seat != s.seat
    case _ => false
  }

  predicate Proposes(event: Event) {
    event.Propose? || event.ReceiveProposal?
  }

  /** The voter's own proposal that was not in its record before. */
  predicate OwnNew(s: State, t: State, p: Proposal) {
    p in t.proposals && p !in s.proposals && p.entry.sequencer == s.seat
  }

  /** What such an event makes of a settled record. */
  ghost predicate Advanced(s: State, t: Work, ctx: Context, p: Proposal, event: Event)
    requires OrderedSeats(ctx.voters)
  {
    && Settled(t.state, ctx, p)
    && (event.ReceiveVote? ==> event.vote in t.state.votes)
    && (Proposes(event) ==> p in t.state.proposals)
    && (OwnNew(s, t.state, p) ==> BroadcastProposal(p) in t.effects)
    && (s.decision.Some? ==> t.state.decision == s.decision)
    && (s.decision.None? && t.state.decision.Some? ==> Commit(t.state.decision.value) in t.effects)
    && (forall v :: v in t.state.votes && v.seat != s.seat ==> v in s.votes || event == ReceiveVote(v))
  }

  lemma ValidFirst(ctx: Context, p: Proposal)
    requires Ordinary(ctx, p)
    ensures p.validRound.None? && p.prevotes == [] && p.entry.height == ctx.height && p.entry.sequencer in ctx.voters
    ensures ProposerFor(ctx.height, 1, ctx) == Some(p.entry.sequencer)
  {
  }

  lemma NobodyGuilty(s: State, ctx: Context, p: Proposal)
    requires Ordinary(ctx, p) && Single(s, p) && s.seat !in ctx.excluded
    ensures WithinTolerance(s, ctx, Equivocators(s, ctx))
  {
    hide ValidProposal;
    ExcludedCount(ctx.excluded);
    assert Equivocators(s, ctx) == VoterSet(ctx.excluded);
  }

  lemma {:induction false} ExcludedCount(seats: seq<Seat>)
    ensures |VoterSet(seats)| <= |seats|
  {
    if seats != [] {
      ExcludedCount(seats[..|seats| - 1]);
      assert seats == seats[..|seats| - 1] + [seats[|seats| - 1]];
      assert VoterSet(seats) == VoterSet(seats[..|seats| - 1]) + {seats[|seats| - 1]};
    }
  }

  lemma DriveStaged(s: State, staged: Work, ctx: Context, p: Proposal, event: Event, admit: Admission)
    requires Ordinary(ctx, p) && Good(staged, ctx, Every()) && Single(staged.state, p) && Admits(admit, p)
    requires Stage(s, ctx, event, admit) == Ok(ToDrive(staged)) && staged.state.seat == s.seat
    requires staged.state.decision == s.decision
    requires s.decision.Some? ==> s.decision.value.entry == p.entry && Backed(staged.state, ctx, p)
    requires event.ReceiveVote? ==> event.vote in staged.state.votes
    requires Proposes(event) ==> p in staged.state.proposals
    requires OwnNew(s, staged.state, p) ==> BroadcastProposal(p) in staged.effects
    requires forall v :: v in staged.state.votes && v.seat != s.seat ==> v in s.votes || event == ReceiveVote(v)
    ensures Reduce(s, ctx, event, admit).Ok? && Advanced(s, Reduce(s, ctx, event, admit).value, ctx, p, event)
  {
    hide RecordInv, EffectsRecorded, Drive, ValidProposal, Backed, Polka, Stage, Single, SendsSigned;
    ReduceIs(s, ctx, event, admit, staged);
    var t := Drive(staged, ctx, admit);
    SingleFacts(staged.state, p);
    DriveSends(staged, ctx, admit);
    assert forall e :: e in staged.effects ==> e in t.effects by {
      SentGrow(staged, t);
    }
    DriveVotesOwn(staged, ctx, p, admit);
    if s.decision.Some? {
      DecidedDrive(staged, ctx, p, admit);
    } else {
      DriveGood(staged, ctx, p, admit);
      GrownVotes(staged, t);
    }
  }

  lemma SentGrow(w: Work, t: Work)
    requires SendsSigned(w, t)
    ensures forall e :: e in w.effects ==> e in t.effects
  {
  }

  lemma GrownVotes(w: Work, t: Work)
    requires SendsSigned(w, t)
    ensures forall v :: v in w.state.votes ==> v in t.state.votes
  {
  }

  lemma DriveVotesOwn(w: Work, ctx: Context, p: Proposal, admit: Admission)
    requires Ordinary(ctx, p) && Good(w, ctx, Every()) && Single(w.state, p)
    ensures forall v :: v in Drive(w, ctx, admit).state.votes && v !in w.state.votes ==> v.seat == w.state.seat
  {
    hide RecordInv, EffectsRecorded, ValidProposal, MaybeCommit, PrevoteWaiting, LockValues, PrecommitNil, ArmTimers,
      Single;
    SingleFacts(w.state, p);
    RunningLive(w.state, ctx, Every());
    MaybeCommitKept(w, ctx, Every());
    DrivenVotes(w, ctx, admit);
    BeforeKept(w, ctx, Every(), admit);
    MaybeCommitKept(BeforeCommit(w, ctx, admit), ctx, Every());
  }

  lemma BeforeKept(w: Work, ctx: Context, known: iset<Vote>, admit: Admission)
    requires Good(w, ctx, known) && Live(w.state)
    ensures Good(BeforeCommit(w, ctx, admit), ctx, known) && Live(BeforeCommit(w, ctx, admit).state)
  {
    hide RecordInv, EffectsRecorded, Extends, MaybeCommit, PrevoteWaiting, LockValues, PrecommitNil, ArmTimers;
    MaybeCommitKept(w, ctx, known);
    var first := MaybeCommit(w, ctx);
    PrevoteWaitingKept(first, ctx, known, admit);
    var prevoted := PrevoteWaiting(first, admit);
    var waiting := ProposalsAt(prevoted.state.proposals, prevoted.state.round);
    LockValuesKept(prevoted, ctx, known, waiting, admit);
    PrecommitNilKept(LockValues(prevoted, ctx, waiting, admit), ctx, known);
    ArmTimersKept(PrecommitNil(LockValues(prevoted, ctx, waiting, admit), ctx), ctx, known);
  }

  lemma BackedGrows(s: State, t: State, ctx: Context, p: Proposal)
    requires OrderedSeats(ctx.voters) && Backed(s, ctx, p)
    requires forall v :: v in s.votes ==> v in t.votes
    requires forall q :: q in s.proposals ==> q in t.proposals
    ensures Backed(t, ctx, p)
  {
    Subset(Backers(s.votes, p.entry.term, Precommit, Some(p.entry.hash)),
           Backers(t.votes, p.entry.term, Precommit, Some(p.entry.hash)));
  }

  lemma VoteGood(s: State, ctx: Context, p: Proposal, vote: Vote, admit: Admission)
    requires Ordinary(ctx, p) && Settled(s, ctx, p) && s.seat !in ctx.excluded && Admits(admit, p)
    requires GoodEvent(s, ctx, p, ReceiveVote(vote))
    ensures var r := Reduce(s, ctx, ReceiveVote(vote), admit); r.Ok? && Advanced(s, r.value, ctx, p, ReceiveVote(vote))
  {
    hide RecordInv, ValidProposal, Backed, Polka, Reduce, Stage, Advanced, Equivocators, EffectsRecorded, Extends;
    var w := Work(s, []);
    RecordedVotes(s, ctx, Every());
    RecordedBinding(s, ctx, Every());
    NobodyGuilty(s, ctx, p);
    var held := VoteOf(s.votes, vote.seat, vote.term, vote.phase);
    assert held.Some? ==> held.value in s.votes;
    VoteCounted(s, ctx, vote, admit);
    StageKept(s, ctx, Every(), ReceiveVote(vote), admit);
    var staged := RecordVote(w, vote);
    assert staged.state == if held.None? then s.(votes := s.votes + [vote]) else s;
    assert forall v :: v in s.votes + [vote] <==> v in s.votes || v == vote;
    if s.decision.Some? {
      BackedGrows(s, staged.state, ctx, p);
    }
    DriveStaged(s, staged, ctx, p, ReceiveVote(vote), admit);
  }

  lemma NoOther(proposals: seq<Proposal>, p: Proposal)
    requires p !in proposals && forall q :: q in proposals ==> q == p
    ensures proposals == []
  {
    if proposals != [] {
      FirstIsMember(proposals);
    }
  }

  lemma RecordsIt(w: Work, ctx: Context, p: Proposal)
    requires Single(w.state, p) && p.entry.sequencer in ctx.voters && p.entry.term == 1
    ensures RecordProposal(w, ctx, p)
      == w.(state := w.state.(proposals := if p in w.state.proposals then w.state.proposals else [p]))
  {
    if p in w.state.proposals {
      assert p in ProposalsAt(w.state.proposals, 1);
    } else {
      NoOther(w.state.proposals, p);
    }
  }

  /** A record with one value after it was handed the proposal and voted on it. */
  lemma PrevotedSingle(w: Work, ctx: Context, p: Proposal, admit: Admission)
    requires Ordinary(ctx, p) && Good(w, ctx, Every()) && Single(w.state, p) && p in w.state.proposals
      && Admits(admit, p)
    ensures var t := PrevoteProposal(w, p, admit).state;
      && t == w.state.(votes := t.votes, step := t.step) && Single(t, p)
      && forall v :: v in t.votes && v.seat != w.state.seat ==> v in w.state.votes
    ensures forall e :: e in w.effects ==> e in PrevoteProposal(w, p, admit).effects
  {
    hide RecordInv, ValidProposal, EffectsRecorded, OwedPrevote;
    if w.state.step == AtPropose {
      PrevoteIsOwed(w, ctx, Every(), p, admit);
      OwedIsValue(w.state, ctx, p, admit);
      OwedIsOwn(w.state, p, admit);
    }
  }

  lemma ProposalGood(s: State, ctx: Context, p: Proposal, admit: Admission)
    requires Ordinary(ctx, p) && Settled(s, ctx, p) && s.seat !in ctx.excluded && Admits(admit, p)
    requires p.entry.sequencer != s.seat
    ensures var r := Reduce(s, ctx, ReceiveProposal(p), admit);
      r.Ok? && Advanced(s, r.value, ctx, p, ReceiveProposal(p))
  {
    hide RecordInv, ValidProposal, Backed, Polka, Reduce, Stage, Advanced, Equivocators, EffectsRecorded, Extends,
      PrevoteProposal, RecordProposal;
    var started := Work(s.(inputKnown := true), []);
    ValidFirst(ctx, p);
    NobodyGuilty(s, ctx, p);
    NobodyGuilty(started.state, ctx, p);
    RecordsIt(started, ctx, p);
    var recorded := RecordProposal(started, ctx, p);
    NobodyGuilty(recorded.state, ctx, p);
    StagedProposal(s, ctx, p, admit);
    StageKept(s, ctx, Every(), ReceiveProposal(p), admit);
    if s.decision.Some? {
      BackedGrows(s, recorded.state, ctx, p);
      DriveStaged(s, recorded, ctx, p, ReceiveProposal(p), admit);
    } else {
      RecordedGood(s, ctx, Every(), p);
      PrevotedSingle(recorded, ctx, p, admit);
      DriveStaged(s, PrevoteProposal(recorded, p, admit), ctx, p, ReceiveProposal(p), admit);
    }
  }

  lemma StagedProposal(s: State, ctx: Context, p: Proposal, admit: Admission)
    requires Ordinary(ctx, p) && Single(s, p) && s.seat !in ctx.excluded && p.entry.sequencer != s.seat
      && p.prevotes == []
    requires var t := RecordProposal(Work(s.(inputKnown := true), []), ctx, p);
      && p in t.state.proposals && t.state.halted.None? && t.state.decision == s.decision
      && WithinTolerance(t.state, ctx, Equivocators(t.state, ctx))
    ensures var recorded := RecordProposal(Work(s.(inputKnown := true), []), ctx, p);
      Stage(s, ctx, ReceiveProposal(p), admit)
        == Ok(ToDrive(if s.decision.Some? then recorded else PrevoteProposal(recorded, p, admit)))
  {
    hide ValidProposal, RecordProposal, PrevoteProposal, Equivocators;
    RetainQuiet(Work(s, []), ctx, p.entry);
  }

  lemma InputGood(s: State, ctx: Context, p: Proposal, admit: Admission)
    requires Ordinary(ctx, p) && Settled(s, ctx, p)
    ensures var r := Reduce(s, ctx, InputAvailable, admit); r.Ok? && Advanced(s, r.value, ctx, p, InputAvailable)
  {
    hide RecordInv, ValidProposal, ProposerFor, Backers;
    StageKept(s, ctx, Every(), InputAvailable, admit);
  }

  lemma ProposeGood(s: State, ctx: Context, p: Proposal, candidate: Option<Entry>, admit: Admission)
    requires Ordinary(ctx, p) && Settled(s, ctx, p) && s.seat !in ctx.excluded && Admits(admit, p)
    requires GoodEvent(s, ctx, p, Propose(candidate))
    ensures var r := Reduce(s, ctx, Propose(candidate), admit);
      r.Ok? && Advanced(s, r.value, ctx, p, Propose(candidate))
  {
    hide RecordInv, ValidProposal, Backed, Polka, Advanced, Equivocators, EffectsRecorded, Extends, Reduce, Stage,
      PrevoteProposal, RecordProposal, ProposerFor;
    if Running(s) && s.step == AtPropose {
      ValidFirst(ctx, p);
      RecordedBinding(s, ctx, Every());
      assert p !in s.proposals;
      assert OwnProposal(s, candidate.value) == p;
      ProposeStaged(s, ctx, candidate, admit);
      StageKept(s, ctx, Every(), Propose(candidate), admit);
      OwnRecorded(s, ctx, Every(), p);
      RecordsIt(Work(s.(inputKnown := true), []), ctx, p);
      var recorded := RecordProposal(Work(s.(inputKnown := true), []), ctx, p);
      SentGood(recorded, ctx, Every(), p);
      PrevotedSingle(recorded.Emit(BroadcastProposal(p)), ctx, p, admit);
      assert BroadcastProposal(p) in recorded.Emit(BroadcastProposal(p)).effects;
      DriveStaged(s, PrevoteProposal(recorded.Emit(BroadcastProposal(p)), p, admit), ctx, p, Propose(candidate), admit);
    } else {
      ProposeIgnored(s, ctx, p, candidate, admit);
    }
  }

  lemma ProposeIgnored(s: State, ctx: Context, p: Proposal, candidate: Option<Entry>, admit: Admission)
    requires Ordinary(ctx, p) && Settled(s, ctx, p) && (!Running(s) || s.step != AtPropose)
    ensures var r := Reduce(s, ctx, Propose(candidate), admit);
      r.Ok? && Advanced(s, r.value, ctx, p, Propose(candidate))
  {
    hide RecordInv, ValidProposal, QuorumOf;
  }

  /** No event of such a round is refused, none stops a record, and each settles it again. */
  lemma EventGood(s: State, ctx: Context, p: Proposal, event: Event, admit: Admission)
    requires Ordinary(ctx, p) && Settled(s, ctx, p) && s.seat !in ctx.excluded && Admits(admit, p)
    requires GoodEvent(s, ctx, p, event)
    ensures Reduce(s, ctx, event, admit).Ok? && Advanced(s, Reduce(s, ctx, event, admit).value, ctx, p, event)
  {
    hide Reduce, Advanced, Settled, ValidProposal;
    match event {
      case InputAvailable => InputGood(s, ctx, p, admit);
      case Propose(candidate) => ProposeGood(s, ctx, p, candidate, admit);
      case ReceiveProposal(q) => ProposalGood(s, ctx, p, admit);
      case ReceiveVote(vote) => VoteGood(s, ctx, p, vote, admit);
    }
  }

  /** A voter that is not excluded starts the height with a blank record, and every other seat gets none or stops. */
  lemma CreatedIff(ctx: Context, seat: Seat)
    ensures CreateState(ctx, seat, None, None).Ok? <==> ctx.WellFormed() && seat in ctx.voters
    ensures ctx.WellFormed() && seat in ctx.voters ==>
      var s := CreateState(ctx, seat, None, None).value;
      && (s.halted.Some? <==> seat in ctx.excluded)
      && (seat !in ctx.excluded ==> s == FreshState(ctx, seat, None, None))
  {
  }

  // ---- the voters of one round ----

  /** One voter of the round: its record, what it was handed, and what it handed out. */
  datatype Peer = Peer(state: State, taken: seq<Event>, sent: seq<Effect>)

  datatype Meeting = Meeting(ctx: Context, proposal: Proposal, peers: map<Seat, Peer>)

  datatype Turn = Turn(seat: Seat, event: Event, admit: Admission)

  /**
   * A voter may be handed an input at any time, the proposal once its proposer sent it, and every vote that another
   * voter of the round sent. A proposer outside the round may have sent its proposal before it fell silent.
   */
  predicate Offered(m: Meeting, turn: Turn) {
    && turn.seat in m.peers && Admits(turn.admit, m.proposal)
    && match turn.event
       case InputAvailable => true
       case Propose(candidate) =>
         && turn.seat == m.proposal.entry.sequencer && candidate.Some?
         && candidate.value.(sequencer := turn.seat, term := 1) == m.proposal.entry
       case ReceiveProposal(q) =>
         && q == m.proposal && turn.seat != q.entry.sequencer
         && (q.entry.sequencer in m.peers ==> BroadcastProposal(q) in m.peers[q.entry.sequencer].sent)
       case ReceiveVote(v) =>
         && v.seat in m.peers && v.seat != turn.seat && BroadcastVote(v) in m.peers[v.seat].sent
       case _ => false
  }

  function Take(m: Meeting, turn: Turn): Meeting
    requires OrderedSeats(m.ctx.voters) && turn.seat in m.peers
  {
    var peer := m.peers[turn.seat];
    match Reduce(peer.state, m.ctx, turn.event, turn.admit)
    case Err(_) => m
    case Ok(w) =>
      m.(peers := m.peers[turn.seat := Peer(w.state, peer.taken + [turn.event], peer.sent + w.effects)])
  }

  /** The round after some turns, in any order the offers allow. */
  function AfterTurns(m: Meeting, turns: seq<Turn>): (r: Option<Meeting>)
    requires OrderedSeats(m.ctx.voters)
    ensures r.Some? ==> r.value.ctx == m.ctx
  {
    if turns == [] then Some(m)
    else
      match AfterTurns(m, turns[..|turns| - 1])
      case None => None
      case Some(mid) =>
        if Offered(mid, turns[|turns| - 1]) then Some(Take(mid, turns[|turns| - 1])) else None
  }

  /** Every voter has the first record of the height and has sent nothing. */
  predicate Opening(m: Meeting) {
    && Ordinary(m.ctx, m.proposal)
    && m.peers.Keys <= VoterSet(m.ctx.voters) - VoterSet(m.ctx.excluded)
    && forall seat :: seat in m.peers ==>
         && CreateState(m.ctx, seat, None, None) == Ok(m.peers[seat].state)
         && m.peers[seat].taken == [] && m.peers[seat].sent == []
  }

  ghost predicate VotesAccounted(m: Meeting, seat: Seat)
    requires seat in m.peers
  {
    var peer := m.peers[seat];
    && (forall v :: BroadcastVote(v) in peer.sent ==> v.seat == seat && v in peer.state.votes)
    && (forall v :: v in peer.state.votes ==> if v.seat == seat then BroadcastVote(v) in peer.sent
                                              else ReceiveVote(v) in peer.taken)
    && (forall v :: ReceiveVote(v) in peer.taken ==>
          v in peer.state.votes && v.seat in m.peers && BroadcastVote(v) in m.peers[v.seat].sent)
  }

  ghost predicate PeerInv(m: Meeting, seat: Seat)
    requires OrderedSeats(m.ctx.voters) && seat in m.peers
  {
    var peer := m.peers[seat];
    && peer.state.seat == seat && seat in m.ctx.voters && seat !in m.ctx.excluded
    && Settled(peer.state, m.ctx, m.proposal)
    && VotesAccounted(m, seat)
    && (forall event :: event in peer.taken && Proposes(event) ==> m.proposal in peer.state.proposals)
    && (seat == m.proposal.entry.sequencer && m.proposal in peer.state.proposals ==>
          BroadcastProposal(m.proposal) in peer.sent)
    && (peer.state.decision.Some? ==> Commit(peer.state.decision.value) in peer.sent)
  }

  ghost predicate MeetingInv(m: Meeting) {
    Ordinary(m.ctx, m.proposal) && forall seat :: seat in m.peers ==> PeerInv(m, seat)
  }

  lemma OpeningHolds(m: Meeting)
    requires Opening(m)
    ensures MeetingInv(m)
  {
    hide RecordInv, ValidProposal, Backed, Polka;
    forall seat | seat in m.peers ensures PeerInv(m, seat) {
      CreatedRecord(m.ctx, Every(), seat, None, None);
      NothingBackedYet(m.peers[seat].state, m.ctx, m.proposal);
    }
  }

  lemma NothingBackedYet(s: State, ctx: Context, p: Proposal)
    requires OrderedSeats(ctx.voters) && s.proposals == []
    ensures !Backed(s, ctx, p)
  {
  }

  /** A vote handed over was sent, so it is one this round knows. */
  lemma OfferedIsGood(m: Meeting, turn: Turn)
    requires MeetingInv(m) && Offered(m, turn)
    ensures GoodEvent(m.peers[turn.seat].state, m.ctx, m.proposal, turn.event)
  {
    hide RecordInv, ValidProposal, Backed, Polka;
    assert PeerInv(m, turn.seat);
    if turn.event.ReceiveVote? {
      var v := turn.event.vote;
      assert PeerInv(m, v.seat);
      var s := m.peers[v.seat].state;
      RecordedVotes(s, m.ctx, Every());
      RecordedBinding(s, m.ctx, Every());
    }
  }

  lemma SettledFacts(s: State, ctx: Context, p: Proposal)
    requires OrderedSeats(ctx.voters) && Settled(s, ctx, p)
    ensures RecordInv(s, ctx, Every()) && s.halted.None?
    ensures s.decision.Some? ==> s.decision.value.entry == p.entry
  {
    hide RecordInv, Backed, Polka;
  }

  /** The votes of one voter stay accounted for when it takes a turn. */
  lemma TakerAccounts(m: Meeting, turn: Turn, w: Work)
    requires turn.seat in m.peers && VotesAccounted(m, turn.seat)
    requires var peer := m.peers[turn.seat];
      && peer.state.seat == turn.seat && peer.state.votes <= w.state.votes
      && (forall v :: BroadcastVote(v) in w.effects
            <==> v.seat == turn.seat && v in w.state.votes && v !in peer.state.votes)
      && (forall v :: v in w.state.votes && v.seat != turn.seat ==>
          v in peer.state.votes || turn.event == ReceiveVote(v))
      && (turn.event.ReceiveVote? ==>
            && turn.event.vote in w.state.votes && turn.event.vote.seat != turn.seat && turn.event.vote.seat in m.peers
            && BroadcastVote(turn.event.vote) in m.peers[turn.event.vote.seat].sent)
    ensures var peer := m.peers[turn.seat];
      var next := Peer(w.state, peer.taken + [turn.event], peer.sent + w.effects);
      VotesAccounted(m.(peers := m.peers[turn.seat := next]), turn.seat)
  {
    var peer := m.peers[turn.seat];
    var next := Peer(w.state, peer.taken + [turn.event], peer.sent + w.effects);
    assert forall e :: e in next.sent <==> e in peer.sent || e in w.effects;
    assert forall e :: e in next.taken <==> e in peer.taken || e == turn.event;
    assert forall v :: v in peer.state.votes ==> v in w.state.votes;
  }

  lemma OthersAccount(m: Meeting, seat: Seat, taker: Seat, next: Peer)
    requires seat in m.peers && taker in m.peers && seat != taker && VotesAccounted(m, seat)
    requires m.peers[taker].sent <= next.sent
    ensures VotesAccounted(m.(peers := m.peers[taker := next]), seat)
  {
    assert forall e :: e in m.peers[taker].sent ==> e in next.sent;
  }

  lemma AdvancedFacts(s: State, t: Work, ctx: Context, p: Proposal, event: Event)
    requires OrderedSeats(ctx.voters) && Advanced(s, t, ctx, p, event)
    ensures Settled(t.state, ctx, p)
    ensures event.ReceiveVote? ==> event.vote in t.state.votes
    ensures Proposes(event) ==> p in t.state.proposals
    ensures OwnNew(s, t.state, p) ==> BroadcastProposal(p) in t.effects
    ensures s.decision.Some? ==> t.state.decision == s.decision
    ensures s.decision.None? && t.state.decision.Some? ==> Commit(t.state.decision.value) in t.effects
    ensures forall v :: v in t.state.votes && v.seat != s.seat ==> v in s.votes || event == ReceiveVote(v)
  {
    hide Settled;
  }

  lemma GoodIsHarmless(s: State, ctx: Context, p: Proposal, event: Event)
    requires OrderedSeats(ctx.voters) && GoodEvent(s, ctx, p, event)
    ensures EventHarmless(s, ctx, event) && EventSigned(s, event, Every())
  {
  }

  /** One turn keeps the round in order, and is never refused. */
  lemma TurnKeeps(m: Meeting, turn: Turn)
    requires MeetingInv(m) && Offered(m, turn)
    ensures MeetingInv(Take(m, turn))
    ensures Take(m, turn).peers.Keys == m.peers.Keys
    ensures turn.event in Take(m, turn).peers[turn.seat].taken
  {
    hide RecordInv, ValidProposal, Settled, Reduce, Advanced, VotesAccounted, Extends;
    var peer := m.peers[turn.seat];
    assert PeerInv(m, turn.seat);
    OfferedIsGood(m, turn);
    EventGood(peer.state, m.ctx, m.proposal, turn.event, turn.admit);
    var w := Reduce(peer.state, m.ctx, turn.event, turn.admit).value;
    AdvancedFacts(peer.state, w, m.ctx, m.proposal, turn.event);
    SettledFacts(peer.state, m.ctx, m.proposal);
    GoodIsHarmless(peer.state, m.ctx, m.proposal, turn.event);
    ReduceKept(peer.state, m.ctx, Every(), turn.event, turn.admit);
    ReduceSends(peer.state, m.ctx, Every(), turn.event, turn.admit);
    ExtendsFacts(peer.state, w.state);
    TakerAccounts(m, turn, w);
    var t := Take(m, turn);
    assert turn.event in peer.taken + [turn.event];
    forall seat | seat in t.peers ensures PeerInv(t, seat) {
      assert PeerInv(m, seat);
      if seat != turn.seat {
        OthersAccount(m, seat, turn.seat, t.peers[turn.seat]);
      }
    }
  }

  lemma ExtendsFacts(s: State, t: State)
    requires Extends(s, t)
    ensures s.seat == t.seat && s.votes <= t.votes && s.proposals <= t.proposals
    ensures forall p :: p in s.proposals ==> p in t.proposals
  {
  }

  lemma {:induction false} TurnsKeep(m: Meeting, turns: seq<Turn>)
    requires MeetingInv(m) && AfterTurns(m, turns).Some?
    ensures MeetingInv(AfterTurns(m, turns).value) && AfterTurns(m, turns).value.peers.Keys == m.peers.Keys
    ensures AfterTurns(m, turns).value.proposal == m.proposal
  {
    hide PeerInv, ValidProposal, Offered, Take;
    if turns != [] {
      TurnsKeep(m, turns[..|turns| - 1]);
      var mid := AfterTurns(m, turns[..|turns| - 1]).value;
      TurnKeeps(mid, turns[|turns| - 1]);
      SameProposal(mid, turns[|turns| - 1]);
    }
  }

  lemma SameProposal(m: Meeting, turn: Turn)
    requires OrderedSeats(m.ctx.voters) && Offered(m, turn)
    ensures Take(m, turn).proposal == m.proposal
  {
  }

  // ---- everyone decides ----

  /** Every voter was handed the proposal, or proposed it, and every vote that another one sent. */
  ghost predicate Delivered(m: Meeting) {
    && (forall i :: i in m.peers ==> exists event :: event in m.peers[i].taken && Proposes(event))
    && forall i, j, v :: i in m.peers && j in m.peers && i != j && BroadcastVote(v) in m.peers[j].sent ==>
         ReceiveVote(v) in m.peers[i].taken
  }

  predicate HasDecided(m: Meeting, seat: Seat)
    requires seat in m.peers
  {
    var peer := m.peers[seat];
    && peer.state.halted.None? && peer.state.decision.Some? && peer.state.decision.value.entry == m.proposal.entry
    && Commit(peer.state.decision.value) in peer.sent
  }

  lemma SameVotes(m: Meeting, i: Seat, j: Seat)
    requires MeetingInv(m) && Delivered(m) && i in m.peers && j in m.peers
    ensures forall v :: v in m.peers[i].state.votes ==> v in m.peers[j].state.votes
  {
    hide RecordInv, ValidProposal, Settled;
    assert PeerInv(m, i) && PeerInv(m, j);
    forall v | v in m.peers[i].state.votes ensures v in m.peers[j].state.votes {
      if v.seat != i {
        assert ReceiveVote(v) in m.peers[i].taken;
        assert PeerInv(m, v.seat);
      }
    }
  }

  lemma HasProposal(m: Meeting, i: Seat)
    requires MeetingInv(m) && Delivered(m) && i in m.peers
    ensures m.proposal in m.peers[i].state.proposals
  {
    hide RecordInv, ValidProposal, Settled, VotesAccounted;
    assert PeerInv(m, i);
    var event :| event in m.peers[i].taken && Proposes(event);
  }

  lemma OwnVoteIsCast(s: State, ctx: Context, p: Proposal, phase: Phase)
    requires OrderedSeats(ctx.voters) && Settled(s, ctx, p) && s.decision.None? && p in s.proposals
      && s.height == ctx.height
    requires phase == Precommit ==> Polka(s, ctx, p)
    ensures Vote(s.seat, ctx.height, 1, phase, Some(p.entry.hash)) in s.votes
  {
    hide RecordInv, Backed, Polka;
    RecordedVotes(s, ctx, Every());
    var own := VoteOf(s.votes, s.seat, s.round, phase);
    assert own.Some?;
    assert own.value in s.votes;
  }

  lemma Undecided(m: Meeting, i: Seat)
    requires MeetingInv(m) && i in m.peers && m.peers[i].state.decision.None?
    ensures var s := m.peers[i].state;
      Settled(s, m.ctx, m.proposal) && s.seat == i && s.height == m.ctx.height && !Backed(s, m.ctx, m.proposal)
  {
    hide RecordInv, ValidProposal, VotesAccounted, Backed, Polka;
    assert PeerInv(m, i);
    RecordedBinding(m.peers[i].state, m.ctx, Every());
  }

  lemma PeerFacts(m: Meeting, i: Seat)
    requires MeetingInv(m) && i in m.peers
    ensures Settled(m.peers[i].state, m.ctx, m.proposal)
    ensures m.peers[i].state.halted.None?
    ensures m.peers[i].state.decision.Some? ==> HasDecided(m, i) && Backed(m.peers[i].state, m.ctx, m.proposal)
  {
    hide RecordInv, ValidProposal, VotesAccounted, Backed, Polka;
    assert PeerInv(m, i);
  }

  lemma QuorumVoted(m: Meeting, s: State, phase: Phase)
    requires OrderedSeats(m.ctx.voters) && |m.peers.Keys| >= m.ctx.Quorum()
    requires forall j :: j in m.peers ==> Vote(j, m.ctx.height, 1, phase, Some(m.proposal.entry.hash)) in s.votes
    ensures QuorumOf(s, m.ctx, 1, phase, Some(m.proposal.entry.hash))
  {
    var backers := Backers(s.votes, 1, phase, Some(m.proposal.entry.hash));
    forall j | j in m.peers.Keys ensures j in backers {
      var vote := Vote(j, m.ctx.height, 1, phase, Some(m.proposal.entry.hash));
      assert vote in s.votes;
    }
    Subset(m.peers.Keys, backers);
  }

  predicate NobodyDecided(m: Meeting) {
    forall i :: i in m.peers ==> m.peers[i].state.decision.None?
  }

  /** While nobody has decided, each of the two votes of every voter has reached every voter. */
  lemma VotesSpread(m: Meeting, phase: Phase, i: Seat)
    requires MeetingInv(m) && Delivered(m) && |m.peers.Keys| >= QuorumSize(|m.ctx.voters|) && NobodyDecided(m)
    requires phase == Precommit ==> forall j :: j in m.peers ==> Polka(m.peers[j].state, m.ctx, m.proposal)
    requires i in m.peers
    ensures QuorumOf(m.peers[i].state, m.ctx, 1, phase, Some(m.proposal.entry.hash))
  {
    hide RecordInv, ValidProposal, PeerInv, Settled, Backed, QuorumOf, Delivered, Polka;
    forall j | j in m.peers
      ensures Vote(j, m.ctx.height, 1, phase, Some(m.proposal.entry.hash)) in m.peers[i].state.votes
    {
      Undecided(m, j);
      HasProposal(m, j);
      OwnVoteIsCast(m.peers[j].state, m.ctx, m.proposal, phase);
      SameVotes(m, j, i);
    }
    QuorumVoted(m, m.peers[i].state, phase);
  }

  lemma RoundOne(m: Meeting, i: Seat)
    requires MeetingInv(m) && i in m.peers
    ensures m.peers[i].state.round == 1
  {
    hide RecordInv, ValidProposal, VotesAccounted, Backed, Polka;
    assert PeerInv(m, i);
  }

  /** All of them cannot be left undecided: all have precommitted, and that is a quorum. */
  lemma SomeoneDecided(m: Meeting)
    requires MeetingInv(m) && Delivered(m) && |m.peers.Keys| >= QuorumSize(|m.ctx.voters|)
    ensures !NobodyDecided(m)
  {
    hide RecordInv, ValidProposal, PeerInv, Settled, QuorumOf, Delivered;
    if NobodyDecided(m) {
      forall j | j in m.peers ensures Polka(m.peers[j].state, m.ctx, m.proposal) {
        VotesSpread(m, Prevote, j);
        RoundOne(m, j);
      }
      assert m.peers.Keys != {};
      var i :| i in m.peers;
      VotesSpread(m, Precommit, i);
      HasProposal(m, i);
      Undecided(m, i);
      assert false;
    }
  }

  /**
   * The voters of a quorum exchange one valid proposal of the first round and their own votes, in any order and with
   * any repetition, and no timeout expires. Once everything sent was handed over, every one of them has decided that
   * proposal and handed out its commit, and none has stopped.
   */
  lemma EveryoneDecides(start: Meeting, turns: seq<Turn>)
    requires Opening(start) && AfterTurns(start, turns).Some? && Delivered(AfterTurns(start, turns).value)
    requires |start.peers.Keys| >= QuorumSize(|start.ctx.voters|)
    ensures AfterTurns(start, turns).value.peers.Keys == start.peers.Keys
    ensures forall i :: i in AfterTurns(start, turns).value.peers ==> HasDecided(AfterTurns(start, turns).value, i)
    ensures AfterTurns(start, turns).value.proposal == start.proposal
  {
    hide RecordInv, ValidProposal, PeerInv, Settled, Backed, Delivered, HasDecided, CreateState;
    OpeningHolds(start);
    TurnsKeep(start, turns);
    var m := AfterTurns(start, turns).value;
    SomeoneDecided(m);
    var i :| i in m.peers && m.peers[i].state.decision.Some?;
    PeerFacts(m, i);
    forall k | k in m.peers ensures HasDecided(m, k) {
      PeerFacts(m, k);
      if m.peers[k].state.decision.None? {
        SameVotes(m, i, k);
        HasProposal(m, k);
        OnlyProposal(m, i);
        BackedGrows(m.peers[i].state, m.peers[k].state, m.ctx, m.proposal);
        Undecided(m, k);
      }
    }
  }

  lemma OnlyProposal(m: Meeting, i: Seat)
    requires MeetingInv(m) && i in m.peers
    ensures forall q :: q in m.peers[i].state.proposals ==> q == m.proposal
  {
    hide RecordInv, ValidProposal, VotesAccounted, Backed, Polka;
    assert PeerInv(m, i);
  }

  /** A voter that was not handed the proposal can be, or its proposer can still propose it. */
  lemma ProposalDue(m: Meeting, i: Seat) returns (turn: Turn)
    requires MeetingInv(m) && i in m.peers && !(exists event :: event in m.peers[i].taken && Proposes(event))
    ensures Offered(m, turn) && turn.event !in m.peers[turn.seat].taken
  {
    hide RecordInv, ValidProposal, VotesAccounted, Settled;
    var p, proposer := m.proposal, m.proposal.entry.sequencer;
    assert Proposes(Propose(Some(p.entry))) && Proposes(ReceiveProposal(p));
    if proposer == i || (proposer in m.peers && BroadcastProposal(p) !in m.peers[proposer].sent) {
      turn := Turn(proposer, Propose(Some(p.entry)), None);
      assert PeerInv(m, proposer);
    } else {
      turn := Turn(i, ReceiveProposal(p), None);
    }
  }

  lemma SentIsOwn(m: Meeting, j: Seat, v: Vote)
    requires MeetingInv(m) && j in m.peers && BroadcastVote(v) in m.peers[j].sent
    ensures v.seat == j
  {
    hide RecordInv, ValidProposal, Settled;
    assert PeerInv(m, j);
  }

  lemma Undelivered(m: Meeting) returns (turn: Turn)
    requires MeetingInv(m) && !Delivered(m)
    ensures Offered(m, turn) && turn.event !in m.peers[turn.seat].taken
  {
    hide RecordInv, ValidProposal, PeerInv;
    if i :| i in m.peers && !(exists event :: event in m.peers[i].taken && Proposes(event)) {
      turn := ProposalDue(m, i);
    } else {
      var i, j, v :| i in m.peers && j in m.peers && i != j && BroadcastVote(v) in m.peers[j].sent
        && ReceiveVote(v) !in m.peers[i].taken;
      turn := Turn(i, ReceiveVote(v), None);
      SentIsOwn(m, j, v);
    }
  }

  /** Until everyone has decided, some voter can be handed something it was not handed yet. */
  lemma NeverStuck(start: Meeting, turns: seq<Turn>, late: Seat) returns (turn: Turn)
    requires Opening(start) && AfterTurns(start, turns).Some?
    requires |start.peers.Keys| >= QuorumSize(|start.ctx.voters|) && late in AfterTurns(start, turns).value.peers
    requires !HasDecided(AfterTurns(start, turns).value, late)
    ensures var m := AfterTurns(start, turns).value;
      Offered(m, turn) && turn.event !in m.peers[turn.seat].taken
  {
    hide RecordInv, ValidProposal, PeerInv, HasDecided, CreateState, Delivered, Offered, AfterTurns, MeetingInv;
    if Delivered(AfterTurns(start, turns).value) {
      EveryoneDecides(start, turns);
    }
    OpeningHolds(start);
    TurnsKeep(start, turns);
    turn := Undelivered(AfterTurns(start, turns).value);
  }
}
