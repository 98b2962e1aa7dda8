/** When a record written by the reducer passes the checks of its own restart. */
module ConsensusLocks {
  import opened Results
  import opened Votes
  import opened Proposals
  import opened Consensus
  import opened Transitions
  import opened ConsensusRestore
  import opened ConsensusRecord
  import opened ConsensusSteps
  import opened ConsensusEvents
  import opened LockRule

  // ---- what restarting needs beyond the record invariant ----

  lemma LockedCommitIsLatest(s: State, ctx: Context, known: iset<Vote>)
    requires RecordInv(s, ctx, known) && LockIsVoted(s)
    ensures LatestCommitIsLocked(s)
  {
    hide RecordInv;
    RecordedLocks(s, ctx, known);
    var latest := LatestOwnCommit(s.seat, s.votes);
    if latest.Some? {
      var v :| v in s.votes && IsOwnCommit(v, s.seat) && v.term == s.locked.value.round
        && v.value == Some(s.locked.value.hash);
      assert v.term <= latest.value.term <= s.locked.value.round;
    }
  }

  lemma NoUnrecordedOwnVote(s: State, ctx: Context, known: iset<Vote>)
    requires RecordInv(s, ctx, known)
    ensures !UnrecordedOwnVote(s, ReferencedVotes(s))
  {
    hide ValidProposal, ValidCertificate, ValidHint, ValidEquivocation, ValidCertified, CommitRule, PrevoteRule,
      FewPerRound;
    forall v | v in ReferencedVotes(s) && v.seat == s.seat && v.height == s.height ensures v in s.votes {
      if v in PrevotesOf(s.proposals) {
        var p :| p in s.proposals && v in p.prevotes;
        assert ProposalInv(p, s.votes, s.round, s.seat, s.height, ctx, known);
      } else if v in HintsVotes(s.hints) {
        var h :| h in s.hints && v in HintVotes(h);
        assert HintInv(h, s.votes, s.round, s.seat, s.height, ctx, known);
      } else if v in EquivocationsVotes(s.equivocations) {
        var e :| e in s.equivocations && v in EquivocationVotes(e);
        assert EvidenceInv(e, s.votes, s.seat, s.height, ctx, known);
      }
    }
  }

  lemma StoredPartsPass(s: State, ctx: Context, known: iset<Vote>)
    requires RecordInv(s, ctx, known)
    ensures OrderedSeats(ctx.voters)
    ensures StoredProposals(s, ctx) && StoredVotes(s, ctx) && UniqueVotes(s.votes) && StoredHints(s, ctx)
    ensures StoredQuorumValues(s, ctx) && ValidCoversLock(s) && OwnProposalsUnique(s)
    ensures StoredEquivocations(s, ctx)
  {
    hide ValidProposal, ValidCertificate, ValidHint, ValidEquivocation, ValidCertified, CommitRule, PrevoteRule,
      Grounded;
    forall p | p in s.proposals
      ensures ValidProposal(p, ctx) && p.entry.term <= s.round && |ProposalsAt(s.proposals, p.entry.term)| <= 2
    {
      assert ProposalInv(p, s.votes, s.round, s.seat, s.height, ctx, known);
    }
    forall h | h in s.hints ensures ValidHint(h, s.round, s.height, ctx) {
      assert HintInv(h, s.votes, s.round, s.seat, s.height, ctx, known);
    }
    forall e | e in s.equivocations ensures ValidEquivocation(e, s.height, ctx) {
      assert EvidenceInv(e, s.votes, s.seat, s.height, ctx, known);
    }
  }

  lemma StoredStepPasses(s: State, ctx: Context, known: iset<Vote>)
    requires RecordInv(s, ctx, known)
    ensures OrderedSeats(ctx.voters) && StepMatchesVotes(s) && TimersBacked(s, ctx) && StoredCertificates(s, ctx)
      && StoredAccusations(s, ctx)
  {
    hide ValidProposal, ValidCertificate, ValidHint, ValidEquivocation, ValidCertified, AuthenticCertified, CommitRule,
      PrevoteRule, Grounded,
      ProposalsInv, HintsInv, EvidencesInv, VotesInv, QuorumInv, ObjectiveProofParent;
  }

  /** A record with the invariant can be restored exactly when its lock has its own precommit. */
  lemma RestorableIffLockVoted(s: State, ctx: Context, known: iset<Vote>)
    requires RecordInv(s, ctx, known)
    ensures OrderedSeats(ctx.voters)
    ensures RestoreState(s, ctx, s.seat).Ok? <==> LockIsVoted(s)
  {
    hide RecordInv, StoredProposals, StoredVotes, UniqueVotes, StoredHints, StoredQuorumValues, ValidCoversLock,
      OwnProposalsUnique,
      StoredEquivocations, StepMatchesVotes, TimersBacked, StoredCertificates, StoredAccusations, UnrecordedOwnVote,
        LockIsVoted, LatestCommitIsLocked;
    RecordedBinding(s, ctx, known);
    StoredPartsPass(s, ctx, known);
    StoredStepPasses(s, ctx, known);
    NoUnrecordedOwnVote(s, ctx, known);
    if LockIsVoted(s) {
      LockedCommitIsLatest(s, ctx, known);
    }
  }

  // ---- the branch that can break it ----

  /** The lock branch fires for this proposal and the local policy turns the precommit nil. */
  predicate RefusesLock(w: Work, ctx: Context, p: Proposal, admit: Admission)
    requires OrderedSeats(ctx.voters)
  {
    var s := w.state;
    && QuorumFor(s, ctx, s.round, Prevote, Some(p.entry.hash)).Some?
    && s.step == AtPrevote && OwnVote(s, Precommit).None?
    && admit.Some? && !AdmitsRecorded(s, p.entry.hash, admit.value)
  }

  predicate RefusesLocks(w: Work, ctx: Context, proposals: seq<Proposal>, admit: Admission)
    requires OrderedSeats(ctx.voters)
    decreases |proposals|
  {
    && proposals != []
    && (RefusesLock(w, ctx, proposals[0], admit)
        || RefusesLocks(LockValue(w, ctx, proposals[0], admit), ctx, proposals[1..], admit))
  }

  predicate DriveRefuses(w: Work, ctx: Context, admit: Admission)
    requires OrderedSeats(ctx.voters)
  {
    var first := MaybeCommit(w, ctx);
    && !Finished(first.state)
    && var prevoted := PrevoteWaiting(first, admit);
       RefusesLocks(prevoted, ctx, ProposalsAt(prevoted.state.proposals, prevoted.state.round), admit)
  }

  /** An unchanged lock stays voted: votes are never dropped. */
  lemma LockStaysVoted(s: State, t: State)
    requires LockIsVoted(s) && Extends(s, t) && s.locked == t.locked
    ensures LockIsVoted(t)
  {
  }

  /** A lock just taken in this round is voted exactly when the precommit that follows is not nil. */
  lemma FreshLockVoted(s: State, t: State, ctx: Context, known: iset<Vote>, vote: Vote)
    requires RecordInv(s, ctx, known) && s.step == AtPrevote
    requires vote.seat == s.seat && vote.term == s.round && vote.phase == Precommit
    requires t.votes == s.votes + [vote] && t.seat == s.seat
    requires t.locked.Some? && t.locked.value.round == s.round
      && (vote.value.Some? ==> vote.value.value == t.locked.value.hash)
    ensures LockIsVoted(t) <==> vote.value.Some?
  {
    hide RecordInv;
    RecordedVotes(s, ctx, known);
    assert vote in t.votes;
    forall v | v in s.votes && IsOwnCommit(v, s.seat) ensures v.term != s.round {
    }
  }

  lemma LockValueVoted(w: Work, ctx: Context, known: iset<Vote>, p: Proposal, admit: Admission)
    requires Good(w, ctx, known) && p in w.state.proposals && p.entry.term == w.state.round && LockIsVoted(w.state)
    ensures LockIsVoted(LockValue(w, ctx, p, admit).state) <==> !RefusesLock(w, ctx, p, admit)
    ensures RefusesLock(w, ctx, p, admit) ==> LockValue(w, ctx, p, admit).state.step == AtPrecommit
  {
    hide RecordInv, QuorumFor, LockIsVoted, EffectsRecorded;
    var s, t := w.state, LockValue(w, ctx, p, admit).state;
    if && s.step == AtPrevote && OwnVote(s, Precommit).None?
       && QuorumFor(s, ctx, s.round, Prevote, Some(p.entry.hash)).Some? {
      var vote := t.votes[|t.votes| - 1];
      FreshLockVoted(s, t, ctx, known, vote);
    } else {
      SameLock(s, t);
    }
  }

  /** Once this round's precommit is signed, neither votes nor lock change any more. */
  lemma {:induction false} LockValuesIdle(w: Work, ctx: Context, proposals: seq<Proposal>, admit: Admission)
    requires OrderedSeats(ctx.voters) && w.state.step == AtPrecommit
    ensures var t := LockValues(w, ctx, proposals, admit).state;
            t.votes == w.state.votes && t.locked == w.state.locked && t.seat == w.state.seat && t.step == AtPrecommit
    decreases |proposals|
  {
    if proposals != [] {
      LockValuesIdle(LockValue(w, ctx, proposals[0], admit), ctx, proposals[1..], admit);
    }
  }

  lemma {:induction false} LockValuesVoted(w: Work, ctx: Context, known: iset<Vote>, proposals: seq<Proposal>,
                                           admit: Admission)
    requires Good(w, ctx, known) && LockIsVoted(w.state)
    requires forall p :: p in proposals ==> p in w.state.proposals && p.entry.term == w.state.round
    ensures LockIsVoted(LockValues(w, ctx, proposals, admit).state) <==> !RefusesLocks(w, ctx, proposals, admit)
    ensures RefusesLocks(w, ctx, proposals, admit) ==> LockValues(w, ctx, proposals, admit).state.step == AtPrecommit
    decreases |proposals|
  {
    hide RecordInv, LockValue, RefusesLock, LockIsVoted;
    if proposals != [] {
      assert proposals[0] in proposals;
      var next := LockValue(w, ctx, proposals[0], admit);
      LockValueKept(w, ctx, known, proposals[0], admit);
      LockValueVoted(w, ctx, known, proposals[0], admit);
      if RefusesLock(w, ctx, proposals[0], admit) {
        LockValuesIdle(next, ctx, proposals[1..], admit);
        SameLock(next.state, LockValues(w, ctx, proposals, admit).state);
      } else {
        LockValuesVoted(next, ctx, known, proposals[1..], admit);
      }
    }
  }

  lemma SameLock(s: State, t: State)
    requires s.votes == t.votes && s.locked == t.locked && s.seat == t.seat
    ensures LockIsVoted(s) <==> LockIsVoted(t)
  {
  }

  lemma NilKeepsLock(w: Work, ctx: Context)
    requires OrderedSeats(ctx.voters)
    ensures LockIsVoted(PrecommitNil(w, ctx).state) <==> LockIsVoted(w.state)
  {
    var s, t := w.state, PrecommitNil(w, ctx).state;
    if t.votes != s.votes {
      var vote := t.votes[|t.votes| - 1];
      assert t.votes == s.votes + [vote];
      assert forall v :: IsOwnCommit(v, s.seat) ==> (v in s.votes <==> v in t.votes);
    }
  }

  /** Drive leaves a restorable lock exactly when no lock of this round was refused. */
  lemma DriveVoted(w: Work, ctx: Context, known: iset<Vote>, admit: Admission)
    requires Good(w, ctx, known) && Live(w.state) && LockIsVoted(w.state)
    ensures LockIsVoted(Drive(w, ctx, admit).state) <==> !DriveRefuses(w, ctx, admit)
  {
    hide RecordInv, LockIsVoted, EffectsRecorded, Extends, MaybeCommit, PrevoteWaiting, LockValues, PrecommitNil,
      RefusesLocks;
    MaybeCommitKept(w, ctx, known);
    var first := MaybeCommit(w, ctx);
    SameLock(w.state, first.state);
    if !Finished(first.state) {
      PrevoteWaitingKept(first, ctx, known, admit);
      var prevoted := PrevoteWaiting(first, admit);
      LockStaysVoted(first.state, prevoted.state);
      var waiting := ProposalsAt(prevoted.state.proposals, prevoted.state.round);
      LockValuesKept(prevoted, ctx, known, waiting, admit);
      LockValuesVoted(prevoted, ctx, known, waiting, admit);
      var locked := LockValues(prevoted, ctx, waiting, admit);
      NilKeepsLock(locked, ctx);
      PrecommitNilKept(locked, ctx, known);
      var precommitted := PrecommitNil(locked, ctx);
      ArmTimersKept(precommitted, ctx, known);
      var armed := ArmTimers(precommitted, ctx);
      SameLock(precommitted.state, armed.state);
      MaybeCommitKept(armed, ctx, known);
      SameLock(armed.state, MaybeCommit(armed, ctx).state);
    }
  }

  /** The event drives the record, and the drive refuses a lock. */
  predicate EventRefuses(s: State, ctx: Context, event: Event, admit: Admission)
    requires OrderedSeats(ctx.voters)
  {
    var staged := Stage(s, ctx, event, admit);
    staged.Ok? && staged.value.ToDrive? && DriveRefuses(staged.value.work, ctx, admit)
  }

  /**
   * One event leaves a restorable record restorable exactly when the local policy does not refuse
   * a value that a prevote quorum makes this voter lock.
   */
  lemma StepRestorable(s: State, ctx: Context, known: iset<Vote>, event: Event, admit: Admission)
    requires OrderedSeats(ctx.voters) && RecordInv(s, ctx, known) && EventHarmless(s, ctx, event)
      && EventSigned(s, event, known)
    requires RestoreState(s, ctx, s.seat).Ok? && Reduce(s, ctx, event, admit).Ok?
    ensures var t := Reduce(s, ctx, event, admit).value.state;
            RestoreState(t, ctx, t.seat).Ok? <==> !EventRefuses(s, ctx, event, admit)
  {
    hide RecordInv, Stage, Drive, LockIsVoted, DriveRefuses, RestoreState;
    StageKept(s, ctx, known, event, admit);
    ReduceKept(s, ctx, known, event, admit);
    var staged := Stage(s, ctx, event, admit).value;
    var t := Reduce(s, ctx, event, admit).value.state;
    RestorableIffLockVoted(s, ctx, known);
    RestorableIffLockVoted(t, ctx, known);
    LockStaysVoted(s, staged.work.state);
    if staged.ToDrive? {
      DriveVoted(staged.work, ctx, known, admit);
    }
  }

  /** Without a local policy no lock is ever refused. */
  lemma {:induction false} NoPolicyNoRefusal(w: Work, ctx: Context, proposals: seq<Proposal>)
    requires OrderedSeats(ctx.voters)
    ensures !RefusesLocks(w, ctx, proposals, None)
    decreases |proposals|
  {
    if proposals != [] {
      NoPolicyNoRefusal(LockValue(w, ctx, proposals[0], None), ctx, proposals[1..]);
    }
  }

  lemma NoPolicyRestores(s: State, ctx: Context, event: Event)
    requires OrderedSeats(ctx.voters)
    ensures !EventRefuses(s, ctx, event, None)
  {
    hide Stage, MaybeCommit, PrevoteWaiting, RefusesLocks;
    var staged := Stage(s, ctx, event, None);
    if staged.Ok? && staged.value.ToDrive? {
      var prevoted := PrevoteWaiting(MaybeCommit(staged.value.work, ctx), None);
      NoPolicyNoRefusal(prevoted, ctx, ProposalsAt(prevoted.state.proposals, prevoted.state.round));
    }
  }
}
