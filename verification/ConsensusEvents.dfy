/** Every event keeps the record invariant; a fresh record has it. */
module ConsensusEvents {
  import opened Results
  import opened Votes
  import opened Proposals
  import opened Consensus
  import opened Transitions
  import opened ConsensusRestore
  import opened ConsensusRecord
  import opened ConsensusSteps
  import opened LockRule

  lemma RunningIsLive(s: State, ctx: Context, known: iset<Vote>)
    requires RecordInv(s, ctx, known) && s.halted.None?
    ensures Live(s)
  {
    RecordedCertificates(s, ctx, known);
  }

  /** What every handler guarantees of the working copy it hands on; only driving takes locks. */
  ghost predicate StagedKept(w: Work, staged: Staged, ctx: Context, known: iset<Vote>) {
    && Kept(w, staged.work, ctx, known)
    && staged.work.state.locked == w.state.locked
    && (staged.ToDrive? ==> Live(staged.work.state))
  }

  lemma NothingNew(w: Work)
    ensures w.effects + [] == w.effects
  {
  }

  lemma InputAvailableKept(w: Work, ctx: Context, known: iset<Vote>)
    requires Good(w, ctx, known)
    ensures StagedKept(w, Done(OnInputAvailable(w, ctx)), ctx, known)
  {
    hide RecordInv;
    var s := w.state;
    if !Finished(s) {
      SetInputKnown(s, ctx, known);
      RecordedTimers(s, ctx, known);
      SetTimers(s.(inputKnown := true), ctx, known, s.timers.(propose := true));
    }
  }

  /** Every vote of another seat inside a delivered proof was signed by that seat. */
  ghost predicate ForeignSigned(proof: seq<Vote>, seat: Seat, height: nat, known: iset<Vote>) {
    forall v :: v in proof && v.seat != seat && v.height == height ==> v in known
  }

  // ---- accusations ----

  lemma SetAccusation(s: State, ctx: Context, known: iset<Vote>, proven: Option<ProvenOffender>,
                      pending: Option<Control>)
    requires RecordInv(s, ctx, known) && AccusationsInv(proven, pending, s.height, s.parentHash, ctx)
    ensures RecordInv(s.(provenOffender := proven, pendingAccusation := pending), ctx, known)
  {
  }

  /** Only the accusation or the halting fields change, and a running record stays running or stops for good. */
  predicate Accused(s: State, t: State) {
    SameOrStopped(s.(provenOffender := t.provenOffender, pendingAccusation := t.pendingAccusation), t)
  }

  lemma SomeExcluded(s: State, ctx: Context, control: Control)
    requires ctx.excluded != []
    ensures ControlFault(s, ctx, control) || control.offender in ctx.excluded
  {
    assert ctx.excluded[0] in ctx.excluded;
  }

  lemma RetainKept(w: Work, ctx: Context, known: iset<Vote>, control: Control)
    requires Good(w, ctx, known) && RetainAccusation(w, ctx, control).Ok?
    ensures Kept(w, RetainAccusation(w, ctx, control).value, ctx, known)
    ensures Accused(w.state, RetainAccusation(w, ctx, control).value.state)
    ensures var t := RetainAccusation(w, ctx, control).value.state;
      if ControlFault(w.state, ctx, control) then t.haltKind == Some(Terminal)
      else Finished(t) || t.pendingAccusation.Some? || control.offender in ctx.excluded
  {
    hide RecordInv;
    var s, t := w.state, RetainAccusation(w, ctx, control).value;
    RecordedBinding(s, ctx, known);
    if ctx.excluded != [] {
      SomeExcluded(s, ctx, control);
    }
    if ControlFault(s, ctx, control) {
      HaltForControlKept(w, ctx, known, control);
    } else if t.state.halted != s.halted {
      HaltKept(w, ctx, known, StaleRecord);
    } else if t.state != s {
      SetAccusation(s, ctx, known, t.state.provenOffender, t.state.pendingAccusation);
      Advance(w, ctx, known, t.state, []);
      NothingNew(w);
    }
  }

  lemma RetainEntryKept(w: Work, ctx: Context, known: iset<Vote>, entry: Entry)
    requires Good(w, ctx, known) && RetainEntryAccusation(w, ctx, entry).Ok?
    ensures Kept(w, RetainEntryAccusation(w, ctx, entry).value, ctx, known)
    ensures Accused(w.state, RetainEntryAccusation(w, ctx, entry).value.state)
    ensures ctx.controlOf(entry.hash).None? ==> RetainEntryAccusation(w, ctx, entry).value == w
  {
    hide RecordInv;
    if ctx.controlOf(entry.hash).Some? {
      RetainKept(w, ctx, known, ctx.controlOf(entry.hash).value);
    }
  }

  lemma ClearStaleKept(w: Work, ctx: Context, known: iset<Vote>)
    requires Good(w, ctx, known)
    ensures StagedKept(w, Done(OnClearStale(w, ctx)), ctx, known)
  {
    hide RecordInv;
    RecordedBinding(w.state, ctx, known);
    var t := OnClearStale(w, ctx).state;
    SetAccusation(w.state, ctx, known, t.provenOffender, t.pendingAccusation);
    Advance(w, ctx, known, t, []);
    NothingNew(w);
  }

  // ---- proposing ----

  lemma {:induction false} NoneSelected(proposals: seq<Proposal>, round: nat)
    requires forall p :: p in proposals ==> p.entry.term != round
    ensures ProposalsAt(proposals, round) == []
  {
    if proposals != [] {
      NoneSelected(proposals[..|proposals| - 1], round);
    }
  }

  /** The elected proposer's first proposal of a round is recorded. */
  lemma OwnProposalRecorded(w: Work, ctx: Context, known: iset<Vote>, p: Proposal)
    requires Good(w, ctx, known) && p.entry.sequencer == w.state.seat && p.entry.height == w.state.height
    requires ProposerFor(w.state.height, p.entry.term, ctx) == Some(w.state.seat)
    requires forall q :: q in w.state.proposals && q.entry.term == p.entry.term ==> q.entry.sequencer != w.state.seat
    ensures p in RecordProposal(w, ctx, p).state.proposals
  {
    hide RecordInv;
    var s := w.state;
    RecordedBinding(s, ctx, known);
    forall q | q in s.proposals ensures q.entry.term != p.entry.term {
      RecordedProposal(s, ctx, known, q);
    }
    NoneSelected(s.proposals, p.entry.term);
  }

  lemma ProposeKept(w: Work, ctx: Context, known: iset<Vote>, candidate: Option<Entry>, admit: Admission)
    requires Good(w, ctx, known) && OnPropose(w, ctx, candidate, admit).Ok?
    ensures StagedKept(w, OnPropose(w, ctx, candidate, admit).value, ctx, known)
  {
    hide RecordInv, Extends, RecordProposal, RetainEntryAccusation, PrevoteProposal, EffectsRecorded, ValidProposal;
    var s := w.state;
    var source := if s.valid.Some? then Some(s.valid.value.proposal.entry) else candidate;
    var quiet := Finished(s) || s.step != AtPropose
      || exists p :: p in s.proposals && p.entry.term == s.round && p.entry.sequencer == s.seat;
    if quiet {
      Extended(w, ctx, known);
    } else {
      var p := OwnProposal(s, source.value);
      var started := w.(state := s.(inputKnown := true));
      KnownKept(w, ctx, known);
      RetainEntryKept(started, ctx, known, p.entry);
      var retained := RetainEntryAccusation(started, ctx, p.entry).value;
      KeptTwice(w, started, retained, ctx, known);
      if !(ctx.controlOf(p.entry.hash).Some? && retained.state.halted.Some?) {
        ProposeRecorded(retained, ctx, known, p, admit);
        KeptTwice(w, retained, OnPropose(w, ctx, candidate, admit).value.work, ctx, known);
      }
    }
  }

  lemma Extended(w: Work, ctx: Context, known: iset<Vote>)
    requires Good(w, ctx, known)
    ensures Kept(w, w, ctx, known)
  {
    hide RecordInv;
  }

  lemma KnownKept(w: Work, ctx: Context, known: iset<Vote>)
    requires Good(w, ctx, known)
    ensures Kept(w, w.(state := w.state.(inputKnown := true)), ctx, known)
  {
    hide RecordInv;
    SetInputKnown(w.state, ctx, known);
  }

  /** The justification of an own proposal is a recorded quorum. */
  lemma OwnProposalInv(s: State, ctx: Context, known: iset<Vote>, p: Proposal)
    requires RecordInv(s, ctx, known) && OrderedSeats(ctx.voters) && ValidProposal(p, ctx) && p.entry.term == s.round
    requires p.prevotes == (if s.valid.Some? then s.valid.value.prevotes else [])
    ensures ProposalInv(p, s.votes, s.round, s.seat, s.height, ctx, known) && p.entry.height == s.height
  {
    hide RecordInv, ValidCertificate, CommitRule, PrevoteRule;
    RecordedBinding(s, ctx, known);
    RecordedQuorums(s, ctx, known);
    RecordedLocks(s, ctx, known);
  }

  lemma ProposeRecorded(w: Work, ctx: Context, known: iset<Vote>, p: Proposal, admit: Admission)
    requires Good(w, ctx, known) && w.state.inputKnown && w.state.halted.None?
    requires ValidProposal(p, ctx) && p.entry.term == w.state.round && p.entry.sequencer == w.state.seat
    requires p.prevotes == (if w.state.valid.Some? then w.state.valid.value.prevotes else [])
    requires forall q :: q in w.state.proposals && q.entry.term == w.state.round ==> q.entry.sequencer != w.state.seat
    ensures StagedKept(w, ToDrive(PrevoteProposal(RecordProposal(w, ctx, p).Emit(BroadcastProposal(p)), p, admit)),
                       ctx, known)
  {
    hide RecordInv, RecordProposal, PrevoteProposal, ValidCertificate;
    RecordedBinding(w.state, ctx, known);
    OwnProposalInv(w.state, ctx, known, p);
    RecordProposalKept(w, ctx, known, p);
    OwnProposalRecorded(w, ctx, known, p);
    var recorded := RecordProposal(w, ctx, p);
    var sent := recorded.Emit(BroadcastProposal(p));
    Advance(recorded, ctx, known, recorded.state, [BroadcastProposal(p)]);
    KeptTwice(w, recorded, sent, ctx, known);
    PrevoteProposalKept(sent, ctx, known, p, admit);
    var prevoted := PrevoteProposal(sent, p, admit);
    KeptTwice(w, sent, prevoted, ctx, known);
    RunningIsLive(prevoted.state, ctx, known);
  }

  /** No proposal is broadcast beside those broadcast so far. */
  predicate NoProposalSent(w: Work, t: Work) {
    forall e :: e in t.effects && e.BroadcastProposal? ==> e in w.effects
  }

  lemma {:induction false} ConflictsSendNone(w: Work, seat: Seat, p: Proposal, sameRound: seq<Proposal>)
    ensures NoProposalSent(w, RecordConflicts(w, seat, p, sameRound))
    decreases |sameRound|
  {
    if sameRound != [] {
      var s, first := w.state, sameRound[0];
      var next := if first.entry.hash != p.entry.hash && !ProposalsNoted(s, seat, p.entry.term) then
                    var evidence := TwoProposals(seat, p.entry.term, first, p);
                    Work(s.(equivocations := s.equivocations + [evidence]), w.effects + [Equivocate(evidence)])
                  else w;
      ConflictsSendNone(next, seat, p, sameRound[1..]);
    }
  }

  lemma RecordSendsNone(w: Work, ctx: Context, p: Proposal)
    ensures NoProposalSent(w, RecordProposal(w, ctx, p))
  {
    hide RecordConflicts;
    ConflictsSendNone(w, p.entry.sequencer, p, ProposalsAt(w.state.proposals, p.entry.term));
  }

  lemma RetainSendsNone(w: Work, ctx: Context, entry: Entry)
    requires RetainEntryAccusation(w, ctx, entry).Ok?
    ensures NoProposalSent(w, RetainEntryAccusation(w, ctx, entry).value)
  {
    hide UnrecordedOwnEvidence, ObjectiveProofParent, ControlFault;
  }

  lemma PrevoteSendsNone(w: Work, p: Proposal, admit: Admission)
    ensures NoProposalSent(w, PrevoteProposal(w, p, admit))
  {
    hide LockAccepts, AdmitsRecorded;
  }

  lemma OnlyOwnSent(w: Work, ctx: Context, candidate: Option<Entry>, admit: Admission, p: Proposal)
    requires OrderedSeats(ctx.voters) && OnPropose(w, ctx, candidate, admit).Ok?
    requires BroadcastProposal(p) in OnPropose(w, ctx, candidate, admit).value.work.effects
    requires BroadcastProposal(p) !in w.effects
    ensures w.state.valid.Some? || candidate.Some?
    ensures p == OwnProposal(w.state,
                             if w.state.valid.Some? then w.state.valid.value.proposal.entry else candidate.value)
    ensures ValidProposal(p, ctx)
  {
    hide RecordProposal, RetainEntryAccusation, PrevoteProposal, ValidProposal, OwnProposal, ProposerFor;
    var s := w.state;
    var source := if s.valid.Some? then Some(s.valid.value.proposal.entry) else candidate;
    var own := OwnProposal(s, source.value);
    var started := w.(state := s.(inputKnown := true));
    RetainSendsNone(started, ctx, own.entry);
    var retained := RetainEntryAccusation(started, ctx, own.entry).value;
    var recorded := RecordProposal(retained, ctx, own);
    RecordSendsNone(retained, ctx, own);
    PrevoteSendsNone(recorded.Emit(BroadcastProposal(own)), own, admit);
  }

  /** One proposal at most is broadcast; it repeats the valid value with its quorum and passes this voter's own lock. */
  lemma ProposesValidValue(w: Work, ctx: Context, known: iset<Vote>, candidate: Option<Entry>, admit: Admission,
                           p: Proposal)
    requires Good(w, ctx, known) && OnPropose(w, ctx, candidate, admit).Ok?
    requires BroadcastProposal(p) in OnPropose(w, ctx, candidate, admit).value.work.effects
    requires BroadcastProposal(p) !in w.effects
    ensures ValidProposal(p, ctx) && p.entry.term == w.state.round && p.entry.sequencer == w.state.seat
    ensures match w.state.valid
      case Some(v) => p.entry.hash == v.hash && p.validRound == Some(v.round) && p.prevotes == v.prevotes
      case None => candidate.Some? && p.entry.hash == candidate.value.hash && p.prevotes == []
    ensures LockAccepts(w.state, p)
  {
    hide RecordInv, OnPropose, ValidProposal, EffectsRecorded;
    RecordedQuorums(w.state, ctx, known);
    OnlyOwnSent(w, ctx, candidate, admit, p);
  }

  // ---- proposals from others ----

  lemma RejectedKept(w: Work, ctx: Context, known: iset<Vote>, p: Proposal)
    requires Good(w, ctx, known) && OnRejectedProposal(w, ctx, p).Ok?
    ensures StagedKept(w, OnRejectedProposal(w, ctx, p).value, ctx, known)
  {
    hide RecordInv;
    HaltForControlKept(w, ctx, known, ctx.controlOf(p.entry.hash).value);
  }

  /** What the checks before acceptance establish. */
  ghost predicate Acceptable(s: State, ctx: Context, known: iset<Vote>, p: Proposal)
    requires OrderedSeats(ctx.voters)
  {
    && ValidProposal(p, ctx) && Grounded(p.prevotes, s.votes, s.seat, s.height, known)
    && s.inputKnown && s.halted.None?
    && (p.entry.sequencer == s.seat ==> ProposalAt(s.proposals, p.entry.term, p.entry.hash).Some?)
  }

  lemma HintProposalKept(w: Work, ctx: Context, known: iset<Vote>, p: Proposal)
    requires Good(w, ctx, known) && Acceptable(w.state, ctx, known, p)
    ensures Kept(w, HintProposal(w, ctx, p), ctx, known) && HintProposal(w, ctx, p).state.locked == w.state.locked
    ensures Acceptable(HintProposal(w, ctx, p).state, ctx, known, p)
  {
    hide RecordInv, ValidProposal, EnterRound;
    var s, round := w.state, p.entry.term;
    if round > s.round {
      if p.entry.sequencer == s.seat {
        RecordedProposal(s, ctx, known, ProposalAt(s.proposals, round, p.entry.hash).value);
      }
      var hint := ProposalHint(p.entry.sequencer, round, p);
      AddHintKept(w, ctx, known, hint);
      var hinted := w.(state := s.(hints := AddHint(s.hints, hint)));
      MaybeJumpKept(hinted, ctx, known);
      KeptTwice(w, hinted, MaybeJump(hinted, ctx), ctx, known);
    } else {
      Extended(w, ctx, known);
    }
  }

  lemma AcceptProposalKept(w: Work, ctx: Context, known: iset<Vote>, p: Proposal, admit: Admission)
    requires Good(w, ctx, known) && Acceptable(w.state, ctx, known, p)
    ensures StagedKept(w, AcceptProposal(w, ctx, p, admit), ctx, known)
  {
    hide RecordInv, EffectsRecorded, HintProposal, RecordProposal, PrevoteProposal, HaltIfFaultThresholdExceeded,
      ValidProposal;
    HintProposalKept(w, ctx, known, p);
    var hinted := HintProposal(w, ctx, p);
    if p.entry.term <= hinted.state.round {
      RecordProposalKept(hinted, ctx, known, p);
      var recorded := RecordProposal(hinted, ctx, p);
      KeptTwice(w, hinted, recorded, ctx, known);
      ThresholdKept(recorded, ctx, known);
      var checked := HaltIfFaultThresholdExceeded(recorded, ctx);
      KeptTwice(w, recorded, checked, ctx, known);
      if checked.state.halted.None? {
        PrevoteProposalKept(checked, ctx, known, p, admit);
        var prevoted := PrevoteProposal(checked, p, admit);
        KeptTwice(w, checked, prevoted, ctx, known);
        RunningIsLive(checked.state, ctx, known);
        RunningIsLive(prevoted.state, ctx, known);
      }
    }
  }

  /** Own proposals are never among the hints, so a known one is in the record. */
  lemma KnownOwnProposal(s: State, ctx: Context, known: iset<Vote>, p: Proposal)
    requires RecordInv(s, ctx, known) && OrderedSeats(ctx.voters) && ValidProposal(p, ctx)
    requires p.entry.sequencer == s.seat && !UnrecordedOwnProposal(s, p)
    ensures ProposalAt(s.proposals, p.entry.term, p.entry.hash).Some?
  {
    hide RecordInv;
    if ProposalAt(s.proposals, p.entry.term, p.entry.hash).None? {
      var h :| h in s.hints && h.ProposalHint? && h.round == p.entry.term && h.proposal.entry.hash == p.entry.hash;
      RecordedHint(s, ctx, known, h);
      assert false;
    }
  }

  lemma ProposalKept(w: Work, ctx: Context, known: iset<Vote>, p: Proposal, admit: Admission)
    requires Good(w, ctx, known) && OnProposal(w, ctx, p, admit).Ok?
    requires ForeignSigned(p.prevotes, w.state.seat, w.state.height, known)
    ensures StagedKept(w, OnProposal(w, ctx, p, admit).value, ctx, known)
  {
    hide RecordInv, EffectsRecorded, AcceptProposal, RetainEntryAccusation, ValidProposal, OnRejectedProposal;
    if !ValidProposal(p, ctx) {
      RejectedKept(w, ctx, known, p);
    } else {
      RetainEntryKept(w, ctx, known, p.entry);
      var retained := RetainEntryAccusation(w, ctx, p.entry).value;
      var s := retained.state;
      HaltKept(retained, ctx, known, StaleRecord);
      KeptTwice(w, retained, Halt(retained, StaleRecord), ctx, known);
      if s.halted.None? && !UnrecordedOwnVote(s, p.prevotes) && !UnrecordedOwnProposal(s, p) {
        if p.entry.sequencer == s.seat {
          KnownOwnProposal(s, ctx, known, p);
        }
        var started := retained.(state := s.(inputKnown := true));
        KnownKept(retained, ctx, known);
        KeptTwice(w, retained, started, ctx, known);
        AcceptProposalKept(started, ctx, known, p, admit);
        KeptTwice(w, started, AcceptProposal(started, ctx, p, admit).work, ctx, known);
      }
    }
  }

  // ---- votes, certificates and timeouts ----

  lemma HintVoteKept(w: Work, ctx: Context, known: iset<Vote>, vote: Vote)
    requires Good(w, ctx, known) && ValidVote(vote, ctx.voters) && vote.height == w.state.height
    requires if vote.seat == w.state.seat then vote in w.state.votes else vote in known
    ensures Kept(w, HintVote(w, ctx, vote), ctx, known)
    ensures HintVote(w, ctx, vote).state.halted == w.state.halted
      && HintVote(w, ctx, vote).state.locked == w.state.locked
  {
    hide RecordInv, EnterRound;
    var s := w.state;
    if vote.term > s.round {
      RecordedVotes(s, ctx, known);
      var hint := VoteHint(vote.seat, vote.term, vote);
      AddHintKept(w, ctx, known, hint);
      var hinted := w.(state := s.(hints := AddHint(s.hints, hint)));
      MaybeJumpKept(hinted, ctx, known);
      KeptTwice(w, hinted, MaybeJump(hinted, ctx), ctx, known);
    } else {
      Extended(w, ctx, known);
    }
  }

  lemma VoteKept(w: Work, ctx: Context, known: iset<Vote>, vote: Vote)
    requires Good(w, ctx, known) && OnVote(w, ctx, vote).Ok?
    requires ForeignSigned([vote], w.state.seat, w.state.height, known)
    ensures StagedKept(w, OnVote(w, ctx, vote).value, ctx, known)
  {
    hide RecordInv, EffectsRecorded, HintVote, RecordVote, HaltIfFaultThresholdExceeded;
    HaltKept(w, ctx, known, StaleRecord);
    Extended(w, ctx, known);
    if !UnrecordedOwnBallot(w.state, vote) && w.state.halted.None? {
      HintVoteKept(w, ctx, known, vote);
      var hinted := HintVote(w, ctx, vote);
      if vote.term <= hinted.state.round {
        RecordVoteKept(hinted, ctx, known, vote);
        var recorded := RecordVote(hinted, vote);
        KeptTwice(w, hinted, recorded, ctx, known);
        ThresholdKept(recorded, ctx, known);
        var checked := HaltIfFaultThresholdExceeded(recorded, ctx);
        KeptTwice(w, recorded, checked, ctx, known);
        if checked.state.halted.None? {
          RunningIsLive(checked.state, ctx, known);
        }
      }
    }
  }

  /** An authentic certificate for an invalid value must not meet a running, decided record. */
  predicate CommitHarmless(s: State, ctx: Context, certified: CertifiedEntry)
    requires OrderedSeats(ctx.voters)
  {
    AuthenticCertified(certified, ctx) && certified.entry.height == ctx.height && !ValidCertified(certified, ctx) ==>
      s.decision.None? || s.halted.Some?
  }

  lemma SetUnapplied(s: State, ctx: Context, known: iset<Vote>, certified: CertifiedEntry)
    requires RecordInv(s, ctx, known) && OrderedSeats(ctx.voters) && s.halted.None? && s.decision.None?
    requires AuthenticCertified(certified, ctx) && certified.entry.height == s.height
    requires OwnEntryRecorded(Some(certified), s.proposals, s.seat)
      && Grounded(certified.certificate, s.votes, s.seat, s.height, known)
    ensures RecordInv(s.(halted := Some(InvalidCertifiedValue), haltKind := Some(CertifiedValidation),
                         unapplied := Some(certified)), ctx, known)
  {
  }

  lemma CommitKept(w: Work, ctx: Context, known: iset<Vote>, certified: CertifiedEntry)
    requires Good(w, ctx, known) && OnCommit(w, ctx, certified).Ok?
    requires CommitHarmless(w.state, ctx, certified)
    requires ForeignSigned(certified.certificate, w.state.seat, w.state.height, known)
    ensures StagedKept(w, Done(OnCommit(w, ctx, certified).value), ctx, known)
  {
    hide RecordInv, ValidCertified, AuthenticCertified, ValidCertificate;
    var s, entry := w.state, certified.entry;
    RecordedBinding(s, ctx, known);
    HaltKept(w, ctx, known, StaleRecord);
    HaltKept(w, ctx, known, ConflictingCertificates);
    Extended(w, ctx, known);
    if !UnrecordedOwnVote(s, certified.certificate) && !UnrecordedOwnEntry(s, entry) {
      if !ValidCertified(certified, ctx) {
        if s.halted.None? {
          SetUnapplied(s, ctx, known, certified);
        }
      } else if EntryControlFault(s, ctx, entry) {
        HaltForControlKept(w, ctx, known, ctx.controlOf(entry.hash).value);
      } else if s.decision.None? && s.halted.None? {
        RunningIsLive(s, ctx, known);
        SetDecision(s, ctx, known, certified);
        Advance(w, ctx, known, s.(decision := Some(certified)), [Commit(certified)]);
      }
    }
  }

  lemma SetResumed(s: State, ctx: Context, known: iset<Vote>)
    requires RecordInv(s, ctx, known) && OrderedSeats(ctx.voters) && s.haltKind == Some(CertifiedValidation)
      && s.unapplied.Some?
    requires ValidCertified(s.unapplied.value, ctx)
    ensures RecordInv(s.(decision := s.unapplied, halted := None, haltKind := None, unapplied := None), ctx, known)
    ensures s.decision.None?
  {
  }

  lemma ResumeKept(w: Work, ctx: Context, known: iset<Vote>)
    requires Good(w, ctx, known) && OnResume(w, ctx).Ok?
    ensures StagedKept(w, Done(OnResume(w, ctx).value), ctx, known)
  {
    hide RecordInv, ValidCertified, RestoreState;
    ResumesItself(w, ctx);
    var s := w.state;
    if EntryControlFault(s, ctx, s.unapplied.value.entry) {
      HaltForControlKept(w, ctx, known, ctx.controlOf(s.unapplied.value.entry.hash).value);
    } else {
      SetResumed(s, ctx, known);
    }
  }

  lemma TimeoutKept(w: Work, ctx: Context, known: iset<Vote>, phase: Step, round: nat)
    requires Good(w, ctx, known)
    ensures StagedKept(w, OnTimeout(w, ctx, phase, round), ctx, known)
  {
    hide RecordInv, EffectsRecorded, EnterRound, SignLocalVote, Permitted;
    var s := w.state;
    Extended(w, ctx, known);
    if !Finished(s) && round == s.round && TimerOf(s.timers, phase) {
      NilIsPermitted(s, ctx, known, Prevote);
      NilIsPermitted(s, ctx, known, Precommit);
      RunningIsLive(s, ctx, known);
      if phase == AtPrecommit {
        EnterRoundKept(w, ctx, known, s.round + 1);
      } else if s.step == AtPropose {
        SignKept(w, ctx, known, Prevote, None, None);
        var prevoted := SignLocalVote(w, Prevote, None, None);
        NilIsPermitted(prevoted.state, ctx, known, Precommit);
        SignKept(prevoted, ctx, known, Precommit, None, None);
        KeptTwice(w, prevoted, SignLocalVote(prevoted, Precommit, None, None), ctx, known);
      } else if s.step == AtPrevote {
        SignKept(w, ctx, known, Precommit, None, None);
      }
    }
  }

  // ---- all events ----

  predicate EventHarmless(s: State, ctx: Context, event: Event)
    requires OrderedSeats(ctx.voters)
  {
    event.ReceiveCommit? ==> CommitHarmless(s, ctx, event.certified)
  }

  /** A delivered event carries only votes that were signed. */
  ghost predicate EventSigned(s: State, event: Event, known: iset<Vote>) {
    ForeignSigned(EventVotes(event), s.seat, s.height, known)
  }

  lemma StageKept(s: State, ctx: Context, known: iset<Vote>, event: Event, admit: Admission)
    requires OrderedSeats(ctx.voters) && RecordInv(s, ctx, known) && EventHarmless(s, ctx, event)
      && EventSigned(s, event, known)
    requires Stage(s, ctx, event, admit).Ok?
    ensures StagedKept(Work(s, []), Stage(s, ctx, event, admit).value, ctx, known)
  {
    hide RecordInv, Extends, OnInputAvailable, OnPropose, OnProposal, OnVote, OnCommit, RetainAccusation, OnClearStale,
      Halt,
      OnResume, OnTimeout;
    var w := Work(s, []);
    match event {
      case InputAvailable => InputAvailableKept(w, ctx, known);
      case Propose(candidate) => ProposeKept(w, ctx, known, candidate, admit);
      case ReceiveProposal(proposal) => ProposalKept(w, ctx, known, proposal, admit);
      case ReceiveVote(vote) => VoteKept(w, ctx, known, vote);
      case ReceiveCommit(certified) => CommitKept(w, ctx, known, certified);
      case StageAccusation(control) => RetainKept(w, ctx, known, control);
      case ClearStaleAccusation => ClearStaleKept(w, ctx, known);
      case TerminalHalt(reason) => HaltKept(w, ctx, known, reason);
      case ResumeAfterReplay => ResumeKept(w, ctx, known);
      case Timeout(phase, round) => TimeoutKept(w, ctx, known, phase, round);
    }
  }

  /** Every accepted event keeps the record invariant, drops nothing and broadcasts only what it records. */
  lemma ReduceKept(s: State, ctx: Context, known: iset<Vote>, event: Event, admit: Admission)
    requires OrderedSeats(ctx.voters) && RecordInv(s, ctx, known) && EventHarmless(s, ctx, event)
      && EventSigned(s, event, known)
    requires Reduce(s, ctx, event, admit).Ok?
    ensures var t := Reduce(s, ctx, event, admit).value;
            RecordInv(t.state, ctx, known) && Extends(s, t.state) && EffectsRecorded(t.effects, t.state)
  {
    hide RecordInv, Extends, Stage, Drive;
    StageKept(s, ctx, known, event, admit);
    var staged := Stage(s, ctx, event, admit).value;
    if staged.ToDrive? {
      DriveKept(staged.work, ctx, known, admit);
      KeptTwice(Work(s, []), staged.work, Drive(staged.work, ctx, admit), ctx, known);
    }
  }

  lemma FreshRecord(ctx: Context, known: iset<Vote>, seat: Seat, proven: Option<ProvenOffender>,
                    pending: Option<Control>)
    requires ctx.WellFormed() && seat in ctx.voters && AccusationsInv(proven, pending, ctx.height, ctx.parentHash, ctx)
    ensures RecordInv(FreshState(ctx, seat, proven, pending), ctx, known)
  {
    hide AccusationsInv;
    assert forall round: nat :: ProposalsAt([], round) == [];
    assert FewPerRound(FreshState(ctx, seat, proven, pending).proposals);
  }

  /** A fresh record of a new height has the invariant, whatever accusation the height before carries into it. */
  lemma CreatedRecord(ctx: Context, known: iset<Vote>, seat: Seat, proven: Option<ProvenOffender>,
                      pending: Option<Control>)
    requires CreateState(ctx, seat, proven, pending).Ok?
    requires proven.Some? ==> proven.value.atHeight < ctx.height
    requires proven.Some? && pending.None? ==> ctx.excluded != []
    ensures RecordInv(CreateState(ctx, seat, proven, pending).value, ctx, known)
    ensures CreateState(ctx, seat, proven, pending).value.votes == []
  {
    hide RecordInv;
    var blank := Work(FreshState(ctx, seat, proven, pending), []);
    FreshRecord(ctx, known, seat, proven, pending);
    if proven.Some? {
      HaltForControlKept(blank, ctx, known, proven.value.control);
    }
    var checked := if proven.Some? then Work(HaltForControl(blank, ctx, proven.value.control).state, []) else blank;
    TerminalFaultKept(checked, ctx, known, LocalKeyImplicated);
  }
}
