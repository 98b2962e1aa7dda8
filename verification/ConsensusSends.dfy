/**
 * Signing is sending: one transition broadcasts exactly the own votes that it adds to the record
 * (packages/protocol/src/consensus.ts).
 */
module ConsensusSends {
  import opened Results
  import opened Votes
  import opened Proposals
  import opened Consensus
  import opened ConsensusRestore
  import opened Transitions
  import opened ConsensusRecord
  import opened LockRule
  import opened ConsensusSteps
  import opened ConsensusEvents
  import opened ConsensusDecides

  /** What is sent on the way from `w` to `t` is exactly what this voter signed on the way. */
  predicate Grows(w: Work, t: Work) {
    && w.effects <= t.effects && w.state.votes <= t.state.votes && t.state.seat == w.state.seat
  }

  ghost predicate SendsSigned(w: Work, t: Work) {
    && Grows(w, t)
    && forall v :: BroadcastVote(v) in NewEffects(w, t)
         <==> v.seat == w.state.seat && v in t.state.votes && v !in w.state.votes
  }

  /** No own vote is signed and none is sent. */
  predicate Quiet(w: Work, t: Work) {
    && Grows(w, t)
    && (forall e :: e in NewEffects(w, t) ==> !e.BroadcastVote?)
    && forall v :: v in t.state.votes && v.seat == w.state.seat ==> v in w.state.votes
  }

  lemma QuietSends(w: Work, t: Work)
    requires Quiet(w, t)
    ensures SendsSigned(w, t)
  {
  }

  lemma QuietTwice(w: Work, u: Work, t: Work)
    requires Quiet(w, u) && Quiet(u, t)
    ensures Quiet(w, t)
  {
    EffectsCompose(w, u, t);
  }

  lemma SendsTwice(w: Work, u: Work, t: Work)
    requires SendsSigned(w, u) && SendsSigned(u, t)
    ensures SendsSigned(w, t)
  {
    EffectsCompose(w, u, t);
    assert forall v :: v in w.state.votes ==> v in u.state.votes;
    assert forall v :: v in u.state.votes ==> v in t.state.votes;
  }

  lemma Idle(w: Work)
    ensures Quiet(w, w)
  {
  }

  /** Whatever leaves the votes alone and adds one effect that is no vote is quiet. */
  lemma OneEffectQuiet(w: Work, t: Work, e: Effect)
    requires t.state.votes == w.state.votes && t.state.seat == w.state.seat && t.effects == w.effects + [e]
    requires !e.BroadcastVote?
    ensures Quiet(w, t)
  {
    assert NewEffects(w, t) == [e];
  }

  lemma SameQuiet(w: Work, t: Work)
    requires t.state.votes == w.state.votes && t.state.seat == w.state.seat && t.effects == w.effects
    ensures Quiet(w, t)
  {
  }

  // ---- signing ----

  /** Only this voter's own votes are added. */
  predicate OwnAdded(w: Work, t: Work) {
    t.state.seat == w.state.seat && forall v :: v in t.state.votes ==> v in w.state.votes || v.seat == w.state.seat
  }

  lemma SignSends(w: Work, phase: Phase, value: Option<Hash>, admit: Admission)
    ensures SendsSigned(w, SignLocalVote(w, phase, value, admit)) && OwnAdded(w, SignLocalVote(w, phase, value, admit))
  {
    hide AdmitsRecorded;
    var t := SignLocalVote(w, phase, value, admit);
    if OwnVote(w.state, phase).None? {
      var vote := t.state.votes[|w.state.votes|];
      assert t.state.votes == w.state.votes + [vote] && NewEffects(w, t) == [BroadcastVote(vote)];
      assert forall v :: v in t.state.votes <==> v in w.state.votes || v == vote;
    }
  }

  lemma PrevoteSends(w: Work, p: Proposal, admit: Admission)
    ensures SendsSigned(w, PrevoteProposal(w, p, admit)) && OwnAdded(w, PrevoteProposal(w, p, admit))
  {
    hide SignLocalVote, LockAccepts, SendsSigned;
    Idle(w);
    QuietSends(w, w);
    SignSends(w, Prevote, if LockAccepts(w.state, p) then Some(p.entry.hash) else None, admit);
  }

  lemma WaitingSends(w: Work, admit: Admission)
    ensures SendsSigned(w, PrevoteWaiting(w, admit)) && OwnAdded(w, PrevoteWaiting(w, admit))
  {
    hide PrevoteProposal, SendsSigned;
    Idle(w);
    QuietSends(w, w);
    if WaitingProposal(w.state).Some? {
      PrevoteSends(w, WaitingProposal(w.state).value, admit);
    }
  }

  lemma LockSends(w: Work, ctx: Context, p: Proposal, admit: Admission)
    requires OrderedSeats(ctx.voters)
    ensures SendsSigned(w, LockValue(w, ctx, p, admit)) && OwnAdded(w, LockValue(w, ctx, p, admit))
  {
    hide SignLocalVote, SendsSigned, QuorumFor, Quiet;
    var s, hash := w.state, p.entry.hash;
    Idle(w);
    QuietSends(w, w);
    var quorum := QuorumFor(s, ctx, s.round, Prevote, Some(hash));
    if quorum.Some? {
      var record := QuorumValue(s.round, hash, p, quorum.value);
      var marked := w.(state := Marked(s, record));
      var locked := w.(state := Marked(s, record).(locked := Some(record)));
      SameQuiet(w, marked);
      QuietSends(w, marked);
      SameQuiet(w, locked);
      QuietSends(w, locked);
      SignSends(locked, Precommit, Some(hash), admit);
      SendsTwice(w, locked, SignLocalVote(locked, Precommit, Some(hash), admit));
    }
  }

  lemma {:induction false} LocksSend(w: Work, ctx: Context, proposals: seq<Proposal>, admit: Admission)
    requires OrderedSeats(ctx.voters)
    ensures SendsSigned(w, LockValues(w, ctx, proposals, admit)) && OwnAdded(w, LockValues(w, ctx, proposals, admit))
    decreases |proposals|
  {
    hide LockValue, SendsSigned;
    if proposals == [] {
      Idle(w);
      QuietSends(w, w);
    } else {
      var next := LockValue(w, ctx, proposals[0], admit);
      LockSends(w, ctx, proposals[0], admit);
      LocksSend(next, ctx, proposals[1..], admit);
      SendsTwice(w, next, LockValues(w, ctx, proposals, admit));
    }
  }

  lemma NilSends(w: Work, ctx: Context)
    requires OrderedSeats(ctx.voters)
    ensures SendsSigned(w, PrecommitNil(w, ctx)) && OwnAdded(w, PrecommitNil(w, ctx))
  {
    hide SignLocalVote, SendsSigned, QuorumFor;
    Idle(w);
    QuietSends(w, w);
    SignSends(w, Precommit, None, None);
  }

  lemma TimersQuiet(w: Work, ctx: Context)
    requires OrderedSeats(ctx.voters)
    ensures Quiet(w, ArmTimers(w, ctx))
  {
    hide AnyQuorum;
    var t := ArmTimers(w, ctx);
    var more := t.effects[|w.effects|..];
    assert t.effects == w.effects + more && NewEffects(w, t) == more;
  }

  // ---- deciding and halting ----

  lemma HaltQuiet(w: Work, reason: HaltReason)
    ensures Quiet(w, Halt(w, reason)) && Quiet(w, TerminalFault(w, reason))
  {
    Idle(w);
    if w.state.halted.None? {
      OneEffectQuiet(w, Halt(w, reason), HaltEffect(reason));
    }
    if w.state.haltKind != Some(Terminal) {
      OneEffectQuiet(w, TerminalFault(w, reason), HaltEffect(reason));
    }
  }

  lemma ControlQuiet(w: Work, ctx: Context, control: Control)
    ensures Quiet(w, HaltForControl(w, ctx, control))
  {
    hide TerminalFault, Quiet, ControlFault;
    Idle(w);
    HaltQuiet(w, LocalKeyImplicated);
    HaltQuiet(w, SecondByzantineVoter);
  }

  lemma EntryQuiet(w: Work, ctx: Context, entry: Entry)
    ensures Quiet(w, HaltForEntryControl(w, ctx, entry))
  {
    hide HaltForControl, Quiet;
    Idle(w);
    if ctx.controlOf(entry.hash).Some? {
      ControlQuiet(w, ctx, ctx.controlOf(entry.hash).value);
    }
  }

  lemma CertifiedQuiet(w: Work, c: CertifiedEntry)
    ensures Quiet(w, HaltForCertifiedValue(w, c))
  {
    Idle(w);
    if w.state.halted.None? {
      OneEffectQuiet(w, HaltForCertifiedValue(w, c), HaltEffect(InvalidCertifiedValue));
    }
  }

  lemma ThresholdQuiet(w: Work, ctx: Context)
    ensures Quiet(w, HaltIfFaultThresholdExceeded(w, ctx))
  {
    hide TerminalFault, Quiet, Equivocators;
    Idle(w);
    HaltQuiet(w, LocalKeyImplicated);
    HaltQuiet(w, SecondByzantineVoter);
  }

  lemma ValueQuiet(w: Work, ctx: Context, round: nat, value: Option<Hash>)
    requires OrderedSeats(ctx.voters)
    ensures Quiet(w, CommitValue(w, ctx, round, value).work)
  {
    hide QuorumFor, ProposalAt, ValidCertified, AuthenticCertified, EntryControlFault, HaltForEntryControl, Halt,
      HaltForCertifiedValue, Quiet;
    Idle(w);
    HaltQuiet(w, UnauthenticatedProof);
    HaltQuiet(w, ConflictingCertificates);
    if value.Some? && QuorumFor(w.state, ctx, round, Precommit, value).Some? {
      OneEffectQuiet(w, w.Emit(RequestProposal(round, value.value)), RequestProposal(round, value.value));
      var found := ProposalAt(w.state.proposals, round, value.value);
      if found.Some? {
        var c := CertifiedEntry(found.value.entry, QuorumFor(w.state, ctx, round, Precommit, value).value);
        CertifiedQuiet(w, c);
        EntryQuiet(w, ctx, c.entry);
        OneEffectQuiet(w, Work(w.state.(decision := Some(c)), w.effects + [Commit(c)]), Commit(c));
      }
    }
  }

  lemma {:induction false} ValuesQuiet(w: Work, ctx: Context, round: nat, values: seq<Option<Hash>>)
    requires OrderedSeats(ctx.voters)
    ensures Quiet(w, CommitValues(w, ctx, round, values).work)
    decreases |values|
  {
    hide CommitValue, Quiet;
    if values == [] {
      Idle(w);
    } else {
      ValueQuiet(w, ctx, round, values[0]);
      var first := CommitValue(w, ctx, round, values[0]);
      if !first.stopped {
        ValuesQuiet(first.work, ctx, round, values[1..]);
        QuietTwice(w, first.work, CommitValues(first.work, ctx, round, values[1..]).work);
      }
    }
  }

  lemma {:induction false} RoundsQuiet(w: Work, ctx: Context, rounds: seq<nat>)
    requires OrderedSeats(ctx.voters)
    ensures Quiet(w, CommitRounds(w, ctx, rounds).work)
    decreases |rounds|
  {
    hide CommitValues, Quiet, VotesAt, ValuesOf;
    if rounds == [] {
      Idle(w);
    } else {
      var values := ValuesOf(VotesAt(w.state.votes, rounds[0], Precommit));
      ValuesQuiet(w, ctx, rounds[0], values);
      var first := CommitValues(w, ctx, rounds[0], values);
      if !first.stopped {
        RoundsQuiet(first.work, ctx, rounds[1..]);
        QuietTwice(w, first.work, CommitRounds(first.work, ctx, rounds[1..]).work);
      }
    }
  }

  lemma CommitQuiet(w: Work, ctx: Context)
    requires OrderedSeats(ctx.voters)
    ensures Quiet(w, MaybeCommit(w, ctx))
  {
    hide CommitRounds, Quiet;
    RoundsQuiet(w, ctx, PrecommitRounds(w.state.votes));
  }

  /** A drive adds only this voter's own votes up to its last commit scan. */
  lemma DriveAddsOwn(w: Work, ctx: Context, admit: Admission)
    requires OrderedSeats(ctx.voters)
    ensures var prevoted := PrevoteWaiting(w, admit);
      var locked := LockValues(prevoted, ctx, ProposalsAt(prevoted.state.proposals, prevoted.state.round), admit);
      OwnAdded(w, ArmTimers(PrecommitNil(locked, ctx), ctx))
  {
    hide PrevoteWaiting, LockValues, PrecommitNil, SendsSigned, ProposalsAt, AnyQuorum;
    var prevoted := PrevoteWaiting(w, admit);
    var waiting := ProposalsAt(prevoted.state.proposals, prevoted.state.round);
    WaitingSends(w, admit);
    LocksSend(prevoted, ctx, waiting, admit);
    NilSends(LockValues(prevoted, ctx, waiting, admit), ctx);
  }

  /** A drive sends exactly the votes it signs, and adds no others. */
  lemma DriveSends(w: Work, ctx: Context, admit: Admission)
    requires OrderedSeats(ctx.voters)
    ensures SendsSigned(w, Drive(w, ctx, admit))
  {
    hide MaybeCommit, PrevoteWaiting, LockValues, PrecommitNil, ArmTimers, SendsSigned, Quiet, ProposalsAt;
    CommitQuiet(w, ctx);
    var first := MaybeCommit(w, ctx);
    QuietSends(w, first);
    if !Finished(first.state) {
      var prevoted := PrevoteWaiting(first, admit);
      WaitingSends(first, admit);
      SendsTwice(w, first, prevoted);
      var waiting := ProposalsAt(prevoted.state.proposals, prevoted.state.round);
      var locked := LockValues(prevoted, ctx, waiting, admit);
      LocksSend(prevoted, ctx, waiting, admit);
      SendsTwice(w, prevoted, locked);
      var precommitted := PrecommitNil(locked, ctx);
      NilSends(locked, ctx);
      SendsTwice(w, locked, precommitted);
      LastStagesSend(w, precommitted, ctx);
    }
  }

  lemma LastStagesSend(w: Work, u: Work, ctx: Context)
    requires OrderedSeats(ctx.voters) && SendsSigned(w, u)
    ensures SendsSigned(w, MaybeCommit(ArmTimers(u, ctx), ctx))
  {
    hide MaybeCommit, ArmTimers, SendsSigned, Quiet;
    var armed := ArmTimers(u, ctx);
    TimersQuiet(u, ctx);
    CommitQuiet(armed, ctx);
    QuietTwice(u, armed, MaybeCommit(armed, ctx));
    QuietSends(u, MaybeCommit(armed, ctx));
    SendsTwice(w, u, MaybeCommit(armed, ctx));
  }

  // ---- records and rounds ----

  lemma VoteQuiet(w: Work, vote: Vote)
    requires vote.seat == w.state.seat ==> vote in w.state.votes
    ensures Quiet(w, RecordVote(w, vote))
  {
    var t := RecordVote(w, vote);
    Idle(w);
    assert forall v :: v in w.state.votes + [vote] <==> v in w.state.votes || v == vote;
    if t.effects != w.effects {
      OneEffectQuiet(w, t, t.effects[|w.effects|]);
    }
  }

  lemma {:induction false} ConflictsQuiet(w: Work, seat: Seat, p: Proposal, sameRound: seq<Proposal>)
    ensures Quiet(w, RecordConflicts(w, seat, p, sameRound))
    decreases |sameRound|
  {
    hide Quiet;
    Idle(w);
    if sameRound != [] {
      var s, first := w.state, sameRound[0];
      var evidence := TwoProposals(seat, p.entry.term, first, p);
      var noted := Work(s.(equivocations := s.equivocations + [evidence]), w.effects + [Equivocate(evidence)]);
      var next := if first.entry.hash != p.entry.hash && !ProposalsNoted(s, seat, p.entry.term) then noted else w;
      OneEffectQuiet(w, noted, Equivocate(evidence));
      ConflictsQuiet(next, seat, p, sameRound[1..]);
      QuietTwice(w, next, RecordConflicts(w, seat, p, sameRound));
    }
  }

  lemma ProposalQuiet(w: Work, ctx: Context, p: Proposal)
    ensures Quiet(w, RecordProposal(w, ctx, p))
  {
    hide RecordConflicts;
    Idle(w);
    ConflictsQuiet(w, p.entry.sequencer, p, ProposalsAt(w.state.proposals, p.entry.term));
  }

  lemma {:induction false} ReplayQuiet(w: Work, ctx: Context, ready: seq<Hint>)
    requires forall h :: h in ready && h.VoteHint? ==> h.vote.seat != w.state.seat
    ensures Quiet(w, ReplayHints(w, ctx, ready))
    decreases |ready|
  {
    hide RecordVote, RecordProposal, Quiet;
    if ready == [] {
      Idle(w);
    } else {
      assert ready[0] in ready;
      var next := match ready[0]
        case VoteHint(_, _, vote) => RecordVote(w, vote)
        case ProposalHint(_, _, proposal) => RecordProposal(w, ctx, proposal);
      match ready[0] {
        case VoteHint(_, _, vote) => VoteQuiet(w, vote);
        case ProposalHint(_, _, proposal) => ProposalQuiet(w, ctx, proposal);
      }
      QuietSeat(w, next);
      ReplayQuiet(next, ctx, ready[1..]);
      QuietTwice(w, next, ReplayHints(w, ctx, ready));
    }
  }

  lemma QuietSeat(w: Work, t: Work)
    requires Quiet(w, t)
    ensures t.state.seat == w.state.seat
  {
  }

  lemma EnterQuiet(w: Work, ctx: Context, round: nat)
    requires forall h :: h in w.state.hints && h.VoteHint? ==> h.vote.seat != w.state.seat
    ensures Quiet(w, EnterRound(w, ctx, round))
  {
    hide ReplayHints, ProposerFor, Quiet;
    var s := w.state;
    Idle(w);
    if round > s.round {
      var ready := Select((h: Hint) => h.round == round, s.hints);
      var later := Select((h: Hint) => h.round > round, s.hints);
      var entered := w.(state := s.(round := round, step := AtPropose, timers := Timers(false, false, false),
                                    hints := later));
      SameQuiet(w, entered);
      ReplayQuiet(entered, ctx, ready);
      var replayed := ReplayHints(entered, ctx, ready);
      QuietTwice(w, entered, replayed);
      AskQuiet(w, replayed, EnterRound(w, ctx, round));
    }
  }

  lemma AskQuiet(w: Work, u: Work, t: Work)
    requires Quiet(w, u) && u.effects <= t.effects && t.state.votes == u.state.votes && t.state.seat == u.state.seat
    requires forall e :: e in NewEffects(u, t) ==> !e.BroadcastVote?
    ensures Quiet(w, t)
  {
    EffectsCompose(w, u, t);
  }

  lemma JumpQuiet(w: Work, ctx: Context)
    requires forall h :: h in w.state.hints && h.VoteHint? ==> h.vote.seat != w.state.seat
    ensures Quiet(w, MaybeJump(w, ctx))
  {
    hide EnterRound, Quiet;
    Idle(w);
    if |HintRoundsDown(w.state.hints)| >= 2 {
      EnterQuiet(w, ctx, HintRoundsDown(w.state.hints)[1]);
    }
  }

  // ---- events ----

  /** Hints are never this voter's own. */
  predicate ForeignHints(s: State) {
    forall h :: h in s.hints && h.VoteHint? ==> h.vote.seat != s.seat
  }

  lemma HintsForeign(s: State, ctx: Context, known: iset<Vote>)
    requires RecordInv(s, ctx, known)
    ensures ForeignHints(s)
  {
    hide RecordInv;
    forall h | h in s.hints && h.VoteHint? ensures h.vote.seat != s.seat {
      RecordedHint(s, ctx, known, h);
    }
  }

  lemma {:induction false} HintAdded(hints: seq<Hint>, hint: Hint)
    ensures forall h :: h in AddHint(hints, hint) ==> h in hints || h == hint
  {
    if hints != [] {
      HintAdded(hints[1..], hint);
    }
  }

  lemma AccusationQuiet(w: Work, ctx: Context, control: Control)
    requires RetainAccusation(w, ctx, control).Ok?
    ensures Quiet(w, RetainAccusation(w, ctx, control).value)
  {
    hide Halt, HaltForControl, Quiet, UnrecordedOwnEvidence, ObjectiveProofParent, ControlFault;
    Idle(w);
    HaltQuiet(w, StaleRecord);
    ControlQuiet(w, ctx, control);
    var t := RetainAccusation(w, ctx, control).value;
    if t.effects == w.effects && t.state.votes == w.state.votes && t.state.seat == w.state.seat {
      SameQuiet(w, t);
    }
  }

  lemma RetainQuietly(w: Work, ctx: Context, entry: Entry)
    requires RetainEntryAccusation(w, ctx, entry).Ok?
    ensures Quiet(w, RetainEntryAccusation(w, ctx, entry).value)
  {
    hide RetainAccusation, Quiet;
    Idle(w);
    if ctx.controlOf(entry.hash).Some? {
      AccusationQuiet(w, ctx, ctx.controlOf(entry.hash).value);
    }
  }

  lemma InputQuiet(w: Work, ctx: Context)
    ensures Quiet(w, OnInputAvailable(w, ctx))
  {
    hide ProposerFor;
    var t := OnInputAvailable(w, ctx);
    var more := t.effects[|w.effects|..];
    assert t.effects == w.effects + more;
  }

  lemma ProposeSends(w: Work, ctx: Context, candidate: Option<Entry>, admit: Admission)
    requires OrderedSeats(ctx.voters) && OnPropose(w, ctx, candidate, admit).Ok?
    ensures SendsSigned(w, OnPropose(w, ctx, candidate, admit).value.work)
  {
    hide RecordProposal, RetainEntryAccusation, PrevoteProposal, ValidProposal, OwnProposal, ProposerFor, Quiet,
      SendsSigned;
    var s := w.state;
    Idle(w);
    QuietSends(w, w);
    var quiet := Finished(s) || s.step != AtPropose
      || exists p :: p in s.proposals && p.entry.term == s.round && p.entry.sequencer == s.seat;
    if !quiet {
      var source := if s.valid.Some? then Some(s.valid.value.proposal.entry) else candidate;
      var own := OwnProposal(s, source.value);
      var started := w.(state := s.(inputKnown := true));
      SameQuiet(w, started);
      RetainQuietly(started, ctx, own.entry);
      var retained := RetainEntryAccusation(started, ctx, own.entry).value;
      QuietTwice(w, started, retained);
      QuietSends(w, retained);
      ProposalQuiet(retained, ctx, own);
      var recorded := RecordProposal(retained, ctx, own);
      QuietTwice(w, retained, recorded);
      OneEffectQuiet(recorded, recorded.Emit(BroadcastProposal(own)), BroadcastProposal(own));
      var sent := recorded.Emit(BroadcastProposal(own));
      QuietTwice(w, recorded, sent);
      QuietSends(w, sent);
      PrevoteSends(sent, own, admit);
      SendsTwice(w, sent, PrevoteProposal(sent, own, admit));
    }
  }

  lemma HintedProposalQuiet(w: Work, ctx: Context, p: Proposal)
    requires ForeignHints(w.state)
    ensures Quiet(w, HintProposal(w, ctx, p))
  {
    hide MaybeJump, Quiet, AddHint;
    Idle(w);
    var hint := ProposalHint(p.entry.sequencer, p.entry.term, p);
    var hinted := w.(state := w.state.(hints := AddHint(w.state.hints, hint)));
    HintAdded(w.state.hints, hint);
    SameQuiet(w, hinted);
    JumpQuiet(hinted, ctx);
    QuietTwice(w, hinted, MaybeJump(hinted, ctx));
  }

  lemma AcceptSends(w: Work, ctx: Context, p: Proposal, admit: Admission)
    requires ForeignHints(w.state)
    ensures SendsSigned(w, AcceptProposal(w, ctx, p, admit).work)
  {
    hide HintProposal, RecordProposal, PrevoteProposal, HaltIfFaultThresholdExceeded, ProposalAt, Quiet, SendsSigned;
    HintedProposalQuiet(w, ctx, p);
    var hinted := HintProposal(w, ctx, p);
    ProposalQuiet(hinted, ctx, p);
    var recorded := RecordProposal(hinted, ctx, p);
    ThresholdQuiet(recorded, ctx);
    var checked := HaltIfFaultThresholdExceeded(recorded, ctx);
    QuietTwice(w, hinted, recorded);
    QuietTwice(w, recorded, checked);
    QuietSends(w, hinted);
    QuietSends(w, recorded);
    QuietSends(w, checked);
    PrevoteSends(checked, p, admit);
    SendsTwice(w, checked, PrevoteProposal(checked, p, admit));
  }

  lemma ReceivedSends(w: Work, ctx: Context, p: Proposal, admit: Admission)
    requires OrderedSeats(ctx.voters) && OnProposal(w, ctx, p, admit).Ok? && ForeignHints(w.state)
    ensures SendsSigned(w, OnProposal(w, ctx, p, admit).value.work)
  {
    hide AcceptProposal, RetainEntryAccusation, ValidProposal, UnrecordedOwnVote, UnrecordedOwnProposal, Halt,
      HaltForControl, Quiet, SendsSigned, ObjectiveProofParent, ControlFault, AuthenticEvidenceProposal;
    if !ValidProposal(p, ctx) {
      ControlQuiet(w, ctx, ctx.controlOf(p.entry.hash).value);
      QuietSends(w, HaltForControl(w, ctx, ctx.controlOf(p.entry.hash).value));
    } else {
      RetainQuietly(w, ctx, p.entry);
      var retained := RetainEntryAccusation(w, ctx, p.entry).value;
      QuietSends(w, retained);
      HaltQuiet(retained, StaleRecord);
      QuietTwice(w, retained, Halt(retained, StaleRecord));
      QuietSends(w, Halt(retained, StaleRecord));
      var started := retained.(state := retained.state.(inputKnown := true));
      SameQuiet(retained, started);
      QuietTwice(w, retained, started);
      QuietSends(w, started);
      SameHints(w, ctx, p.entry);
      AcceptSends(started, ctx, p, admit);
      SendsTwice(w, started, AcceptProposal(started, ctx, p, admit).work);
    }
  }

  lemma SameHints(w: Work, ctx: Context, entry: Entry)
    requires RetainEntryAccusation(w, ctx, entry).Ok?
    ensures RetainEntryAccusation(w, ctx, entry).value.state.hints == w.state.hints
    ensures RetainEntryAccusation(w, ctx, entry).value.state.seat == w.state.seat
  {
    hide UnrecordedOwnEvidence, ObjectiveProofParent, ControlFault;
  }

  lemma VoteEventSends(w: Work, ctx: Context, vote: Vote)
    requires OnVote(w, ctx, vote).Ok? && ForeignHints(w.state)
    requires forall v :: v in w.state.votes ==> v.term <= w.state.round
    ensures SendsSigned(w, OnVote(w, ctx, vote).value.work)
  {
    hide MaybeJump, RecordVote, HaltIfFaultThresholdExceeded, Halt, AddHint, ValidVote, Quiet, SendsSigned;
    Idle(w);
    QuietSends(w, w);
    HaltQuiet(w, StaleRecord);
    QuietSends(w, Halt(w, StaleRecord));
    if !UnrecordedOwnBallot(w.state, vote) {
      HintedVoteQuiet(w, ctx, vote);
      var hinted := HintVote(w, ctx, vote);
      QuietSends(w, hinted);
      QuietKeeps(w, hinted, vote);
      VoteQuiet(hinted, vote);
      var recorded := RecordVote(hinted, vote);
      QuietTwice(w, hinted, recorded);
      ThresholdQuiet(recorded, ctx);
      QuietTwice(w, recorded, HaltIfFaultThresholdExceeded(recorded, ctx));
      QuietSends(w, HaltIfFaultThresholdExceeded(recorded, ctx));
    }
  }

  lemma QuietKeeps(w: Work, t: Work, vote: Vote)
    requires Quiet(w, t)
    ensures t.state.seat == w.state.seat && (vote in w.state.votes ==> vote in t.state.votes)
  {
  }

  lemma HintedVoteQuiet(w: Work, ctx: Context, vote: Vote)
    requires ForeignHints(w.state) && !UnrecordedOwnBallot(w.state, vote)
    requires vote.seat == w.state.seat ==> vote.term <= w.state.round
    ensures Quiet(w, HintVote(w, ctx, vote))
  {
    hide MaybeJump, Quiet, AddHint;
    Idle(w);
    if vote.term > w.state.round {
      var hint := VoteHint(vote.seat, vote.term, vote);
      var hinted := w.(state := w.state.(hints := AddHint(w.state.hints, hint)));
      HintAdded(w.state.hints, hint);
      SameQuiet(w, hinted);
      JumpQuiet(hinted, ctx);
      QuietTwice(w, hinted, MaybeJump(hinted, ctx));
    }
  }

  lemma CertificateQuiet(w: Work, ctx: Context, c: CertifiedEntry)
    requires OrderedSeats(ctx.voters) && OnCommit(w, ctx, c).Ok?
    ensures Quiet(w, OnCommit(w, ctx, c).value)
  {
    hide Halt, HaltForCertifiedValue, HaltForEntryControl, Quiet, ValidCertified, AuthenticCertified, EntryControlFault,
      UnrecordedOwnVote, UnrecordedOwnEntry;
    Idle(w);
    HaltQuiet(w, StaleRecord);
    HaltQuiet(w, ConflictingCertificates);
    CertifiedQuiet(w, c);
    EntryQuiet(w, ctx, c.entry);
    OneEffectQuiet(w, Work(w.state.(decision := Some(c)), w.effects + [Commit(c)]), Commit(c));
  }

  lemma ResumeQuiet(s: State, ctx: Context)
    requires OrderedSeats(ctx.voters) && OnResume(Work(s, []), ctx).Ok?
    ensures Quiet(Work(s, []), OnResume(Work(s, []), ctx).value)
  {
    hide RestoreState, ValidCertified, HaltForEntryControl, EntryControlFault;
    ResumesItself(Work(s, []), ctx);
    EntryQuiet(Work(s, []), ctx, s.unapplied.value.entry);
  }

  lemma TimeoutSends(w: Work, ctx: Context, phase: Step, round: nat)
    requires ForeignHints(w.state)
    ensures SendsSigned(w, OnTimeout(w, ctx, phase, round).work)
  {
    hide EnterRound, SignLocalVote, Quiet, SendsSigned;
    Idle(w);
    QuietSends(w, w);
    EnterQuiet(w, ctx, w.state.round + 1);
    QuietSends(w, EnterRound(w, ctx, w.state.round + 1));
    SignSends(w, Prevote, None, None);
    SignSends(w, Precommit, None, None);
    var prevoted := SignLocalVote(w, Prevote, None, None);
    SignSends(prevoted, Precommit, None, None);
    SendsTwice(w, prevoted, SignLocalVote(prevoted, Precommit, None, None));
  }

  lemma StageSends(s: State, ctx: Context, known: iset<Vote>, event: Event, admit: Admission)
    requires OrderedSeats(ctx.voters) && RecordInv(s, ctx, known) && Stage(s, ctx, event, admit).Ok?
    ensures SendsSigned(Work(s, []), Stage(s, ctx, event, admit).value.work)
  {
    hide RecordInv, OnPropose, OnProposal, OnVote, OnTimeout, OnCommit, RetainAccusation, OnResume, OnInputAvailable,
      SendsSigned, Quiet, Halt;
    var w := Work(s, []);
    HintsForeign(s, ctx, known);
    RecordedVotes(s, ctx, known);
    match event {
      case InputAvailable =>
        InputQuiet(w, ctx);
        QuietSends(w, OnInputAvailable(w, ctx));
      case Propose(candidate) => ProposeSends(w, ctx, candidate, admit);
      case ReceiveProposal(p) => ReceivedSends(w, ctx, p, admit);
      case ReceiveVote(vote) => VoteEventSends(w, ctx, vote);
      case ReceiveCommit(c) =>
        CertificateQuiet(w, ctx, c);
        QuietSends(w, OnCommit(w, ctx, c).value);
      case StageAccusation(control) =>
        AccusationQuiet(w, ctx, control);
        QuietSends(w, RetainAccusation(w, ctx, control).value);
      case ClearStaleAccusation =>
        SameQuiet(w, OnClearStale(w, ctx));
        QuietSends(w, OnClearStale(w, ctx));
      case TerminalHalt(reason) =>
        HaltQuiet(w, reason);
        QuietSends(w, Halt(w, reason));
      case ResumeAfterReplay =>
        ResumeQuiet(s, ctx);
        QuietSends(w, OnResume(w, ctx).value);
      case Timeout(phase, round) => TimeoutSends(w, ctx, phase, round);
    }
  }

  /** One accepted event broadcasts exactly the own votes it adds to the record, whatever the event. */
  lemma ReduceSends(s: State, ctx: Context, known: iset<Vote>, event: Event, admit: Admission)
    requires OrderedSeats(ctx.voters) && RecordInv(s, ctx, known) && Reduce(s, ctx, event, admit).Ok?
    ensures var t := Reduce(s, ctx, event, admit).value;
      forall v :: BroadcastVote(v) in t.effects <==> v.seat == s.seat && v in t.state.votes && v !in s.votes
  {
    hide RecordInv, Stage, Drive, SendsSigned;
    StageSends(s, ctx, known, event, admit);
    var staged := Stage(s, ctx, event, admit).value;
    if staged.ToDrive? {
      DriveSends(staged.work, ctx, admit);
      SendsTwice(Work(s, []), staged.work, Drive(staged.work, ctx, admit));
    }
    AllSent(s, Reduce(s, ctx, event, admit).value);
  }

  lemma AllSent(s: State, t: Work)
    requires SendsSigned(Work(s, []), t)
    ensures forall v :: BroadcastVote(v) in t.effects <==> v.seat == s.seat && v in t.state.votes && v !in s.votes
  {
    assert NewEffects(Work(s, []), t) == t.effects;
  }
}
