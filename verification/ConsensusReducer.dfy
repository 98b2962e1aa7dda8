/**
 * The working copy that one transition updates in place (packages/protocol/src/consensus.ts). Each method is
 * proved to compute the function of the same name, and the whole transition to be `Transitions.Reduce`.
 */
module ConsensusReducer {
  import opened Results
  import opened Votes
  import opened Proposals
  import opened Consensus
  import opened ConsensusRestore
  import opened Transitions

  /** What a transition returns: its working copy, or only an error. */
  function Gives(r: Result<()>, w: Work): Result<Work> {
    match r
    case Ok(_) => Ok(w)
    case Err(code) => Err(code)
  }

  function Driven(r: Result<Staged>, ctx: Context, admit: Admission): Result<Work>
    requires OrderedSeats(ctx.voters)
  {
    match r
    case Ok(staged) => Ok(Settle(staged, ctx, admit))
    case Err(code) => Err(code)
  }

  /** Where a seat's hint is found decides which place of the list changes. */
  lemma {:induction false} AddHintAt(hints: seq<Hint>, i: nat, hint: Hint)
    requires i <= |hints| && (forall k :: 0 <= k < i ==> hints[k].seat != hint.seat)
    requires i < |hints| ==> hints[i].seat == hint.seat
    ensures AddHint(hints, hint) ==
      if i == |hints| then hints + [hint] else if hints[i].round < hint.round then hints[i := hint] else hints
  {
    if i > 0 {
      AddHintAt(hints[1..], i - 1, hint);
      assert hints == [hints[0]] + hints[1..];
    }
  }

  class WorkingCopy {
    var state: State
    var effects: seq<Effect>

    function Value(): Work
      reads this
    {
      Work(state, effects)
    }

    constructor (s: State)
      ensures Value() == Work(s, [])
    {
      state, effects := s, [];
    }

    method Emit(effect: Effect)
      modifies this`effects
      ensures Value() == old(Value()).Emit(effect)
    {
      effects := effects + [effect];
    }

    method Halt(reason: HaltReason)
      modifies this
      ensures Value() == Consensus.Halt(old(Value()), reason)
    {
      if state.halted.Some? {
        return;
      }
      state := state.(halted := Some(reason), haltKind := Some(Terminal), unapplied := None);
      Emit(HaltEffect(reason));
    }

    method TerminalFault(reason: HaltReason)
      modifies this
      ensures Value() == Consensus.TerminalFault(old(Value()), reason)
    {
      if state.haltKind == Some(Terminal) {
        return;
      }
      state := state.(halted := Some(reason), haltKind := Some(Terminal), unapplied := None);
      Emit(HaltEffect(reason));
    }

    method HaltForEntryControl(ctx: Context, entry: Entry) returns (halted: bool)
      modifies this
      ensures halted == EntryControlFault(old(state), ctx, entry)
      ensures Value() == Consensus.HaltForEntryControl(old(Value()), ctx, entry)
    {
      match ctx.controlOf(entry.hash) {
        case None => return false;
        case Some(control) =>
          if control.offender == state.seat {
            TerminalFault(LocalKeyImplicated);
            return true;
          }
          halted := ControlFault(state, ctx, control);
          if halted {
            TerminalFault(SecondByzantineVoter);
          }
      }
    }

    method SignLocalVote(phase: Phase, value: Option<Hash>, admit: Admission)
      modifies this
      ensures Value() == Consensus.SignLocalVote(old(Value()), phase, value, admit)
    {
      if OwnVote(state, phase).Some? {
        return;
      }
      var hash := value;
      if hash.Some? && admit.Some? && !AdmitsRecorded(state, hash.value, admit.value) {
        hash := None;
      }
      var vote := Vote(state.seat, state.height, state.round, phase, hash);
      state := state.(votes := state.votes + [vote]);
      Emit(BroadcastVote(vote));
      state := state.(step := StepOf(phase));
    }

    method RecordVote(vote: Vote)
      modifies this
      ensures Value() == Consensus.RecordVote(old(Value()), vote)
    {
      match VoteOf(state.votes, vote.seat, vote.term, vote.phase) {
        case None =>
          state := state.(votes := state.votes + [vote]);
        case Some(first) =>
          if first.value == vote.value {
            return;
          }
          if exists e :: e in state.equivocations && e.TwoVotes? && e.seat == vote.seat && e.round == vote.term
                         && e.phase == vote.phase {
            return;
          }
          var evidence := TwoVotes(vote.seat, vote.term, vote.phase, first, vote);
          state := state.(equivocations := state.equivocations + [evidence]);
          Emit(Equivocate(evidence));
      }
    }

    method RecordProposal(ctx: Context, proposal: Proposal)
      modifies this
      ensures Value() == Consensus.RecordProposal(old(Value()), ctx, proposal)
    {
      var seat := proposal.entry.sequencer;
      if seat !in ctx.voters {
        return;
      }
      var sameRound := ProposalsAt(state.proposals, proposal.entry.term);
      if exists p :: p in sameRound && p.entry.hash == proposal.entry.hash {
        return;
      }
      if |sameRound| >= 2 {
        return;
      }
      ghost var conflicts := RecordConflicts(Value(), seat, proposal, sameRound);
      for i := 0 to |sameRound|
        invariant RecordConflicts(Value(), seat, proposal, sameRound[i..]) == conflicts
      {
        var first := sameRound[i];
        assert sameRound[i..][0] == first && sameRound[i..][1..] == sameRound[i + 1..];
        if && first.entry.hash != proposal.entry.hash
           && !(exists e :: e in state.equivocations && e.TwoProposals? && e.seat == seat
                            && e.round == proposal.entry.term) {
          var evidence := TwoProposals(seat, proposal.entry.term, first, proposal);
          state := state.(equivocations := state.equivocations + [evidence]);
          Emit(Equivocate(evidence));
        }
      }
      state := state.(proposals := state.proposals + [proposal]);
    }

    /** The scan for a seat's hint, which is then replaced in place by a later one. */
    method AddHint(hint: Hint)
      modifies this
      ensures Value() == old(Value()).(state := old(state).(hints := Consensus.AddHint(old(state.hints), hint)))
    {
      var hints := state.hints;
      var i := 0;
      while i < |hints| && hints[i].seat != hint.seat
        invariant 0 <= i <= |hints| && forall k :: 0 <= k < i ==> hints[k].seat != hint.seat
      {
        i := i + 1;
      }
      AddHintAt(hints, i, hint);
      if i == |hints| {
        state := state.(hints := hints + [hint]);
      } else if hints[i].round < hint.round {
        state := state.(hints := hints[i := hint]);
      }
    }

    method EnterRound(ctx: Context, round: nat)
      modifies this
      ensures Value() == Consensus.EnterRound(old(Value()), ctx, round)
    {
      if round <= state.round {
        return;
      }
      var height, seat := state.height, state.seat;
      var ready := Select((h: Hint) => h.round == round, state.hints);
      var later := Select((h: Hint) => h.round > round, state.hints);
      state := state.(round := round, step := AtPropose, timers := Timers(false, false, false), hints := later);
      ghost var replayed := ReplayHints(Value(), ctx, ready);
      for i := 0 to |ready|
        invariant ReplayHints(Value(), ctx, ready[i..]) == replayed
      {
        assert ready[i..][0] == ready[i] && ready[i..][1..] == ready[i + 1..];
        match ready[i] {
          case VoteHint(_, _, vote) => RecordVote(vote);
          case ProposalHint(_, _, proposal) => RecordProposal(ctx, proposal);
        }
      }
      if ProposerFor(height, round, ctx) == Some(seat) {
        Emit(RequestValue(round, ValidHash(state)));
      }
      if state.inputKnown {
        state := state.(timers := state.timers.(propose := true));
        Emit(ScheduleTimeout(AtPropose, round));
      }
    }

    method MaybeJump(ctx: Context)
      modifies this
      ensures Value() == Consensus.MaybeJump(old(Value()), ctx)
    {
      var rounds := HintRoundsDown(state.hints);
      if |rounds| >= 2 && rounds[1] > state.round {
        EnterRound(ctx, rounds[1]);
      }
    }

    /** One value of one round; true when an implicated control ends the whole scan. */
    method CommitOne(ctx: Context, round: nat, value: Option<Hash>) returns (stopped: bool)
      requires OrderedSeats(ctx.voters)
      modifies this
      ensures Scan(Value(), stopped) == CommitValue(old(Value()), ctx, round, value)
    {
      if value.None? {
        return false;
      }
      var certificate := QuorumFor(state, ctx, round, Precommit, value);
      if certificate.None? {
        return false;
      }
      var proposal := ProposalAt(state.proposals, round, value.value);
      if proposal.None? {
        Emit(RequestProposal(round, value.value));
        return false;
      }
      var certified := CertifiedEntry(proposal.value.entry, certificate.value);
      if !ValidCertified(certified, ctx) {
        if !AuthenticCertified(certified, ctx) {
          Halt(UnauthenticatedProof);
        } else if state.halted.None? {
          state := state.(halted := Some(InvalidCertifiedValue), haltKind := Some(CertifiedValidation),
                          unapplied := Some(certified));
          Emit(HaltEffect(InvalidCertifiedValue));
        }
        return false;
      }
      stopped := HaltForEntryControl(ctx, certified.entry);
      if stopped {
        return;
      }
      if state.decision.Some? && state.decision.value.entry.hash != value.value {
        Halt(ConflictingCertificates);
        return false;
      }
      if state.decision.None? {
        state := state.(decision := Some(certified));
        Emit(Commit(certified));
      }
    }

    method MaybeCommit(ctx: Context)
      requires OrderedSeats(ctx.voters)
      modifies this
      ensures Value() == Consensus.MaybeCommit(old(Value()), ctx)
    {
      var rounds := PrecommitRounds(state.votes);
      ghost var outcome := CommitRounds(Value(), ctx, rounds);
      for i := 0 to |rounds|
        invariant CommitRounds(Value(), ctx, rounds[i..]) == outcome
      {
        assert rounds[i..][0] == rounds[i] && rounds[i..][1..] == rounds[i + 1..];
        var values := ValuesOf(VotesAt(state.votes, rounds[i], Precommit));
        ghost var scanned := CommitValues(Value(), ctx, rounds[i], values);
        for j := 0 to |values|
          invariant CommitValues(Value(), ctx, rounds[i], values[j..]) == scanned
        {
          assert values[j..][0] == values[j] && values[j..][1..] == values[j + 1..];
          var stopped := CommitOne(ctx, rounds[i], values[j]);
          if stopped {
            return;
          }
        }
      }
    }

    method PrevoteProposal(proposal: Proposal, admit: Admission)
      modifies this
      ensures Value() == Consensus.PrevoteProposal(old(Value()), proposal, admit)
    {
      if proposal.entry.term == state.round && state.step == AtPropose {
        SignLocalVote(Prevote, if LockAccepts(state, proposal) then Some(proposal.entry.hash) else None, admit);
      }
    }

    method LockOne(ctx: Context, proposal: Proposal, admit: Admission)
      requires OrderedSeats(ctx.voters)
      modifies this
      ensures Value() == LockValue(old(Value()), ctx, proposal, admit)
    {
      var hash := proposal.entry.hash;
      var prevotes := QuorumFor(state, ctx, state.round, Prevote, Some(hash));
      if prevotes.Some? && (state.valid.None? || state.valid.value.round < state.round) {
        state := state.(valid := Some(QuorumValue(state.round, hash, proposal, prevotes.value)));
      }
      if prevotes.Some? && state.step == AtPrevote && OwnVote(state, Precommit).None? {
        state := state.(locked := Some(QuorumValue(state.round, hash, proposal, prevotes.value)));
        SignLocalVote(Precommit, Some(hash), admit);
      }
    }

    method LockAll(ctx: Context, admit: Admission)
      requires OrderedSeats(ctx.voters)
      modifies this
      ensures Value() == LockValues(old(Value()), ctx, ProposalsAt(old(state.proposals), old(state.round)), admit)
    {
      hide LockValue, ProposalsAt;
      var proposals := ProposalsAt(state.proposals, state.round);
      ghost var locked := LockValues(Value(), ctx, proposals, admit);
      for i := 0 to |proposals|
        invariant LockValues(Value(), ctx, proposals[i..], admit) == locked
      {
        assert proposals[i..][0] == proposals[i] && proposals[i..][1..] == proposals[i + 1..];
        LockOne(ctx, proposals[i], admit);
      }
    }

    method ArmTimers(ctx: Context)
      requires OrderedSeats(ctx.voters)
      modifies this
      ensures Value() == Consensus.ArmTimers(old(Value()), ctx)
    {
      if !state.timers.prevote && |VotesAt(state.votes, state.round, Prevote)| >= ctx.Quorum() {
        state := state.(timers := state.timers.(prevote := true));
        Emit(ScheduleTimeout(AtPrevote, state.round));
      }
      if !state.timers.precommit && AnyQuorum(state, ctx, state.round, Precommit) {
        state := state.(timers := state.timers.(precommit := true));
        Emit(ScheduleTimeout(AtPrecommit, state.round));
      }
    }

    method Drive(ctx: Context, admit: Admission)
      requires OrderedSeats(ctx.voters)
      modifies this
      ensures Value() == Consensus.Drive(old(Value()), ctx, admit)
    {
      hide Consensus.MaybeCommit, Consensus.PrevoteProposal, WaitingProposal, LockValues, Consensus.SignLocalVote,
        Consensus.ArmTimers;
      MaybeCommit(ctx);
      if Finished(state) {
        return;
      }
      if state.step == AtPropose {
        var waiting := WaitingProposal(state);
        if waiting.Some? {
          PrevoteProposal(waiting.value, admit);
        }
      }
      LockAll(ctx, admit);
      if state.step == AtPrevote && QuorumFor(state, ctx, state.round, Prevote, None).Some? {
        SignLocalVote(Precommit, None, None);
      }
      ArmTimers(ctx);
      MaybeCommit(ctx);
    }

    // ---- the actions of a transition ----

    method InputAvailable(ctx: Context)
      modifies this
      ensures Value() == OnInputAvailable(old(Value()), ctx)
    {
      if Finished(state) {
        return;
      }
      state := state.(inputKnown := true);
      if state.step != AtPropose || state.timers.propose {
        return;
      }
      state := state.(timers := state.timers.(propose := true));
      Emit(ScheduleTimeout(AtPropose, state.round));
      if ProposerFor(state.height, state.round, ctx) == Some(state.seat) {
        Emit(RequestValue(state.round, ValidHash(state)));
      }
    }

    method HaltIfFaultThresholdExceeded(ctx: Context)
      modifies this
      ensures Value() == Consensus.HaltIfFaultThresholdExceeded(old(Value()), ctx)
    {
      var equivocators := Equivocators(state, ctx);
      if state.seat in equivocators {
        TerminalFault(LocalKeyImplicated);
      } else if |equivocators| > Tolerated(|ctx.voters|) {
        TerminalFault(SecondByzantineVoter);
      }
    }

    method HaltForControl(ctx: Context, control: Control) returns (halted: bool)
      modifies this
      ensures halted == ControlFault(old(state), ctx, control)
      ensures Value() == Consensus.HaltForControl(old(Value()), ctx, control)
    {
      if control.offender == state.seat {
        TerminalFault(LocalKeyImplicated);
        return true;
      }
      halted := ControlFault(state, ctx, control);
      if halted {
        TerminalFault(SecondByzantineVoter);
      }
    }

    method RetainAccusation(ctx: Context, control: Control) returns (r: Result<()>)
      modifies this
      ensures Gives(r, Value()) == Consensus.RetainAccusation(old(Value()), ctx, control)
    {
      var parent := ObjectiveProofParent(control, ctx);
      if parent.Err? {
        return Err(parent.code);
      }
      var fault := HaltForControl(ctx, control);
      if fault || control.offender in ctx.excluded || Finished(state) {
        return Ok(());
      }
      var proven := state.provenOffender;
      var historical := proven.Some? && proven.value.atHeight < state.height && proven.value.control == control;
      if !historical && UnrecordedOwnEvidence(state, ctx, control.evidence) {
        Halt(StaleRecord);
        return Ok(());
      }
      if state.pendingAccusation.Some? {
        return Ok(());
      }
      if proven.None? {
        state := state.(provenOffender := Some(ProvenOffender(control, EvidenceHeight(control), parent.value)));
      }
      state := state.(pendingAccusation := Some(control));
      return Ok(());
    }

    /** True when the entry's accusation ends the transition. */
    method RetainEntryAccusation(ctx: Context, entry: Entry) returns (r: Result<()>, stopped: bool)
      modifies this
      ensures Gives(r, Value()) == Consensus.RetainEntryAccusation(old(Value()), ctx, entry)
      ensures stopped <==> ctx.controlOf(entry.hash).Some? && (r.Err? || state.halted.Some?)
      ensures !stopped ==> r.Ok?
    {
      match ctx.controlOf(entry.hash) {
        case None => return Ok(()), false;
        case Some(control) =>
          r := RetainAccusation(ctx, control);
          stopped := r.Err? || state.halted.Some?;
      }
    }

    method Propose(ctx: Context, candidate: Option<Entry>, admit: Admission) returns (r: Result<()>)
      requires OrderedSeats(ctx.voters)
      modifies this
      ensures Gives(r, Value()) == Driven(OnPropose(old(Value()), ctx, candidate, admit), ctx, admit)
    {
      hide Consensus.Drive, Consensus.PrevoteProposal, Consensus.RecordProposal, Consensus.RetainEntryAccusation,
        ValidProposal, ProposerFor, OwnProposal;
      if Finished(state) || state.step != AtPropose {
        return Ok(());
      }
      if ProposerFor(state.height, state.round, ctx) != Some(state.seat) {
        return Err("consensus-proposer");
      }
      if exists p :: p in state.proposals && p.entry.term == state.round && p.entry.sequencer == state.seat {
        return Ok(());
      }
      var source := if state.valid.Some? then Some(state.valid.value.proposal.entry) else candidate;
      if source.None? {
        return Err("consensus-value");
      }
      var proposal := OwnProposal(state, source.value);
      state := state.(inputKnown := true);
      if !ValidProposal(proposal, ctx) {
        return Err("proposal");
      }
      var retained, stopped := RetainEntryAccusation(ctx, proposal.entry);
      if stopped {
        return retained;
      }
      RecordProposal(ctx, proposal);
      Emit(BroadcastProposal(proposal));
      PrevoteProposal(proposal, admit);
      Drive(ctx, admit);
      return Ok(());
    }

    method Accept(ctx: Context, proposal: Proposal, admit: Admission)
      requires OrderedSeats(ctx.voters)
      modifies this
      ensures Value() == Settle(AcceptProposal(old(Value()), ctx, proposal, admit), ctx, admit)
    {
      hide Consensus.Drive, Consensus.PrevoteProposal, Consensus.RecordProposal, Consensus.MaybeJump,
        Consensus.HaltIfFaultThresholdExceeded, Consensus.AddHint, ProposalAt;
      var round := proposal.entry.term;
      if round > state.round {
        AddHint(ProposalHint(proposal.entry.sequencer, round, proposal));
        MaybeJump(ctx);
        if round > state.round {
          return;
        }
      }
      RecordProposal(ctx, proposal);
      if ProposalAt(state.proposals, round, proposal.entry.hash).None? {
        return;
      }
      HaltIfFaultThresholdExceeded(ctx);
      if state.halted.Some? {
        return;
      }
      if state.decision.None? {
        PrevoteProposal(proposal, admit);
      }
      Drive(ctx, admit);
    }

    method ReceiveProposal(ctx: Context, proposal: Proposal, admit: Admission) returns (r: Result<()>)
      requires OrderedSeats(ctx.voters)
      modifies this
      ensures Gives(r, Value()) == Driven(OnProposal(old(Value()), ctx, proposal, admit), ctx, admit)
    {
      hide Consensus.Drive, AcceptProposal, Consensus.RetainEntryAccusation, ValidProposal, AuthenticEvidenceProposal,
        ObjectiveProofParent, ControlFault, UnrecordedOwnVote, UnrecordedOwnProposal;
      if !ValidProposal(proposal, ctx) {
        var control := ctx.controlOf(proposal.entry.hash);
        if control.Some? && AuthenticEvidenceProposal(proposal, ctx) && ObjectiveProofParent(control.value, ctx).Ok? {
          var fault := HaltForControl(ctx, control.value);
          if fault {
            return Ok(());
          }
        }
        return Err("proposal");
      }
      var retained, stopped := RetainEntryAccusation(ctx, proposal.entry);
      if stopped {
        return retained;
      }
      if UnrecordedOwnVote(state, proposal.prevotes) || UnrecordedOwnProposal(state, proposal) {
        Halt(StaleRecord);
        return Ok(());
      }
      if state.halted.Some? {
        return Ok(());
      }
      state := state.(inputKnown := true);
      Accept(ctx, proposal, admit);
      return Ok(());
    }

    method ReceiveVote(ctx: Context, vote: Vote, admit: Admission) returns (r: Result<()>)
      requires OrderedSeats(ctx.voters)
      modifies this
      ensures Gives(r, Value()) == Driven(OnVote(old(Value()), ctx, vote), ctx, admit)
    {
      hide Consensus.Drive, Consensus.RecordVote, Consensus.MaybeJump, Consensus.HaltIfFaultThresholdExceeded,
        Consensus.AddHint, ValidVote;
      if !ValidVote(vote, ctx.voters) {
        return Err("vote");
      }
      if vote.height != state.height {
        return Err("consensus-height");
      }
      if UnrecordedOwnBallot(state, vote) {
        Halt(StaleRecord);
        return Ok(());
      }
      if state.halted.Some? {
        return Ok(());
      }
      if vote.term > state.round {
        AddHint(VoteHint(vote.seat, vote.term, vote));
        MaybeJump(ctx);
        if vote.term > state.round {
          return Ok(());
        }
      }
      RecordVote(vote);
      HaltIfFaultThresholdExceeded(ctx);
      if state.halted.None? {
        Drive(ctx, admit);
      }
      return Ok(());
    }

    method ReceiveCommit(ctx: Context, certified: CertifiedEntry) returns (r: Result<()>)
      requires OrderedSeats(ctx.voters)
      modifies this
      ensures Gives(r, Value()) == OnCommit(old(Value()), ctx, certified)
    {
      hide ValidCertified, AuthenticCertified, UnrecordedOwnVote, UnrecordedOwnEntry;
      var entry := certified.entry;
      if !AuthenticCertified(certified, ctx) {
        return Err("certificate");
      }
      if entry.height <= ctx.head {
        return Err("stale-entry");
      }
      if entry.height > ctx.height {
        return Err("missing-ancestor");
      }
      if UnrecordedOwnVote(state, certified.certificate) || UnrecordedOwnEntry(state, entry) {
        Halt(StaleRecord);
        return Ok(());
      }
      if !ValidCertified(certified, ctx) {
        if state.halted.None? {
          state := state.(halted := Some(InvalidCertifiedValue), haltKind := Some(CertifiedValidation),
                          unapplied := Some(certified));
          Emit(HaltEffect(InvalidCertifiedValue));
        }
        return Ok(());
      }
      var fault := HaltForEntryControl(ctx, entry);
      if fault {
        return Ok(());
      }
      if state.decision.Some? && state.decision.value.entry.hash != entry.hash {
        Halt(ConflictingCertificates);
      } else if state.decision.None? && state.halted.None? {
        state := state.(decision := Some(certified));
        Emit(Commit(certified));
      }
      return Ok(());
    }

    method ClearStaleAccusation(ctx: Context)
      modifies this
      ensures Value() == OnClearStale(old(Value()), ctx)
    {
      if && state.pendingAccusation.Some? && state.provenOffender.Some?
         && state.pendingAccusation.value.offender in ctx.excluded
         && state.pendingAccusation.value == state.provenOffender.value.control {
        state := state.(pendingAccusation := None);
      }
    }

    method ResumeAfterReplay(ctx: Context) returns (r: Result<()>)
      requires OrderedSeats(ctx.voters)
      modifies this
      ensures Gives(r, Value()) == OnResume(old(Value()), ctx)
    {
      hide RestoreState, ValidCertified;
      var restored := RestoreState(state, ctx, state.seat);
      if restored.Err? {
        return Err(restored.code);
      }
      state := restored.value;
      if state.haltKind != Some(CertifiedValidation) || state.unapplied.None? {
        return Err("consensus-repair-unavailable");
      }
      var certified := state.unapplied.value;
      if !ValidCertified(certified, ctx) {
        return Err("consensus-repair-incomplete");
      }
      var fault := HaltForEntryControl(ctx, certified.entry);
      if !fault {
        state := state.(decision := Some(certified), halted := None, haltKind := None, unapplied := None);
        effects := [Commit(certified)];
      }
      return Ok(());
    }

    method Timeout(ctx: Context, phase: Step, round: nat, admit: Admission)
      requires OrderedSeats(ctx.voters)
      modifies this
      ensures Value() == Settle(OnTimeout(old(Value()), ctx, phase, round), ctx, admit)
    {
      hide Consensus.Drive, Consensus.SignLocalVote, Consensus.EnterRound;
      if Finished(state) || round != state.round || !TimerOf(state.timers, phase) {
        return;
      }
      if phase == AtPropose && state.step == AtPropose {
        SignLocalVote(Prevote, None, None);
        Drive(ctx, admit);
        return;
      }
      if phase == AtPrevote && state.step == AtPropose {
        SignLocalVote(Prevote, None, None);
      }
      if phase == AtPrevote && state.step == AtPrevote {
        SignLocalVote(Precommit, None, None);
        Drive(ctx, admit);
        return;
      }
      if phase == AtPrecommit {
        EnterRound(ctx, state.round + 1);
        Drive(ctx, admit);
      }
    }
  }

  /** One event on a working copy of the record: the copy and its effects, or an error and nothing else. */
  method Transition(s: State, ctx: Context, event: Event, admit: Admission) returns (r: Result<Work>)
    requires OrderedSeats(ctx.voters)
    ensures r == Reduce(s, ctx, event, admit)
  {
    hide OnInputAvailable, OnPropose, OnProposal, OnVote, OnCommit, RetainAccusation, OnClearStale, OnResume, OnTimeout,
      Drive, Halt;
    var copy := new WorkingCopy(s);
    var applied: Result<()> := Ok(());
    match event {
      case InputAvailable => copy.InputAvailable(ctx);
      case Propose(candidate) => applied := copy.Propose(ctx, candidate, admit);
      case ReceiveProposal(proposal) => applied := copy.ReceiveProposal(ctx, proposal, admit);
      case ReceiveVote(vote) => applied := copy.ReceiveVote(ctx, vote, admit);
      case ReceiveCommit(certified) => applied := copy.ReceiveCommit(ctx, certified);
      case StageAccusation(control) => applied := copy.RetainAccusation(ctx, control);
      case ClearStaleAccusation => copy.ClearStaleAccusation(ctx);
      case TerminalHalt(reason) => copy.Halt(reason);
      case ResumeAfterReplay => applied := copy.ResumeAfterReplay(ctx);
      case Timeout(phase, round) => copy.Timeout(ctx, phase, round, admit);
    }
    return Gives(applied, copy.Value());
  }
}
