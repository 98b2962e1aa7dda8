/** What can move a voter to another round: its own precommit quorum, or hints of two other seats. */
module ConsensusRounds {
  import opened Results
  import opened Votes
  import opened Proposals
  import opened Consensus
  import opened Transitions
  import opened ConsensusRestore
  import opened ConsensusRecord
  import opened ConsensusSteps
  import opened ConsensusEvents

  /** The hint an accepted message can leave. */
  function EventHints(event: Event, ctx: Context): (r: seq<Hint>)
    requires OrderedSeats(ctx.voters)
    ensures forall h :: h in r ==> h.seat in ctx.voters
  {
    match event
    case ReceiveProposal(p) => if ValidProposal(p, ctx) then [ProposalHint(p.entry.sequencer, p.entry.term, p)] else []
    case ReceiveVote(v) => if ValidVote(v, ctx.voters)
      && v.height == ctx.height then [VoteHint(v.seat, v.term, v)] else []
    case _ => []
  }

  predicate TwoHints(hints: seq<Hint>, round: nat) {
    exists a, b :: a in hints && b in hints && a.seat != b.seat && a.round >= round && b.round >= round
  }

  /** The only ways a round changes, with the hints that remain. */
  predicate RoundMove(s: State, t: State, ctx: Context, offered: seq<Hint>)
    requires OrderedSeats(ctx.voters)
  {
    && (forall h :: h in t.hints ==> h in offered)
    && (|| t.round == s.round
        || (t.round == s.round + 1 && AnyQuorum(s, ctx, s.round, Precommit))
        || (t.round > s.round && TwoHints(offered, t.round)))
  }

  predicate SameRound(s: State, t: State) {
    t.round == s.round && t.hints == s.hints
  }

  // ---- the second-highest hint ----

  lemma {:induction false} HighestHint(hints: seq<Hint>)
    requires hints != []
    ensures var rounds := HintRoundsDown(hints);
      |rounds| == |hints| && exists i :: 0 <= i < |hints| && hints[i].round == rounds[0]
  {
    var tail := HintRoundsDown(hints[1..]);
    InsertedLength(hints[0].round, tail);
    if |hints| > 1 {
      HighestHint(hints[1..]);
      var i :| 0 <= i < |hints[1..]| && hints[1..][i].round == tail[0];
      assert hints[i + 1].round == tail[0] && hints[0].round == hints[0].round;
    } else {
      assert hints[0].round == HintRoundsDown(hints)[0];
    }
  }

  lemma {:induction false} InsertedLength(x: nat, xs: seq<nat>)
    ensures |InsertDown(x, xs)| == |xs| + 1
  {
    if xs != [] && x < xs[0] {
      InsertedLength(x, xs[1..]);
    }
  }

  /** Two different hints reach the second-highest round. */
  lemma {:induction false} SecondHighestHint(hints: seq<Hint>) returns (i: nat, j: nat)
    requires |hints| >= 2
    ensures i < j < |hints|
    ensures var rounds := HintRoundsDown(hints);
      |rounds| == |hints| && hints[i].round >= rounds[1] && hints[j].round >= rounds[1]
  {
    var first, tail := hints[0].round, HintRoundsDown(hints[1..]);
    HighestHint(hints);
    HighestHint(hints[1..]);
    var top :| 0 <= top < |hints[1..]| && hints[1..][top].round == tail[0];
    i, j := 0, top + 1;
    assert HintRoundsDown(hints) == InsertDown(first, tail);
    assert hints[j].round == tail[0];
    if first >= tail[0] {
      assert InsertDown(first, tail) == [first] + tail;
    } else {
      assert InsertDown(first, tail) == [tail[0]] + InsertDown(first, tail[1..]);
      if |tail| > 1 && first < tail[1] {
        var a, b := SecondHighestHint(hints[1..]);
        i, j := a + 1, b + 1;
      }
    }
  }

  // ---- frames ----

  lemma {:induction false} ConflictsSameRound(w: Work, seat: Seat, p: Proposal, sameRound: seq<Proposal>)
    ensures SameRound(w.state, RecordConflicts(w, seat, p, sameRound).state)
    decreases |sameRound|
  {
    if sameRound != [] {
      var s := w.state;
      var e := TwoProposals(seat, p.entry.term, sameRound[0], p);
      ConflictsSameRound(Work(s.(equivocations := s.equivocations + [e]), w.effects + [Equivocate(e)]), seat, p,
                         sameRound[1..]);
      ConflictsSameRound(w, seat, p, sameRound[1..]);
    }
  }

  lemma RecordsSameRound(w: Work, ctx: Context, p: Proposal)
    ensures SameRound(w.state, RecordProposal(w, ctx, p).state)
  {
    ConflictsSameRound(w, p.entry.sequencer, p, ProposalsAt(w.state.proposals, p.entry.term));
  }

  lemma {:induction false} ReplaySameRound(w: Work, ctx: Context, ready: seq<Hint>)
    ensures SameRound(w.state, ReplayHints(w, ctx, ready).state)
    decreases |ready|
  {
    if ready != [] {
      var next := match ready[0]
        case VoteHint(_, _, vote) => RecordVote(w, vote)
        case ProposalHint(_, _, p) => RecordProposal(w, ctx, p);
      if ready[0].ProposalHint? {
        RecordsSameRound(w, ctx, ready[0].proposal);
      }
      ReplaySameRound(next, ctx, ready[1..]);
    }
  }

  lemma EnteredRound(w: Work, ctx: Context, round: nat)
    requires round > w.state.round
    ensures var t := EnterRound(w, ctx, round).state;
      t.round == round && forall h :: h in t.hints ==> h in w.state.hints
  {
    ReplaySameRound(Work(Entered(w.state, round), w.effects), ctx,
                    Select((h: Hint) => h.round == round, w.state.hints));
  }

  lemma JumpMoves(s: State, w: Work, ctx: Context, offered: seq<Hint>)
    requires OrderedSeats(ctx.voters) && OneHintPerSeat(w.state.hints) && w.state.round == s.round
    requires forall h :: h in w.state.hints ==> h in offered
    ensures RoundMove(s, MaybeJump(w, ctx).state, ctx, offered)
  {
    hide EnterRound;
    var hints := w.state.hints;
    var rounds := HintRoundsDown(hints);
    if hints != [] {
      HighestHint(hints);
    }
    if |rounds| >= 2 && rounds[1] > w.state.round {
      EnteredRound(w, ctx, rounds[1]);
      var i, j := SecondHighestHint(hints);
      assert hints[i] in offered && hints[j] in offered && hints[i].seat != hints[j].seat;
    }
  }

  lemma HintMoves(w: Work, ctx: Context, hint: Hint, offered: seq<Hint>)
    requires OrderedSeats(ctx.voters) && OneHintPerSeat(w.state.hints) && offered == w.state.hints + [hint]
    ensures RoundMove(w.state, MaybeJump(w.(state := w.state.(hints := AddHint(w.state.hints, hint))), ctx).state, ctx,
                      offered)
  {
    AddHintMembers(w.state.hints, hint);
    JumpMoves(w.state, w.(state := w.state.(hints := AddHint(w.state.hints, hint))), ctx, offered);
  }

  lemma MovesOn(s: State, t: State, u: State, ctx: Context, offered: seq<Hint>)
    requires OrderedSeats(ctx.voters) && RoundMove(s, t, ctx, offered) && SameRound(t, u)
    ensures RoundMove(s, u, ctx, offered)
  {
  }

  // ---- events ----

  lemma RetainSameRound(w: Work, ctx: Context, control: Control)
    requires RetainAccusation(w, ctx, control).Ok?
    ensures var t := RetainAccusation(w, ctx, control).value.state; SameRound(w.state, t) && t.votes == w.state.votes
  {
  }

  lemma ThresholdSameRound(w: Work, ctx: Context)
    ensures SameRound(w.state, HaltIfFaultThresholdExceeded(w, ctx).state)
  {
  }

  lemma PrevoteSameRound(w: Work, p: Proposal, admit: Admission)
    ensures SameRound(w.state, PrevoteProposal(w, p, admit).state)
  {
  }

  lemma AcceptMoves(w: Work, ctx: Context, p: Proposal, admit: Admission, offered: seq<Hint>)
    requires OrderedSeats(ctx.voters) && OneHintPerSeat(w.state.hints)
    requires offered == w.state.hints + [ProposalHint(p.entry.sequencer, p.entry.term, p)]
    ensures RoundMove(w.state, AcceptProposal(w, ctx, p, admit).work.state, ctx, offered)
  {
    hide RecordProposal, EnterRound, MaybeJump, RoundMove, AddHint, HaltIfFaultThresholdExceeded, PrevoteProposal,
      OneHintPerSeat;
    var hinted := HintProposal(w, ctx, p);
    if p.entry.term > w.state.round {
      HintMoves(w, ctx, ProposalHint(p.entry.sequencer, p.entry.term, p), offered);
    } else {
      Stays(w.state, hinted.state, ctx, offered);
    }
    RecordsSameRound(hinted, ctx, p);
    var recorded := RecordProposal(hinted, ctx, p);
    ThresholdSameRound(recorded, ctx);
    PrevoteSameRound(HaltIfFaultThresholdExceeded(recorded, ctx), p, admit);
    MovesOn(w.state, hinted.state, AcceptProposal(w, ctx, p, admit).work.state, ctx, offered);
  }

  lemma Stays(s: State, t: State, ctx: Context, offered: seq<Hint>)
    requires OrderedSeats(ctx.voters) && SameRound(s, t) && (forall h :: h in s.hints ==> h in offered)
    ensures RoundMove(s, t, ctx, offered)
  {
  }

  lemma RejectedStays(w: Work, ctx: Context, p: Proposal, admit: Admission)
    requires OrderedSeats(ctx.voters) && OnProposal(w, ctx, p, admit).Ok? && !ValidProposal(p, ctx)
    ensures SameRound(w.state, OnProposal(w, ctx, p, admit).value.work.state)
  {
    hide ValidProposal, ObjectiveProofParent;
  }

  lemma ProposalMoves(w: Work, ctx: Context, p: Proposal, admit: Admission, offered: seq<Hint>)
    requires OrderedSeats(ctx.voters) && OneHintPerSeat(w.state.hints) && OnProposal(w, ctx, p, admit).Ok?
      && ValidProposal(p, ctx)
    requires offered == w.state.hints + [ProposalHint(p.entry.sequencer, p.entry.term, p)]
    ensures RoundMove(w.state, OnProposal(w, ctx, p, admit).value.work.state, ctx, offered)
  {
    hide AcceptProposal, RoundMove, RetainAccusation, ValidProposal;
    var t := OnProposal(w, ctx, p, admit).value.work.state;
    var retained := RetainEntryAccusation(w, ctx, p.entry).value;
    if ctx.controlOf(p.entry.hash).Some? {
      RetainSameRound(w, ctx, ctx.controlOf(p.entry.hash).value);
    }
    if t.round == w.state.round && t.hints == w.state.hints {
      Stays(w.state, t, ctx, offered);
    } else {
      var started := retained.(state := retained.state.(inputKnown := true));
      AcceptMoves(started, ctx, p, admit, offered);
      SameQuorums(w.state, started.state, t, ctx, offered);
    }
  }

  lemma SameQuorums(s: State, u: State, t: State, ctx: Context, offered: seq<Hint>)
    requires OrderedSeats(ctx.voters) && s.votes == u.votes && s.round == u.round && RoundMove(u, t, ctx, offered)
    ensures RoundMove(s, t, ctx, offered)
  {
  }

  lemma VoteMoves(w: Work, ctx: Context, vote: Vote, offered: seq<Hint>)
    requires OrderedSeats(ctx.voters) && OneHintPerSeat(w.state.hints) && OnVote(w, ctx, vote).Ok?
    requires offered == w.state.hints + [VoteHint(vote.seat, vote.term, vote)]
    ensures RoundMove(w.state, OnVote(w, ctx, vote).value.work.state, ctx, offered)
  {
    hide EnterRound, MaybeJump, RoundMove, AddHint, HaltIfFaultThresholdExceeded, OneHintPerSeat;
    var t := OnVote(w, ctx, vote).value.work.state;
    var hinted := HintVote(w, ctx, vote);
    if vote.term > w.state.round {
      HintMoves(w, ctx, VoteHint(vote.seat, vote.term, vote), offered);
    } else {
      Stays(w.state, hinted.state, ctx, offered);
    }
    ThresholdSameRound(RecordVote(hinted, vote), ctx);
    if SameRound(w.state, t) {
      Stays(w.state, t, ctx, offered);
    } else {
      MovesOn(w.state, hinted.state, t, ctx, offered);
    }
  }

  lemma AcceptedVote(w: Work, ctx: Context, vote: Vote)
    requires OrderedSeats(ctx.voters) && OnVote(w, ctx, vote).Ok?
    ensures ValidVote(vote, ctx.voters) && vote.height == w.state.height
  {
  }

  lemma TimeoutMoves(w: Work, ctx: Context, known: iset<Vote>, phase: Step, round: nat, offered: seq<Hint>)
    requires Good(w, ctx, known) && offered == w.state.hints
    ensures RoundMove(w.state, OnTimeout(w, ctx, phase, round).work.state, ctx, offered)
  {
    hide RecordInv, EnterRound;
    RecordedTimers(w.state, ctx, known);
    if phase == AtPrecommit {
      EnteredRound(w, ctx, w.state.round + 1);
    }
  }

  lemma QuietStays(s: State, ctx: Context, event: Event, admit: Admission)
    requires OrderedSeats(ctx.voters) && Stage(s, ctx, event, admit).Ok?
    requires !event.Propose? && !event.ReceiveProposal? && !event.ReceiveVote? && !event.Timeout?
    ensures SameRound(s, Stage(s, ctx, event, admit).value.work.state)
  {
    hide ValidCertified, AuthenticCertified, ObjectiveProofParent, EntryControlFault, UnrecordedOwnVote,
      UnrecordedOwnEvidence, UnrecordedOwnEntry, RestoreState;
    if event.ResumeAfterReplay? {
      ResumesItself(Work(s, []), ctx);
    }
  }

  lemma StageMoves(s: State, ctx: Context, known: iset<Vote>, event: Event, admit: Admission)
    requires OrderedSeats(ctx.voters) && RecordInv(s, ctx, known) && Stage(s, ctx, event, admit).Ok?
    ensures RoundMove(s, Stage(s, ctx, event, admit).value.work.state, ctx, s.hints + EventHints(event, ctx))
  {
    hide RecordInv, OnPropose, OnProposal, OnVote, OnCommit, RetainAccusation, OnResume, OnTimeout, RoundMove,
      EffectsRecorded, Halt,
      OnInputAvailable, OnClearStale;
    var w, staged := Work(s, []), Stage(s, ctx, event, admit).value;
    var offered := s.hints + EventHints(event, ctx);
    RecordedHints(s, ctx, known);
    RecordedBinding(s, ctx, known);
    match event {
      case ReceiveProposal(p) =>
        if ValidProposal(p, ctx) {
          ProposalMoves(w, ctx, p, admit, offered);
        } else {
          RejectedStays(w, ctx, p, admit);
          Stays(s, staged.work.state, ctx, offered);
        }
      case ReceiveVote(vote) =>
        AcceptedVote(w, ctx, vote);
        VoteMoves(w, ctx, vote, offered);
      case Timeout(phase, round) => StartMoves(w, ctx, known, phase, round, offered);
      case Propose(candidate) =>
        ProposeStays(w, ctx, candidate, admit);
        Stays(s, staged.work.state, ctx, offered);
      case _ =>
        QuietStays(s, ctx, event, admit);
        Stays(s, staged.work.state, ctx, offered);
    }
  }

  lemma StartMoves(w: Work, ctx: Context, known: iset<Vote>, phase: Step, round: nat, offered: seq<Hint>)
    requires OrderedSeats(ctx.voters) && RecordInv(w.state, ctx, known) && w.effects == []
      && offered == w.state.hints + []
    ensures RoundMove(w.state, OnTimeout(w, ctx, phase, round).work.state, ctx, offered)
  {
    hide RecordInv, OnTimeout, RoundMove;
    assert offered == w.state.hints;
    TimeoutMoves(w, ctx, known, phase, round, offered);
  }

  /** A round changes only on this voter's own precommit quorum, or on hints of two other seats. */
  lemma ReduceMoves(s: State, ctx: Context, known: iset<Vote>, event: Event, admit: Admission)
    requires OrderedSeats(ctx.voters) && RecordInv(s, ctx, known) && Reduce(s, ctx, event, admit).Ok?
    requires EventHarmless(s, ctx, event) && EventSigned(s, event, known)
    ensures RoundMove(s, Reduce(s, ctx, event, admit).value.state, ctx, s.hints + EventHints(event, ctx))
  {
    hide RecordInv, Stage, RoundMove, Drive, Extends;
    StageMoves(s, ctx, known, event, admit);
    var staged := Stage(s, ctx, event, admit).value;
    if staged.ToDrive? {
      StageKept(s, ctx, known, event, admit);
      DriveKept(staged.work, ctx, known, admit);
      MovesOn(s, staged.work.state, Drive(staged.work, ctx, admit).state, ctx, s.hints + EventHints(event, ctx));
    }
  }

  lemma ProposeStays(w: Work, ctx: Context, candidate: Option<Entry>, admit: Admission)
    requires OrderedSeats(ctx.voters) && OnPropose(w, ctx, candidate, admit).Ok?
    ensures SameRound(w.state, OnPropose(w, ctx, candidate, admit).value.work.state)
  {
    hide RecordProposal, ValidProposal, RetainAccusation;
    var s := w.state;
    var source := if s.valid.Some? then Some(s.valid.value.proposal.entry) else candidate;
    if source.Some? {
      var p := OwnProposal(s, source.value);
      var started := w.(state := s.(inputKnown := true));
      if ctx.controlOf(p.entry.hash).Some? && RetainEntryAccusation(started, ctx, p.entry).Ok? {
        RetainSameRound(started, ctx, ctx.controlOf(p.entry.hash).value);
      }
      if RetainEntryAccusation(started, ctx, p.entry).Ok? {
        RecordsSameRound(RetainEntryAccusation(started, ctx, p.entry).value, ctx, p);
      }
    }
  }
}
