/** What each event makes a running record do, beyond keeping its invariant (packages/protocol/src/consensus.ts). */
module ConsensusReacts {
  import opened Results
  import opened Votes
  import opened Proposals
  import opened Consensus
  import opened ConsensusRestore
  import opened Transitions
  import opened ConsensusRecord
  import opened LockRule
  import opened ConsensusSteps
  import opened ConsensusEvents
  import opened ConsensusRounds
  import opened ConsensusDecides
  import opened ConsensusProgress
  import opened ConsensusSends
  import opened Recovery

  // ---- nothing but a commit scan or a certificate decides ----

  /** The decision stays, and no commit is handed out. */
  predicate Undeciding(w: Work, t: Work) {
    t.state.decision == w.state.decision && forall e :: e in t.effects && e.Commit? ==> e in w.effects
  }

  lemma {:induction false} ConflictsUndeciding(w: Work, seat: Seat, p: Proposal, sameRound: seq<Proposal>)
    ensures Undeciding(w, RecordConflicts(w, seat, p, sameRound))
    ensures RecordConflicts(w, seat, p, sameRound).state.halted == w.state.halted
    decreases |sameRound|
  {
    if sameRound != [] {
      var s, first := w.state, sameRound[0];
      var next := if first.entry.hash != p.entry.hash && !ProposalsNoted(s, seat, p.entry.term) then
                    var evidence := TwoProposals(seat, p.entry.term, first, p);
                    Work(s.(equivocations := s.equivocations + [evidence]), w.effects + [Equivocate(evidence)])
                  else w;
      ConflictsUndeciding(next, seat, p, sameRound[1..]);
    }
  }

  lemma RecordUndeciding(w: Work, ctx: Context, p: Proposal)
    ensures Undeciding(w, RecordProposal(w, ctx, p)) && RecordProposal(w, ctx, p).state.halted == w.state.halted
  {
    hide RecordConflicts;
    ConflictsUndeciding(w, p.entry.sequencer, p, ProposalsAt(w.state.proposals, p.entry.term));
  }

  lemma VoteUndeciding(w: Work, vote: Vote)
    ensures Undeciding(w, RecordVote(w, vote)) && RecordVote(w, vote).state.halted == w.state.halted
  {
  }

  lemma {:induction false} ReplayUndeciding(w: Work, ctx: Context, ready: seq<Hint>)
    ensures Undeciding(w, ReplayHints(w, ctx, ready)) && ReplayHints(w, ctx, ready).state.halted == w.state.halted
    decreases |ready|
  {
    hide RecordVote, RecordProposal;
    if ready != [] {
      var next := match ready[0]
        case VoteHint(_, _, vote) => RecordVote(w, vote)
        case ProposalHint(_, _, proposal) => RecordProposal(w, ctx, proposal);
      match ready[0] {
        case VoteHint(_, _, vote) => VoteUndeciding(w, vote);
        case ProposalHint(_, _, proposal) => RecordUndeciding(w, ctx, proposal);
      }
      ReplayUndeciding(next, ctx, ready[1..]);
    }
  }

  lemma EnterUndeciding(w: Work, ctx: Context, round: nat)
    ensures Undeciding(w, EnterRound(w, ctx, round)) && EnterRound(w, ctx, round).state.halted == w.state.halted
  {
    hide ReplayHints, ProposerFor;
    var s := w.state;
    var ready := Select((h: Hint) => h.round == round, s.hints);
    var later := Select((h: Hint) => h.round > round, s.hints);
    var entered :=
      w.(state := s.(round := round, step := AtPropose, timers := Timers(false, false, false), hints := later));
    ReplayUndeciding(entered, ctx, ready);
  }

  lemma JumpUndeciding(w: Work, ctx: Context)
    ensures Undeciding(w, MaybeJump(w, ctx)) && MaybeJump(w, ctx).state.halted == w.state.halted
  {
    hide EnterRound;
    if |HintRoundsDown(w.state.hints)| >= 2 {
      EnterUndeciding(w, ctx, HintRoundsDown(w.state.hints)[1]);
    }
  }

  lemma ThresholdUndeciding(w: Work, ctx: Context)
    ensures Undeciding(w, HaltIfFaultThresholdExceeded(w, ctx))
  {
  }

  lemma RetainUndeciding(w: Work, ctx: Context, entry: Entry)
    requires RetainEntryAccusation(w, ctx, entry).Ok?
    ensures Undeciding(w, RetainEntryAccusation(w, ctx, entry).value)
  {
    hide UnrecordedOwnEvidence, ObjectiveProofParent, ControlFault;
  }

  lemma PrevoteUndeciding(w: Work, p: Proposal, admit: Admission)
    ensures Undeciding(w, PrevoteProposal(w, p, admit)) && PrevoteProposal(w, p, admit).state.halted == w.state.halted
  {
    hide LockAccepts, AdmitsRecorded;
  }

  lemma ProposeUndeciding(w: Work, ctx: Context, candidate: Option<Entry>, admit: Admission)
    requires OrderedSeats(ctx.voters) && OnPropose(w, ctx, candidate, admit).Ok?
    requires OnPropose(w, ctx, candidate, admit).value.ToDrive?
    ensures var staged := OnPropose(w, ctx, candidate, admit).value;
      Undeciding(w, staged.work) && staged.work.state.halted.None?
  {
    hide RecordProposal, RetainEntryAccusation, PrevoteProposal, ValidProposal, OwnProposal, ProposerFor;
    var s := w.state;
    var source := if s.valid.Some? then Some(s.valid.value.proposal.entry) else candidate;
    var own := OwnProposal(s, source.value);
    var started := w.(state := s.(inputKnown := true));
    RetainUndeciding(started, ctx, own.entry);
    var retained := RetainEntryAccusation(started, ctx, own.entry).value;
    RetainQuiet(started, ctx, own.entry);
    RecordUndeciding(retained, ctx, own);
    PrevoteUndeciding(RecordProposal(retained, ctx, own).Emit(BroadcastProposal(own)), own, admit);
  }

  /** An entry without an accusation changes nothing. */
  lemma RetainQuiet(w: Work, ctx: Context, entry: Entry)
    ensures ctx.controlOf(entry.hash).None? ==> RetainEntryAccusation(w, ctx, entry) == Ok(w)
  {
  }

  lemma ProposalUndeciding(w: Work, ctx: Context, p: Proposal, admit: Admission)
    requires OrderedSeats(ctx.voters) && OnProposal(w, ctx, p, admit).Ok? && OnProposal(w, ctx, p, admit).value.ToDrive?
    ensures var staged := OnProposal(w, ctx, p, admit).value;
      Undeciding(w, staged.work) && staged.work.state.halted.None?
  {
    hide RecordProposal, RetainEntryAccusation, PrevoteProposal, ValidProposal, MaybeJump, HaltIfFaultThresholdExceeded,
      UnrecordedOwnVote, UnrecordedOwnProposal, ProposalAt, AddHint;
    RetainUndeciding(w, ctx, p.entry);
    var retained := RetainEntryAccusation(w, ctx, p.entry).value;
    var started := retained.(state := retained.state.(inputKnown := true));
    if p.entry.term > started.state.round {
      var hint := ProposalHint(p.entry.sequencer, p.entry.term, p);
      var hinted := started.(state := started.state.(hints := AddHint(started.state.hints, hint)));
      JumpUndeciding(hinted, ctx);
    }
    var hinted := HintProposal(started, ctx, p);
    RecordUndeciding(hinted, ctx, p);
    var recorded := RecordProposal(hinted, ctx, p);
    ThresholdUndeciding(recorded, ctx);
    PrevoteUndeciding(HaltIfFaultThresholdExceeded(recorded, ctx), p, admit);
  }

  lemma VoteEventUndeciding(w: Work, ctx: Context, vote: Vote)
    requires OnVote(w, ctx, vote).Ok? && OnVote(w, ctx, vote).value.ToDrive?
    ensures var staged := OnVote(w, ctx, vote).value;
      Undeciding(w, staged.work) && staged.work.state.halted.None?
  {
    hide RecordVote, MaybeJump, HaltIfFaultThresholdExceeded, ValidVote, AddHint, UnrecordedOwnBallot;
    if vote.term > w.state.round {
      var hinted := w.(state := w.state.(hints := AddHint(w.state.hints, VoteHint(vote.seat, vote.term, vote))));
      JumpUndeciding(hinted, ctx);
    }
    var hinted := HintVote(w, ctx, vote);
    VoteUndeciding(hinted, vote);
    ThresholdUndeciding(RecordVote(hinted, vote), ctx);
  }

  lemma TimeoutUndeciding(w: Work, ctx: Context, phase: Step, round: nat)
    requires OnTimeout(w, ctx, phase, round).ToDrive?
    ensures var staged := OnTimeout(w, ctx, phase, round);
      Undeciding(w, staged.work) && staged.work.state.halted.None?
  {
    hide EnterRound;
    EnterUndeciding(w, ctx, w.state.round + 1);
  }

  /** An event that goes on to drive the record has not stopped it or changed its decision. */
  lemma StageUndeciding(s: State, ctx: Context, event: Event, admit: Admission)
    requires OrderedSeats(ctx.voters) && Stage(s, ctx, event, admit).Ok? && Stage(s, ctx, event, admit).value.ToDrive?
    ensures var staged := Stage(s, ctx, event, admit).value.work;
      && staged.state.decision == s.decision && staged.state.halted.None?
      && forall c :: Commit(c) !in staged.effects
  {
    hide OnPropose, OnProposal, OnVote, OnTimeout, OnCommit, RetainAccusation, OnClearStale, OnResume, OnInputAvailable;
    var w := Work(s, []);
    match event {
      case Propose(candidate) => ProposeUndeciding(w, ctx, candidate, admit);
      case ReceiveProposal(p) => ProposalUndeciding(w, ctx, p, admit);
      case ReceiveVote(vote) => VoteEventUndeciding(w, ctx, vote);
      case Timeout(phase, round) => TimeoutUndeciding(w, ctx, phase, round);
      case _ =>
    }
  }

  /**
   * After any event that drives an undecided record: if it still runs, no recorded proposal with a quorum of recorded
   * precommits is left undecided. Where all such proposals agree and none is at fault, it runs on, has decided
   * exactly when there is one, on the entry of one, and hands out the commit of that entry and of no other.
   */
  lemma ReduceSettles(s: State, ctx: Context, known: iset<Vote>, event: Event, admit: Admission)
    requires OrderedSeats(ctx.voters) && RecordInv(s, ctx, known) && EventHarmless(s, ctx, event)
      && EventSigned(s, event, known)
    requires Reduce(s, ctx, event, admit).Ok? && s.decision.None?
    requires Stage(s, ctx, event, admit).value.ToDrive?
    ensures var t := Reduce(s, ctx, event, admit).value;
      && (Running(t.state) ==> forall p :: !Backed(t.state, ctx, p))
      && (Calm(t.state, ctx) ==>
            && t.state.halted.None?
            && (t.state.decision.Some? <==> exists p :: Backed(t.state, ctx, p))
            && (t.state.decision.Some? ==>
                  exists p :: Backed(t.state, ctx, p) && t.state.decision.value.entry == p.entry)
            && forall c :: Commit(c) in t.effects <==> t.state.decision == Some(c))
  {
    hide RecordInv, Extends, Stage, Drive, EffectsRecorded, Backed, Calm;
    StageKept(s, ctx, known, event, admit);
    StageUndeciding(s, ctx, event, admit);
    var staged := Stage(s, ctx, event, admit).value.work;
    DriveSettles(staged, ctx, known, admit);
    var t := Drive(staged, ctx, admit);
    assert t.effects == staged.effects + NewEffects(staged, t);
  }

  // ---- a proposal is prevoted ----

  /** The proposal is recorded already, or its round has room for it. */
  predicate Recordable(s: State, p: Proposal) {
    ProposalAt(s.proposals, p.entry.term, p.entry.hash).Some? || |ProposalsAt(s.proposals, p.entry.term)| < 2
  }

  /** The proposal is a second one of its round. */
  predicate Doubles(s: State, p: Proposal) {
    ProposalAt(s.proposals, p.entry.term, p.entry.hash).None? && ProposalsAt(s.proposals, p.entry.term) != []
  }

  /** The voters proven faulty once this proposal is counted. */
  function GuiltyWith(s: State, ctx: Context, p: Proposal): set<Seat> {
    Equivocators(s, ctx) + if Doubles(s, p) then {p.entry.sequencer} else {}
  }

  predicate WithinTolerance(s: State, ctx: Context, guilty: set<Seat>) {
    s.seat !in guilty && |guilty| <= Tolerated(|ctx.voters|)
  }

  lemma {:induction false} ConflictsGuilt(w: Work, ctx: Context, seat: Seat, p: Proposal, sameRound: seq<Proposal>)
    ensures var t := RecordConflicts(w, seat, p, sameRound).state;
      && t == w.state.(equivocations := t.equivocations)
      && (forall x :: x in Equivocators(t, ctx) ==> x in Equivocators(w.state, ctx) || (x == seat && sameRound != []))
    decreases |sameRound|
  {
    if sameRound != [] {
      var s, first := w.state, sameRound[0];
      var evidence := TwoProposals(seat, p.entry.term, first, p);
      var next := if first.entry.hash != p.entry.hash && !ProposalsNoted(s, seat, p.entry.term) then
                    Work(s.(equivocations := s.equivocations + [evidence]), w.effects + [Equivocate(evidence)])
                  else w;
      forall x | x in Equivocators(next.state, ctx) ensures x in Equivocators(s, ctx) || x == seat {
        NotedGuilt(s, ctx, evidence, x);
      }
      ConflictsGuilt(next, ctx, seat, p, sameRound[1..]);
    }
  }

  lemma NotedGuilt(s: State, ctx: Context, e: Equivocation, x: Seat)
    requires x in Equivocators(s.(equivocations := s.equivocations + [e]), ctx)
    ensures x in Equivocators(s, ctx) || x == e.seat
  {
    assert forall y :: y in s.equivocations + [e] <==> y in s.equivocations || y == e;
  }

  lemma RecordGuilt(w: Work, ctx: Context, p: Proposal)
    ensures var t := RecordProposal(w, ctx, p).state;
      && t == w.state.(proposals := t.proposals, equivocations := t.equivocations)
      && Equivocators(t, ctx) <= GuiltyWith(w.state, ctx, p)
    ensures p.entry.sequencer in ctx.voters && Recordable(w.state, p) ==>
      var found := ProposalAt(RecordProposal(w, ctx, p).state.proposals, p.entry.term, p.entry.hash);
      found == if ProposalAt(w.state.proposals, p.entry.term, p.entry.hash).Some?
               then ProposalAt(w.state.proposals, p.entry.term, p.entry.hash) else Some(p)
  {
    hide RecordConflicts, Equivocators;
    var s := w.state;
    var sameRound := ProposalsAt(s.proposals, p.entry.term);
    ConflictsGuilt(w, ctx, p.entry.sequencer, p, sameRound);
    var noted := RecordConflicts(w, p.entry.sequencer, p, sameRound).state;
    var t := RecordProposal(w, ctx, p).state;
    SameGuilt(noted, t, ctx);
    if t.proposals != s.proposals {
      PushedProposal(s.proposals, p);
    } else if ProposalAt(s.proposals, p.entry.term, p.entry.hash).Some? {
      assert ProposalAt(s.proposals, p.entry.term, p.entry.hash).value in sameRound;
    }
  }

  lemma SameGuilt(s: State, t: State, ctx: Context)
    requires s.provenOffender == t.provenOffender
    ensures s.equivocations == t.equivocations ==> Equivocators(s, ctx) == Equivocators(t, ctx)
  {
  }

  lemma {:induction false} PushedProposal(proposals: seq<Proposal>, p: Proposal)
    requires ProposalAt(proposals, p.entry.term, p.entry.hash).None?
    ensures ProposalAt(proposals + [p], p.entry.term, p.entry.hash) == Some(p)
  {
    assert (proposals + [p])[|proposals|] == p;
    assert forall x :: x in proposals + [p] <==> x in proposals || x == p;
  }

  lemma RecordedGood(s: State, ctx: Context, known: iset<Vote>, p: Proposal)
    requires OrderedSeats(ctx.voters) && RecordInv(s, ctx, known) && ForeignSigned(p.prevotes, s.seat, s.height, known)
    requires Running(s) && ValidProposal(p, ctx) && p.entry.term == s.round
    requires !UnrecordedOwnVote(s, p.prevotes) && !UnrecordedOwnProposal(s, p)
    ensures var t := RecordProposal(Work(s.(inputKnown := true), []), ctx, p);
      && Good(t, ctx, known) && Extends(s, t.state)
      && t.state == s.(inputKnown := true, proposals := t.state.proposals, equivocations := t.state.equivocations)
  {
    hide RecordInv, RecordProposal, ValidProposal;
    var w := Work(s, []);
    KnownKept(w, ctx, known);
    var started := Work(s.(inputKnown := true), []);
    if p.entry.sequencer == s.seat {
      KnownOwnProposal(s, ctx, known, p);
    }
    RecordProposalKept(started, ctx, known, p);
    KeptTwice(w, started, RecordProposal(started, ctx, p), ctx, known);
  }

  /** The path of such a proposal: it is recorded, nobody is found guilty, and it is prevoted. */
  lemma ProposalStaged(s: State, ctx: Context, p: Proposal, admit: Admission)
    requires OrderedSeats(ctx.voters) && Running(s) && ValidProposal(p, ctx) && p.entry.term == s.round
    requires ctx.controlOf(p.entry.hash).None? && !UnrecordedOwnVote(s, p.prevotes) && !UnrecordedOwnProposal(s, p)
    requires Recordable(s, p) && WithinTolerance(s, ctx, GuiltyWith(s, ctx, p))
    ensures Stage(s, ctx, ReceiveProposal(p), admit)
      == Ok(ToDrive(PrevoteProposal(RecordProposal(Work(s.(inputKnown := true), []), ctx, p), p, admit)))
  {
    hide ValidProposal, RecordProposal, Equivocators, PrevoteProposal, ProposerFor;
    var w, started := Work(s, []), Work(s.(inputKnown := true), []);
    RetainQuiet(w, ctx, p.entry);
    SameGuilt(s, started.state, ctx);
    RecordGuilt(started, ctx, p);
    var recorded := RecordProposal(started, ctx, p);
    Subset(Equivocators(recorded.state, ctx), GuiltyWith(s, ctx, p));
    SequencerVotes(p, ctx);
  }

  lemma SequencerVotes(p: Proposal, ctx: Context)
    requires OrderedSeats(ctx.voters) && ValidProposal(p, ctx)
    ensures p.entry.sequencer in ctx.voters
  {
  }

  lemma ReduceIs(s: State, ctx: Context, event: Event, admit: Admission, staged: Work)
    requires OrderedSeats(ctx.voters) && Stage(s, ctx, event, admit) == Ok(ToDrive(staged))
    ensures Reduce(s, ctx, event, admit) == Ok(Drive(staged, ctx, admit))
  {
  }

  lemma ExtendsVotes(s: State, t: State, vote: Vote)
    requires Extends(s, t) && vote in s.votes
    ensures vote in t.votes
  {
  }

  lemma OnlyOwn(s: State, ctx: Context, known: iset<Vote>, vote: Vote)
    requires RecordInv(s, ctx, known) && vote in s.votes
    ensures forall v :: v in s.votes && v.seat == vote.seat && v.term == vote.term && v.phase == vote.phase ==>
      v == vote
  {
    hide RecordInv;
    RecordedVotes(s, ctx, known);
    forall v | v in s.votes && v.seat == vote.seat && v.term == vote.term && v.phase == vote.phase ensures v == vote {
      OnlyVote(s.votes, v, vote);
    }
  }

  /**
   * A voter's prevote on a proposal: its value where there is no lock, or a lock on that value, or a lock no later than
   * the round the proposal proves, and where the local policy admits the recorded proposal of that value; else nil.
   */
  function Answer(s: State, p: Proposal, admit: Admission): Vote {
    var recorded := ProposalAt(s.proposals, s.round, p.entry.hash);
    var accepts := MayPrevote(s, p) && (admit.Some? ==> admit.value(if recorded.Some? then recorded.value else p));
    Vote(s.seat, s.height, s.round, Prevote, if accepts then Some(p.entry.hash) else None)
  }

  /** The vote is recorded and sent, and is the only one of its seat, round and phase. */
  predicate VotedOnce(s: State, t: Work, vote: Vote) {
    && vote in t.state.votes && BroadcastVote(vote) in t.effects
    && forall v :: v in t.state.votes && v.seat == vote.seat && v.term == vote.term && v.phase == vote.phase ==>
         v == vote
  }

  /**
   * A valid proposal of its present round that a running voter has not answered yet gets its prevote at once: for the
   * proposal's value if the voter has no lock, or a lock on that value, or a lock no later than the round the proposal
   * proves, and the local policy admits it; nil otherwise. Only this prevote is signed for the round.
   */
  lemma ProposalPrevoted(s: State, ctx: Context, known: iset<Vote>, p: Proposal, admit: Admission)
    requires OrderedSeats(ctx.voters) && RecordInv(s, ctx, known) && EventSigned(s, ReceiveProposal(p), known)
    requires Running(s) && s.step == AtPropose && ValidProposal(p, ctx) && p.entry.term == s.round
    requires ctx.controlOf(p.entry.hash).None? && !UnrecordedOwnVote(s, p.prevotes) && !UnrecordedOwnProposal(s, p)
    requires Recordable(s, p) && WithinTolerance(s, ctx, GuiltyWith(s, ctx, p))
    ensures var r := Reduce(s, ctx, ReceiveProposal(p), admit);
      r.Ok? && VotedOnce(s, r.value, Answer(s, p, admit))
  {
    hide RecordInv, ValidProposal, RecordProposal, Drive, Equivocators, Extends, EffectsRecorded, PrevoteProposal,
      UnrecordedOwnVote, UnrecordedOwnProposal, Reduce, Stage;
    var w := Work(s, []);
    RetainQuiet(w, ctx, p.entry);
    var started := Work(s.(inputKnown := true), []);
    SameGuilt(s, started.state, ctx);
    ProposalStaged(s, ctx, p, admit);
    StageKept(s, ctx, known, ReceiveProposal(p), admit);
    var recorded := RecordProposal(started, ctx, p);
    RecordGuilt(started, ctx, p);
    SequencerVotes(p, ctx);
    RecordedGood(s, ctx, known, p);
    PrevoteIsOwed(recorded, ctx, known, p, admit);
    var staged := PrevoteProposal(recorded, p, admit);
    var vote := OwedPrevote(recorded.state, p, admit);
    DriveKept(staged, ctx, known, admit);
    RecordUndeciding(started, ctx, p);
    DriveSettles(staged, ctx, known, admit);
    var t := Drive(staged, ctx, admit);
    ReduceIs(s, ctx, ReceiveProposal(p), admit, staged);
    assert staged.state.votes[|recorded.state.votes|] == vote;
    ExtendsVotes(staged.state, t.state, vote);
    assert staged.effects[|recorded.effects|] == BroadcastVote(vote);
    assert t.effects[..|staged.effects|] == staged.effects;
    OnlyOwn(t.state, ctx, known, vote);
  }

  // ---- votes ----

  /** A vote that a running record may count at once: valid, of this height and not a later round. */
  predicate Countable(s: State, ctx: Context, vote: Vote) {
    ValidVote(vote, ctx.voters) && vote.height == s.height && vote.term <= s.round && !UnrecordedOwnBallot(s, vote)
  }

  /** The voters proven faulty once this vote is counted. */
  function GuiltyVote(s: State, ctx: Context, vote: Vote): set<Seat> {
    var held := VoteOf(s.votes, vote.seat, vote.term, vote.phase);
    Equivocators(s, ctx) + if held.Some? && held.value.value != vote.value then {vote.seat} else {}
  }

  lemma VoteGuilt(w: Work, ctx: Context, vote: Vote)
    ensures var t := RecordVote(w, vote).state;
      && t == w.state.(votes := t.votes, equivocations := t.equivocations)
      && Equivocators(t, ctx) <= GuiltyVote(w.state, ctx, vote)
  {
    hide Equivocators;
    var s, t := w.state, RecordVote(w, vote).state;
    SameGuilt(s, t, ctx);
    if t.equivocations != s.equivocations {
      var e := t.equivocations[|s.equivocations|];
      var u := s.(equivocations := s.equivocations + [e]);
      SameGuilt(u, t, ctx);
      forall x | x in Equivocators(u, ctx) ensures x in Equivocators(s, ctx) || x == vote.seat {
        NotedGuilt(s, ctx, e, x);
      }
    }
  }

  /** A countable vote that proves no more faults than are tolerated is counted, and the record is driven. */
  lemma VoteCounted(s: State, ctx: Context, vote: Vote, admit: Admission)
    requires OrderedSeats(ctx.voters) && s.halted.None? && Countable(s, ctx, vote)
    requires WithinTolerance(s, ctx, GuiltyVote(s, ctx, vote))
    ensures Stage(s, ctx, ReceiveVote(vote), admit) == Ok(ToDrive(RecordVote(Work(s, []), vote)))
    ensures var t := RecordVote(Work(s, []), vote).state;
      VoteOf(s.votes, vote.seat, vote.term, vote.phase).None? ==> t == s.(votes := s.votes + [vote])
  {
    hide ValidVote, UnrecordedOwnBallot, RecordVote, Equivocators;
    var w := Work(s, []);
    VoteGuilt(w, ctx, vote);
    Subset(Equivocators(RecordVote(w, vote).state, ctx), GuiltyVote(s, ctx, vote));
    NewVote(w, vote);
  }

  lemma NewVote(w: Work, vote: Vote)
    ensures VoteOf(w.state.votes, vote.seat, vote.term, vote.phase).None? ==>
      RecordVote(w, vote) == w.(state := w.state.(votes := w.state.votes + [vote]))
  {
  }

  // ---- timeouts, rounds, certificates, inputs ----

  /** A timer of the present round whose expiry this record still has to act on. */
  predicate TimerRuns(s: State, phase: Step) {
    && TimerOf(s.timers, phase)
    && match phase
       case AtPropose => s.step == AtPropose
       case AtPrevote => s.step != AtPrecommit
       case AtPrecommit => true
  }

  /** The nil votes and the round a timeout leads to. */
  predicate WentOn(s: State, t: Work, phase: Step) {
    && t.state.round == (if phase == AtPrecommit then s.round + 1 else s.round)
    && (phase == AtPropose || (phase == AtPrevote && s.step == AtPropose) ==>
          var vote := Vote(s.seat, s.height, s.round, Prevote, None);
          vote in t.state.votes && BroadcastVote(vote) in t.effects)
    && (phase == AtPrevote ==>
          var vote := Vote(s.seat, s.height, s.round, Precommit, None);
          vote in t.state.votes && BroadcastVote(vote) in t.effects)
  }

  lemma TimeoutStaged(s: State, ctx: Context, known: iset<Vote>, phase: Step)
    requires OrderedSeats(ctx.voters) && RecordInv(s, ctx, known) && !Finished(s) && TimerRuns(s, phase)
    ensures var staged := OnTimeout(Work(s, []), ctx, phase, s.round);
      staged.ToDrive? && WentOn(s, staged.work, phase)
  {
    hide RecordInv, EnterRound;
    RecordedVotes(s, ctx, known);
    if phase == AtPrecommit {
      EntersRound(Work(s, []), ctx, s.round + 1);
    } else if phase == AtPropose {
      NilSigned(Work(s, []), Prevote);
    } else {
      if s.step == AtPropose {
        NilSigned(Work(s, []), Prevote);
        PrevoteLeavesPrecommit(s);
      }
      NilSigned(if s.step == AtPropose then SignLocalVote(Work(s, []), Prevote, None, None) else Work(s, []),
                Precommit);
    }
  }

  lemma NilSigned(w: Work, phase: Phase)
    requires OwnVote(w.state, phase).None?
    ensures var t, vote := SignLocalVote(w, phase, None, None),
                           Vote(w.state.seat, w.state.height, w.state.round, phase, None);
      && t == Work(w.state.(votes := w.state.votes + [vote], step := StepOf(phase)), w.effects + [BroadcastVote(vote)])
      && vote in t.state.votes && BroadcastVote(vote) in t.effects
      && (forall v :: v in w.state.votes ==> v in t.state.votes) && (forall e :: e in w.effects ==> e in t.effects)
  {
    var t := SignLocalVote(w, phase, None, None);
    assert t.state.votes[|w.state.votes|] in t.state.votes && t.effects[|w.effects|] in t.effects;
  }

  lemma PrevoteLeavesPrecommit(s: State)
    requires OwnVote(s, Prevote).None? && OwnVote(s, Precommit).None?
    ensures OwnVote(SignLocalVote(Work(s, []), Prevote, None, None).state, Precommit).None?
  {
    var vote := Vote(s.seat, s.height, s.round, Prevote, None);
    assert forall v :: v in s.votes + [vote] <==> v in s.votes || v == vote;
  }

  /**
   * A timeout of the present round that still runs makes the voter go on without a value: it signs the nil votes it
   * still owes up to that phase, and from the last phase it enters the next round. Any other timeout does nothing.
   */
  lemma TimeoutActs(s: State, ctx: Context, known: iset<Vote>, phase: Step, round: nat, admit: Admission)
    requires OrderedSeats(ctx.voters) && RecordInv(s, ctx, known)
    ensures Reduce(s, ctx, Timeout(phase, round), admit).Ok?
    ensures var t := Reduce(s, ctx, Timeout(phase, round), admit).value;
      if Finished(s) || round != s.round || !TimerRuns(s, phase) then t == Work(s, []) else WentOn(s, t, phase)
  {
    hide RecordInv, OnTimeout, Drive, EffectsRecorded, Extends, Finished, TimerRuns;
    var w := Work(s, []);
    if Finished(s) || round != s.round || !TimerRuns(s, phase) {
      TimeoutIgnored(s, ctx, known, phase, round, admit);
    } else {
      StartsGood(s, ctx, known);
      TimeoutStaged(s, ctx, known, phase);
      TimeoutKept(w, ctx, known, phase, round);
      var staged := OnTimeout(w, ctx, phase, round).work;
      DriveKept(staged, ctx, known, admit);
      var t := Drive(staged, ctx, admit);
      TimeoutUndeciding(w, ctx, phase, round);
      ReduceIs(s, ctx, Timeout(phase, round), admit, staged);
      DrivePrefix(staged, ctx, known, admit);
      DriveCarries(staged, t);
    }
  }

  lemma TimeoutIgnored(s: State, ctx: Context, known: iset<Vote>, phase: Step, round: nat, admit: Admission)
    requires OrderedSeats(ctx.voters) && RecordInv(s, ctx, known)
    requires Finished(s) || round != s.round || !TimerRuns(s, phase)
    ensures Reduce(s, ctx, Timeout(phase, round), admit) == Ok(Work(s, []))
  {
    hide RecordInv, Drive, EnterRound;
    RecordedVotes(s, ctx, known);
  }

  lemma DrivePrefix(w: Work, ctx: Context, known: iset<Vote>, admit: Admission)
    requires Good(w, ctx, known) && w.state.halted.None?
    ensures w.effects <= Drive(w, ctx, admit).effects
  {
    hide RecordInv, EffectsRecorded, MaybeCommit, Backed, Calm;
    if w.state.decision.None? {
      DriveSettles(w, ctx, known, admit);
    } else {
      RunningLive(w.state, ctx, known);
      MaybeCommitDecides(w, ctx, known);
    }
  }

  lemma StartsGood(s: State, ctx: Context, known: iset<Vote>)
    requires OrderedSeats(ctx.voters) && RecordInv(s, ctx, known)
    ensures Good(Work(s, []), ctx, known)
  {
    hide RecordInv;
  }

  /** What is recorded and sent before a drive is so after it. */
  lemma DriveCarries(w: Work, t: Work)
    requires Extends(w.state, t.state) && w.effects <= t.effects
    ensures forall v :: v in w.state.votes ==> v in t.state.votes
    ensures forall e :: e in w.effects ==> e in t.effects
  {
  }

  lemma EntersRound(w: Work, ctx: Context, round: nat)
    requires round > w.state.round
    ensures EnterRound(w, ctx, round).state.round == round
  {
    hide ReplayHints, ProposerFor;
    var s := w.state;
    var ready := Select((h: Hint) => h.round == round, s.hints);
    var later := Select((h: Hint) => h.round > round, s.hints);
    var entered :=
      w.(state := s.(round := round, step := AtPropose, timers := Timers(false, false, false), hints := later));
    ReplayKeepsRound(entered, ctx, ready);
  }

  lemma {:induction false} ReplayKeepsRound(w: Work, ctx: Context, ready: seq<Hint>)
    ensures var t := ReplayHints(w, ctx, ready).state;
      t == w.state.(votes := t.votes, proposals := t.proposals, equivocations := t.equivocations)
    decreases |ready|
  {
    hide RecordConflicts, Equivocators;
    if ready != [] {
      match ready[0] {
        case VoteHint(_, _, vote) =>
          VoteGuilt(w, ctx, vote);
          ReplayKeepsRound(RecordVote(w, vote), ctx, ready[1..]);
        case ProposalHint(_, _, proposal) =>
          RecordGuilt(w, ctx, proposal);
          ReplayKeepsRound(RecordProposal(w, ctx, proposal), ctx, ready[1..]);
      }
    }
  }

  // ---- entering a round ----

  predicate OnlyEvidence(w: Work, t: Work) {
    w.effects <= t.effects && forall e :: e in NewEffects(w, t) ==> e.Equivocate?
  }

  lemma EvidenceCompose(w: Work, u: Work, t: Work)
    requires OnlyEvidence(w, u) && OnlyEvidence(u, t)
    ensures OnlyEvidence(w, t)
  {
    EffectsCompose(w, u, t);
  }

  lemma {:induction false} ConflictsAreEvidence(w: Work, seat: Seat, p: Proposal, sameRound: seq<Proposal>)
    ensures OnlyEvidence(w, RecordConflicts(w, seat, p, sameRound))
    decreases |sameRound|
  {
    if sameRound != [] {
      var s, first := w.state, sameRound[0];
      var evidence := TwoProposals(seat, p.entry.term, first, p);
      var next := if first.entry.hash != p.entry.hash && !ProposalsNoted(s, seat, p.entry.term) then
                    Work(s.(equivocations := s.equivocations + [evidence]), w.effects + [Equivocate(evidence)])
                  else w;
      ConflictsAreEvidence(next, seat, p, sameRound[1..]);
      assert OnlyEvidence(w, next);
      EvidenceCompose(w, next, RecordConflicts(w, seat, p, sameRound));
    }
  }

  lemma VoteIsEvidence(w: Work, vote: Vote)
    ensures OnlyEvidence(w, RecordVote(w, vote))
  {
  }

  lemma ProposalIsEvidence(w: Work, ctx: Context, p: Proposal)
    ensures OnlyEvidence(w, RecordProposal(w, ctx, p))
  {
    hide RecordConflicts;
    ConflictsAreEvidence(w, p.entry.sequencer, p, ProposalsAt(w.state.proposals, p.entry.term));
  }

  /** What a hint carried is now part of the record, as far as a record takes it. */
  predicate Taken(s: State, ctx: Context, h: Hint) {
    match h
    case VoteHint(_, _, vote) => VoteOf(s.votes, vote.seat, vote.term, vote.phase).Some?
    case ProposalHint(_, _, p) =>
      p.entry.sequencer in ctx.voters ==>
        ProposalAt(s.proposals, p.entry.term, p.entry.hash).Some? || |ProposalsAt(s.proposals, p.entry.term)| >= 2
  }

  lemma {:induction false} GrownAt(proposals: seq<Proposal>, more: seq<Proposal>, round: nat)
    requires proposals <= more
    ensures |ProposalsAt(proposals, round)| <= |ProposalsAt(more, round)|
    decreases |more|
  {
    if proposals != more {
      GrownAt(proposals, more[..|more| - 1], round);
    }
  }

  lemma TakenStays(s: State, t: State, ctx: Context, h: Hint)
    requires s.votes <= t.votes && s.proposals <= t.proposals && Taken(s, ctx, h)
    ensures Taken(t, ctx, h)
  {
    assert forall v :: v in s.votes ==> v in t.votes;
    assert forall p :: p in s.proposals ==> p in t.proposals;
    if h.ProposalHint? {
      GrownAt(s.proposals, t.proposals, h.proposal.entry.term);
    }
  }

  lemma OneTaken(w: Work, ctx: Context, h: Hint)
    ensures var t := match h
              case VoteHint(_, _, vote) => RecordVote(w, vote)
              case ProposalHint(_, _, p) => RecordProposal(w, ctx, p);
      && Taken(t.state, ctx, h) && w.state.votes <= t.state.votes && w.state.proposals <= t.state.proposals
      && OnlyEvidence(w, t)
  {
    hide RecordConflicts, Equivocators, OnlyEvidence;
    match h {
      case VoteHint(_, _, vote) =>
        RecordVoteNotes(w, vote);
        VoteIsEvidence(w, vote);
        VoteGuilt(w, ctx, vote);
      case ProposalHint(_, _, p) =>
        if p.entry.sequencer in ctx.voters {
          RecordProposalNotes(w, ctx, p);
        }
        ProposalIsEvidence(w, ctx, p);
        RecordGuilt(w, ctx, p);
        ConflictsGuilt(w, ctx, p.entry.sequencer, p, ProposalsAt(w.state.proposals, p.entry.term));
    }
  }

  lemma {:induction false} ReplayTakes(w: Work, ctx: Context, ready: seq<Hint>)
    ensures var t := ReplayHints(w, ctx, ready);
      && (forall h :: h in ready ==> Taken(t.state, ctx, h))
      && w.state.votes <= t.state.votes && w.state.proposals <= t.state.proposals && OnlyEvidence(w, t)
    decreases |ready|
  {
    hide RecordVote, RecordProposal, Taken, OnlyEvidence;
    if ready == [] {
      NothingNewSent(w);
    } else {
      var next := match ready[0]
        case VoteHint(_, _, vote) => RecordVote(w, vote)
        case ProposalHint(_, _, proposal) => RecordProposal(w, ctx, proposal);
      OneTaken(w, ctx, ready[0]);
      ReplayTakes(next, ctx, ready[1..]);
      var t := ReplayHints(w, ctx, ready);
      EvidenceCompose(w, next, t);
      forall h | h in ready ensures Taken(t.state, ctx, h) {
        if h == ready[0] {
          TakenStays(next.state, t.state, ctx, h);
        }
      }
    }
  }

  lemma NothingNewSent(w: Work)
    ensures OnlyEvidence(w, w)
  {
  }

  /**
   * Entering a later round starts it afresh: the hints of that round are taken, those of later rounds are kept, the
   * elected proposer is asked for a value, and the proposal timer starts where an input is known.
   */
  lemma RoundEntered(w: Work, ctx: Context, round: nat)
    requires round > w.state.round
    ensures var s, t := w.state, EnterRound(w, ctx, round);
      && t.state.round == round && t.state.step == AtPropose
      && t.state.timers == Timers(s.inputKnown, false, false)
      && (forall h :: h in t.state.hints <==> h in s.hints && h.round > round)
      && (forall h :: h in s.hints && h.round == round ==> Taken(t.state, ctx, h))
      && s.votes <= t.state.votes && s.proposals <= t.state.proposals
      && w.effects <= t.effects
      && (forall r, hash :: RequestValue(r, hash) in NewEffects(w, t) <==>
            r == round && hash == ValidHash(s) && ProposerFor(s.height, round, ctx) == Some(s.seat))
      && (forall step, r :: ScheduleTimeout(step, r) in NewEffects(w, t) <==>
          step == AtPropose && r == round && s.inputKnown)
  {
    hide ReplayHints, ProposerFor, Taken;
    var s := w.state;
    var ready := Select((h: Hint) => h.round == round, s.hints);
    var later := Select((h: Hint) => h.round > round, s.hints);
    var entered :=
      w.(state := s.(round := round, step := AtPropose, timers := Timers(false, false, false), hints := later));
    ReplayTakes(entered, ctx, ready);
    ReplayKeepsRound(entered, ctx, ready);
    var replayed := ReplayHints(entered, ctx, ready);
    var t := EnterRound(w, ctx, round);
    forall h | h in s.hints && h.round == round ensures Taken(t.state, ctx, h) {
      assert h in ready;
      TakenStays(replayed.state, t.state, ctx, h);
    }
    var asked := if ProposerFor(s.height, round, ctx) == Some(s.seat) then [RequestValue(round, ValidHash(s))] else [];
    var timed := if s.inputKnown then [ScheduleTimeout(AtPropose, round)] else [];
    assert t.effects == replayed.effects + asked + timed;
    assert NewEffects(w, t) == NewEffects(entered, replayed) + asked + timed;
  }

  // ---- jumping ahead ----

  lemma {:induction false} HighestReached(hints: seq<Hint>, i: nat, round: nat)
    requires i < |hints| && hints[i].round >= round
    ensures var rounds := HintRoundsDown(hints); |rounds| >= 1 && rounds[0] >= round
  {
    if i > 0 {
      HighestReached(hints[1..], i - 1, round);
    }
  }

  lemma {:induction false} SecondReached(hints: seq<Hint>, i: nat, j: nat, round: nat)
    requires i < j < |hints| && hints[i].round >= round && hints[j].round >= round
    ensures var rounds := HintRoundsDown(hints); |rounds| >= 2 && rounds[1] >= round
  {
    var x, tail := hints[0].round, HintRoundsDown(hints[1..]);
    if i > 0 {
      SecondReached(hints[1..], i - 1, j - 1, round);
    }
    HighestReached(hints[1..], j - 1, round);
    assert HintRoundsDown(hints) == InsertDown(x, tail);
    if x < tail[0] {
      assert InsertDown(x, tail) == [tail[0]] + InsertDown(x, tail[1..]);
    } else {
      assert InsertDown(x, tail) == [x] + tail;
    }
  }

  /** A jump reaches a later round exactly when the hints of two voters do. */
  lemma JumpsIff(w: Work, ctx: Context, round: nat)
    requires OneHintPerSeat(w.state.hints) && round > w.state.round
    ensures MaybeJump(w, ctx).state.round >= round <==> TwoHints(w.state.hints, round)
  {
    hide EnterRound, HintRoundsDown;
    var hints := w.state.hints;
    if |hints| >= 2 {
      var i, j := SecondHighestHint(hints);
      assert hints[i] in hints && hints[j] in hints && hints[i].seat != hints[j].seat;
    }
    var rounds := HintRoundsDown(hints);
    if |rounds| >= 2 && rounds[1] > w.state.round {
      EntersRound(w, ctx, rounds[1]);
    }
    if a, b :| a in hints && b in hints && a.seat != b.seat && a.round >= round && b.round >= round {
      var i :| 0 <= i < |hints| && hints[i] == a;
      var j :| 0 <= j < |hints| && hints[j] == b;
      SecondReached(hints, if i < j then i else j, if i < j then j else i, round);
    } else {
      RoundsCounted(hints);
    }
  }

  lemma {:induction false} RoundsCounted(hints: seq<Hint>)
    ensures |HintRoundsDown(hints)| == |hints|
  {
    if hints != [] {
      HighestHint(hints);
    }
  }

  /** A new hint counts like one more, whether it is appended or replaces an older one of its seat. */
  lemma {:induction false} HintCounts(hints: seq<Hint>, hint: Hint, h: Hint) returns (k: Hint)
    requires h in hints || h == hint
    ensures k in AddHint(hints, hint) && k.seat == h.seat && k.round >= h.round
  {
    if hints == [] {
      k := hint;
    } else if hints[0].seat == hint.seat {
      k := if h == hints[0] || h == hint then if hints[0].round < hint.round then hint else hints[0] else h;
    } else if h == hints[0] {
      k := h;
    } else {
      k := HintCounts(hints[1..], hint, h);
    }
  }

  lemma AddedReach(hints: seq<Hint>, hint: Hint, round: nat)
    ensures TwoHints(AddHint(hints, hint), round) <==> TwoHints(hints + [hint], round)
  {
    HintAdded(hints, hint);
    if a, b :| a in hints + [hint] && b in hints + [hint] && a.seat != b.seat && a.round >= round && b.round >= round {
      var x := HintCounts(hints, hint, a);
      var y := HintCounts(hints, hint, b);
    }
  }

  lemma ThresholdRound(w: Work, ctx: Context)
    ensures HaltIfFaultThresholdExceeded(w, ctx).state.round == w.state.round
  {
  }

  /**
   * A vote of a later round moves a running voter up to each later round exactly when, with this vote, the hints of two
   * voters reach it.
   */
  lemma LaterVoteJumps(s: State, ctx: Context, known: iset<Vote>, vote: Vote, admit: Admission, round: nat)
    requires OrderedSeats(ctx.voters) && RecordInv(s, ctx, known) && EventSigned(s, ReceiveVote(vote), known)
    requires s.halted.None? && ValidVote(vote, ctx.voters) && vote.height == s.height && vote.seat != s.seat
    requires vote.term > s.round && round > s.round
    ensures var r := Reduce(s, ctx, ReceiveVote(vote), admit);
      r.Ok? && (r.value.state.round >= round <==> TwoHints(s.hints + [VoteHint(vote.seat, vote.term, vote)], round))
  {
    hide RecordInv, ValidVote, RecordVote, MaybeJump, HaltIfFaultThresholdExceeded, TwoHints, AddHint, Drive, Extends,
      EffectsRecorded, OneHintPerSeat;
    var w, hint := Work(s, []), VoteHint(vote.seat, vote.term, vote);
    RecordedHints(s, ctx, known);
    HintJumps(w, ctx, hint, round);
    var hinted := HintVote(w, ctx, vote);
    VoteGuilt(hinted, ctx, vote);
    ThresholdRound(RecordVote(hinted, vote), ctx);
    StageKept(s, ctx, known, ReceiveVote(vote), admit);
    var staged := Stage(s, ctx, ReceiveVote(vote), admit).value;
    if staged.ToDrive? {
      DriveKept(staged.work, ctx, known, admit);
    }
  }

  /** A proposal of a later round does the same. */
  lemma LaterProposalJumps(s: State, ctx: Context, known: iset<Vote>, p: Proposal, admit: Admission, round: nat)
    requires OrderedSeats(ctx.voters) && RecordInv(s, ctx, known) && EventSigned(s, ReceiveProposal(p), known)
    requires s.halted.None? && ValidProposal(p, ctx) && ctx.controlOf(p.entry.hash).None? && p.entry.sequencer != s.seat
    requires !UnrecordedOwnVote(s, p.prevotes) && p.entry.term > s.round && round > s.round
    ensures var r := Reduce(s, ctx, ReceiveProposal(p), admit);
      r.Ok? && (r.value.state.round >= round
                <==> TwoHints(s.hints + [ProposalHint(p.entry.sequencer, p.entry.term, p)], round))
  {
    hide RecordInv, ValidProposal, RecordProposal, MaybeJump, HaltIfFaultThresholdExceeded, TwoHints, AddHint, Drive,
      Extends, EffectsRecorded, OneHintPerSeat, PrevoteProposal, UnrecordedOwnVote, ProposalAt, GuiltyWith;
    var hint := ProposalHint(p.entry.sequencer, p.entry.term, p);
    RecordedHints(s, ctx, known);
    RetainQuiet(Work(s, []), ctx, p.entry);
    var started := Work(s.(inputKnown := true), []);
    HintJumps(started, ctx, hint, round);
    var hinted := HintProposal(started, ctx, p);
    RecordGuilt(hinted, ctx, p);
    var recorded := RecordProposal(hinted, ctx, p);
    ThresholdRound(recorded, ctx);
    PrevoteSameRound(HaltIfFaultThresholdExceeded(recorded, ctx), p, admit);
    StageKept(s, ctx, known, ReceiveProposal(p), admit);
    var staged := Stage(s, ctx, ReceiveProposal(p), admit).value;
    if staged.ToDrive? {
      DriveKept(staged.work, ctx, known, admit);
    }
  }

  lemma HintJumps(w: Work, ctx: Context, hint: Hint, round: nat)
    requires OneHintPerSeat(w.state.hints) && round > w.state.round
    ensures var hinted := w.(state := w.state.(hints := AddHint(w.state.hints, hint)));
      MaybeJump(hinted, ctx).state.round >= round <==> TwoHints(w.state.hints + [hint], round)
  {
    hide MaybeJump, TwoHints;
    AddHintMembers(w.state.hints, hint);
    AddedReach(w.state.hints, hint, round);
    JumpsIff(w.(state := w.state.(hints := AddHint(w.state.hints, hint))), ctx, round);
  }

  // ---- inputs, own proposals and certificates ----

  /** An input makes an idle voter of a new round start its proposal timer, and the elected proposer ask for a value. */
  lemma InputStarts(s: State, ctx: Context, admit: Admission)
    requires OrderedSeats(ctx.voters)
    ensures Reduce(s, ctx, InputAvailable, admit).Ok?
    ensures var t := Reduce(s, ctx, InputAvailable, admit).value;
      if Finished(s) then t == Work(s, [])
      else
        var starts := s.step == AtPropose && !s.timers.propose;
        && t.state == s.(inputKnown := true, timers := s.timers.(propose := s.timers.propose || starts))
        && (forall step, r :: ScheduleTimeout(step, r) in t.effects <==> starts && step == AtPropose && r == s.round)
        && (forall r, hash :: RequestValue(r, hash) in t.effects <==>
              starts && ProposerFor(s.height, s.round, ctx) == Some(s.seat) && r == s.round && hash == ValidHash(s))
  {
    hide ProposerFor;
  }

  lemma OwnProposalIs(s: State, source: Entry)
    ensures var p := OwnProposal(s, source);
      && p.entry.sequencer == s.seat && p.entry.term == s.round
      && p.validRound == (if s.valid.Some? then Some(s.valid.value.round) else None)
      && p.prevotes == (if s.valid.Some? then s.valid.value.prevotes else [])
  {
  }

  /** The first proposal of the elected proposer is recorded, under its own hash. */
  lemma OwnRecorded(s: State, ctx: Context, known: iset<Vote>, p: Proposal)
    requires OrderedSeats(ctx.voters) && RecordInv(s, ctx, known) && Running(s) && ValidProposal(p, ctx)
    requires p.entry.term == s.round && p.entry.sequencer == s.seat
    requires p.prevotes == (if s.valid.Some? then s.valid.value.prevotes else [])
    requires forall q :: q in s.proposals && q.entry.term == s.round ==> q.entry.sequencer != s.seat
    ensures var t := RecordProposal(Work(s.(inputKnown := true), []), ctx, p);
      && Good(t, ctx, known) && p in t.state.proposals
      && ProposalAt(t.state.proposals, s.round, p.entry.hash) == Some(p)
      && t.state == s.(inputKnown := true, proposals := t.state.proposals, equivocations := t.state.equivocations)
  {
    hide RecordInv, RecordProposal, ValidProposal, EffectsRecorded, Equivocators, Extends, CommitRule, PrevoteRule;
    var w, started := Work(s, []), Work(s.(inputKnown := true), []);
    StartsGood(s, ctx, known);
    KnownKept(w, ctx, known);
    OwnProposalInv(started.state, ctx, known, p);
    RecordProposalKept(started, ctx, known, p);
    ValidIsElected(p, ctx);
    RecordedBinding(s, ctx, known);
    NoneOfRound(s, ctx, known);
    RecordGuilt(started, ctx, p);
  }

  lemma ValidIsElected(p: Proposal, ctx: Context)
    requires OrderedSeats(ctx.voters) && ValidProposal(p, ctx)
    ensures p.entry.sequencer in ctx.voters && p.entry.height == ctx.height
    ensures ProposerFor(ctx.height, p.entry.term, ctx) == Some(p.entry.sequencer)
  {
  }

  /** Every recorded proposal of a round is of its elected proposer. */
  lemma NoneOfRound(s: State, ctx: Context, known: iset<Vote>)
    requires OrderedSeats(ctx.voters) && RecordInv(s, ctx, known) && ProposerFor(s.height, s.round, ctx) == Some(s.seat)
    requires forall q :: q in s.proposals && q.entry.term == s.round ==> q.entry.sequencer != s.seat
    ensures ProposalsAt(s.proposals, s.round) == []
  {
    hide RecordInv, ValidProposal, ProposerFor;
    RecordedBinding(s, ctx, known);
    forall q | q in s.proposals ensures q.entry.term != s.round {
      RecordedProposal(s, ctx, known, q);
      ValidIsElected(q, ctx);
    }
    NoneSelected(s.proposals, s.round);
  }

  /** A voter's own proposal is always one it may prevote, whatever it is locked on. */
  lemma OwnIsAccepted(s: State, ctx: Context, known: iset<Vote>, source: Entry)
    requires RecordInv(s, ctx, known)
    ensures MayPrevote(s, OwnProposal(s, source))
  {
    hide RecordInv;
    RecordedQuorums(s, ctx, known);
  }

  function Source(s: State, candidate: Option<Entry>): Option<Entry> {
    if s.valid.Some? then Some(s.valid.value.proposal.entry) else candidate
  }

  lemma SentGood(w: Work, ctx: Context, known: iset<Vote>, p: Proposal)
    requires Good(w, ctx, known) && p in w.state.proposals && p.entry.sequencer == w.state.seat
    ensures Good(w.Emit(BroadcastProposal(p)), ctx, known)
  {
    hide RecordInv;
  }

  lemma ProposeStaged(s: State, ctx: Context, candidate: Option<Entry>, admit: Admission)
    requires OrderedSeats(ctx.voters) && Running(s) && s.step == AtPropose
    requires ProposerFor(s.height, s.round, ctx) == Some(s.seat) && Source(s, candidate).Some?
    requires forall q :: q in s.proposals && q.entry.term == s.round ==> q.entry.sequencer != s.seat
    requires ValidProposal(OwnProposal(s, Source(s, candidate).value), ctx)
    requires ctx.controlOf(Source(s, candidate).value.hash).None?
    ensures var p := OwnProposal(s, Source(s, candidate).value);
      Stage(s, ctx, Propose(candidate), admit) == Ok(ToDrive(PrevoteProposal(
        RecordProposal(Work(s.(inputKnown := true), []), ctx, p).Emit(BroadcastProposal(p)), p, admit)))
  {
    hide ProposerFor, ValidProposal, RecordProposal, PrevoteProposal;
    RetainQuiet(Work(s.(inputKnown := true), []), ctx, OwnProposal(s, Source(s, candidate).value).entry);
  }

  /** The elected proposer that has not proposed yet proposes its valid value, or the candidate, and prevotes on it. */
  lemma ProposerProposes(s: State, ctx: Context, known: iset<Vote>, candidate: Option<Entry>, admit: Admission)
    requires OrderedSeats(ctx.voters) && RecordInv(s, ctx, known) && Running(s) && s.step == AtPropose
    requires ProposerFor(s.height, s.round, ctx) == Some(s.seat) && Source(s, candidate).Some?
    requires forall q :: q in s.proposals && q.entry.term == s.round ==> q.entry.sequencer != s.seat
    requires ValidProposal(OwnProposal(s, Source(s, candidate).value), ctx)
    requires ctx.controlOf(Source(s, candidate).value.hash).None?
    ensures Reduce(s, ctx, Propose(candidate), admit).Ok?
    ensures var t, p := Reduce(s, ctx, Propose(candidate), admit).value, OwnProposal(s, Source(s, candidate).value);
      var value := if admit.Some? && !admit.value(p) then None else Some(p.entry.hash);
      var vote := Vote(s.seat, s.height, s.round, Prevote, value);
      && p in t.state.proposals && BroadcastProposal(p) in t.effects
      && vote in t.state.votes && BroadcastVote(vote) in t.effects
  {
    hide RecordInv, ValidProposal, ProposerFor, RecordProposal, Drive, EffectsRecorded, PrevoteProposal,
      Extends, Reduce, Stage;
    var source := Source(s, candidate).value;
    var p := OwnProposal(s, source);
    var w, started := Work(s, []), Work(s.(inputKnown := true), []);
    OwnProposalIs(s, source);
    RetainQuiet(started, ctx, p.entry);
    StartsGood(s, ctx, known);
    OwnRecorded(s, ctx, known, p);
    var recorded := RecordProposal(started, ctx, p);
    var sent := recorded.Emit(BroadcastProposal(p));
    SentGood(recorded, ctx, known, p);
    PrevoteIsOwed(sent, ctx, known, p, admit);
    OwnIsAccepted(s, ctx, known, source);
    var staged := PrevoteProposal(sent, p, admit);
    ProposeStaged(s, ctx, candidate, admit);
    RecordUndeciding(started, ctx, p);
    PrevoteUndeciding(sent, p, admit);
    ProposeKept(w, ctx, known, candidate, admit);
    var t := Drive(staged, ctx, admit);
    DriveKept(staged, ctx, known, admit);
    DrivePrefix(staged, ctx, known, admit);
    ReduceIs(s, ctx, Propose(candidate), admit, staged);
    DriveCarries(staged, t);
    var vote := OwedPrevote(sent.state, p, admit);
    assert staged.state.votes[|sent.state.votes|] == vote && staged.effects[|sent.effects|] == BroadcastVote(vote);
    assert sent.effects[|recorded.effects|] == BroadcastProposal(p) && sent.effects <= staged.effects;
  }

  /**
   * A certificate decides a running record exactly when it is valid, holds no own vote or own entry this record does
   * not know, and carries no evidence that stops it. A decided record keeps its decision, and one of another value
   * stops it for good.
   */
  lemma CertificateDecides(s: State, ctx: Context, known: iset<Vote>, c: CertifiedEntry, admit: Admission)
    requires OrderedSeats(ctx.voters) && RecordInv(s, ctx, known) && s.halted.None?
    ensures var r := Reduce(s, ctx, ReceiveCommit(c), admit);
      var sound := ValidCertified(c, ctx) && !UnrecordedOwnVote(s, c.certificate) && !UnrecordedOwnEntry(s, c.entry)
                   && !EntryControlFault(s, ctx, c.entry);
      && (s.decision.None? ==> (r.Ok? && r.value.state.decision.Some? <==> sound))
      && (s.decision.None? && sound ==> r == Ok(Work(s.(decision := Some(c)), [Commit(c)])))
      && (s.decision.Some? && sound ==>
            && r.Ok?
            && (if s.decision.value.entry.hash == c.entry.hash then r.value == Work(s, [])
                else r.value.state.decision == s.decision && r.value.state.haltKind == Some(Terminal)))
  {
    hide RecordInv, ValidCertificate, UnrecordedOwnVote, UnrecordedOwnEntry, EntryControlFault;
    NothingBefore([Commit(c)]);
    RecordedCertificates(s, ctx, known);
    if EntryControlFault(s, ctx, c.entry) {
      FaultStops(Work(s, []), ctx, c.entry);
    }
  }

  lemma NothingBefore(effects: seq<Effect>)
    ensures [] + effects == effects
  {
  }

  lemma FaultStops(w: Work, ctx: Context, entry: Entry)
    requires EntryControlFault(w.state, ctx, entry)
    ensures HaltForEntryControl(w, ctx, entry).state.decision == w.state.decision
  {
  }

  // ---- a restart ----

  lemma RepeatsOnlySigned(s: State, e: Effect)
    requires !e.BroadcastVote? && !e.BroadcastProposal?
    ensures e !in EffectsOf(SignedRecords(s))
  {
    hide SignedRecords, EffectsOf;
    RepeatedIff(s, e);
  }

  /**
   * A restarted voter schedules exactly the timers whose expiry it still has to act on, hands out exactly the commit of
   * its decision, and asks for a value exactly where it is the elected proposer and has not proposed. A stopped one
   * does nothing but say that it stopped.
   */
  lemma RecoveryResumes(s: State, ctx: Context)
    requires OrderedSeats(ctx.voters)
    ensures RecoverEffects(s, ctx).Ok? <==> RestoreState(s, ctx, s.seat).Ok?
    ensures RecoverEffects(s, ctx).Ok? ==>
      var r, t := RecoverEffects(s, ctx).value, RestoreState(s, ctx, s.seat).value;
      if t.halted.Some? then r == [HaltEffect(t.halted.value)]
      else
        && (forall phase, round :: ScheduleTimeout(phase, round) in r
              <==> t.decision.None? && round == t.round && TimerRuns(t, phase))
        && (forall c :: Commit(c) in r <==> t.decision == Some(c))
        && (forall round, hash :: RequestValue(round, hash) in r <==>
              && t.decision.None? && t.step == AtPropose && round == t.round && hash == ValidHash(t)
              && ProposerFor(t.height, t.round, ctx) == Some(t.seat)
              && forall p :: p in t.proposals && p.entry.term == t.round ==> p.entry.sequencer != t.seat)
  {
    hide RestoreState, SignedRecords, EffectsOf, ProposerFor;
    if RecoverEffects(s, ctx).Ok? {
      var t := RestoreState(s, ctx, s.seat).value;
      forall e: Effect | !e.BroadcastVote? && !e.BroadcastProposal? ensures e !in EffectsOf(SignedRecords(t)) {
        RepeatsOnlySigned(t, e);
      }
    }
  }

  /**
   * A replay lets a record go on exactly when it restores, stopped at a certified value, and that value is now valid.
   * It then decides that value, hands out its commit, and runs again, unless the value carries a fault.
   */
  lemma ReplayResumes(s: State, ctx: Context, admit: Admission)
    requires OrderedSeats(ctx.voters)
    ensures var r := Reduce(s, ctx, ResumeAfterReplay, admit);
      && (r.Ok? <==>
            && RestoreState(s, ctx, s.seat) == Ok(s) && s.haltKind == Some(CertifiedValidation)
            && s.unapplied.Some? && ValidCertified(s.unapplied.value, ctx))
      && (r.Ok? && !EntryControlFault(s, ctx, s.unapplied.value.entry) ==>
            && r.value.effects == [Commit(s.unapplied.value)]
            && r.value.state == s.(decision := s.unapplied, halted := None, haltKind := None, unapplied := None))
  {
    hide RestoreState, ValidCertified, EntryControlFault;
    if OnResume(Work(s, []), ctx).Ok? {
      ResumesItself(Work(s, []), ctx);
    }
  }

  /**
   * A proposal that is not valid is refused, unless it is authentic and carries a proven accusation that contradicts
   * this record: then the record stops for good, with nothing else changed.
   */
  lemma RejectedIff(s: State, ctx: Context, p: Proposal, admit: Admission)
    requires OrderedSeats(ctx.voters) && !ValidProposal(p, ctx)
    ensures var r := Reduce(s, ctx, ReceiveProposal(p), admit);
      && (r.Ok? <==> AuthenticEvidenceProposal(p, ctx)
                     && exists c :: ctx.controlOf(p.entry.hash) == Some(c) && ObjectiveProofParent(c, ctx).Ok?
                                    && ControlFault(s, ctx, c))
      && (r.Ok? ==> r.value.state.haltKind == Some(Terminal) && SameOrStopped(s, r.value.state))
  {
    hide ValidProposal, AuthenticEvidenceProposal, ObjectiveProofParent, ControlFault;
    var control := ctx.controlOf(p.entry.hash);
    if control.Some? && ControlFault(s, ctx, control.value) {
      FaultIsTerminal(Work(s, []), ctx, control.value);
    }
  }

  lemma FaultIsTerminal(w: Work, ctx: Context, c: Control)
    requires ControlFault(w.state, ctx, c)
    ensures HaltForControl(w, ctx, c).state.haltKind == Some(Terminal)
    ensures SameOrStopped(w.state, HaltForControl(w, ctx, c).state) || w.state.halted.None?
  {
  }
}
