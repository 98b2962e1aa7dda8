/** What the evidence a record keeps is good for (packages/protocol/src/control.ts). */
module Convictions {
  import opened Results
  import opened Votes
  import opened Proposals
  import opened Consensus
  import opened ConsensusRestore
  import opened Transitions
  import opened ConsensusRecord
  import opened ConsensusSteps
  import opened ConsensusEvents
  import opened ConsensusReacts

  /** Two votes convict exactly a voter, not excluded yet, that signed both for one place and different values. */
  lemma VotesConvictIff(a: Vote, b: Vote, offender: Seat, ctx: Context)
    requires OrderedSeats(ctx.voters) && ctx.parentIntact && ValidVote(a, ctx.voters) && ValidVote(b, ctx.voters)
    ensures ValidateObjectiveAccusation(Control(offender, VoteConflict(a, b)), ctx).Ok?
      <==> && offender !in ctx.excluded && a != b && a.height == ctx.height
           && a == Vote(offender, b.height, b.term, b.phase, a.value) && b.seat == offender
  {
  }

  /** Kept evidence of either kind convicts, as long as its voter is not excluded and the parent is intact. */
  lemma NotedConvicts(s: State, ctx: Context, known: iset<Vote>, e: Equivocation)
    requires RecordInv(s, ctx, known) && e in s.equivocations
    requires e.TwoProposals? ==> ctx.extendsParent(e.first.entry.hash) && ctx.extendsParent(e.second.entry.hash)
    ensures ValidateObjectiveAccusation(EvidenceControl(e), ctx).Ok? <==> e.seat !in ctx.excluded && ctx.parentIntact
    ensures e.seat !in ctx.excluded && ctx.parentIntact ==>
      ObjectiveProofParent(EvidenceControl(e), ctx) == Ok(ctx.parentHash)
  {
    hide RecordInv, ValidCertificate;
    RecordedEvidence(s, ctx, known, e);
    RecordedBinding(s, ctx, known);
  }

  lemma RecordedEvidence(s: State, ctx: Context, known: iset<Vote>, e: Equivocation)
    requires RecordInv(s, ctx, known) && e in s.equivocations
    ensures OrderedSeats(ctx.voters) && ValidEquivocation(e, s.height, ctx)
  {
  }

  lemma HaltKeepsEvidence(w: Work, ctx: Context)
    ensures HaltIfFaultThresholdExceeded(w, ctx).state.equivocations == w.state.equivocations
  {
  }

  /**
   * A voter whose two votes for one place and different values reach one running voter is convicted by the evidence
   * that voter then keeps.
   */
  lemma ConflictConvicts(s: State, ctx: Context, known: iset<Vote>, vote: Vote, admit: Admission)
    requires OrderedSeats(ctx.voters) && RecordInv(s, ctx, known) && EventSigned(s, ReceiveVote(vote), known)
    requires s.halted.None? && ctx.parentIntact && vote.seat !in ctx.excluded
    requires ValidVote(vote, ctx.voters) && vote.height == s.height && vote.term <= s.round && vote.seat != s.seat
    requires exists first :: first in s.votes && first.seat == vote.seat && first.term == vote.term
                         && first.phase == vote.phase && first.value != vote.value
    ensures var r := Reduce(s, ctx, ReceiveVote(vote), admit);
      && r.Ok?
      && exists e :: e in r.value.state.equivocations && e.seat == vote.seat && e.round == vote.term && e.TwoVotes?
           && ObjectiveProofParent(EvidenceControl(e), ctx) == Ok(ctx.parentHash)
  {
    hide RecordInv, RecordVote, HaltIfFaultThresholdExceeded, Drive, Extends, EffectsRecorded, ValidVote,
      ValidateObjectiveAccusation, ObjectiveProofParent;
    var w := Work(s, []);
    var recorded := RecordVote(w, vote);
    var checked := HaltIfFaultThresholdExceeded(recorded, ctx);
    RecordedVotes(s, ctx, known);
    RecordVoteNotes(w, vote);
    HeldStays(s, ctx, known, vote);
    HaltKeepsEvidence(recorded, ctx);
    StageKept(s, ctx, known, ReceiveVote(vote), admit);
    ReduceKept(s, ctx, known, ReceiveVote(vote), admit);
    if checked.state.halted.None? {
      DriveKept(checked, ctx, known, admit);
    }
    var t := Reduce(s, ctx, ReceiveVote(vote), admit).value.state;
    assert t.equivocations == recorded.state.equivocations;
    var e :| e in t.equivocations && e.TwoVotes? && e.seat == vote.seat && e.round == vote.term
      && e.phase == vote.phase;
    NotedConvicts(t, ctx, known, e);
  }

  /** A vote for another value does not displace the recorded one. */
  lemma HeldStays(s: State, ctx: Context, known: iset<Vote>, vote: Vote)
    requires RecordInv(s, ctx, known)
    requires exists first :: first in s.votes && first.seat == vote.seat && first.term == vote.term
                         && first.phase == vote.phase && first.value != vote.value
    ensures var held := VoteOf(RecordVote(Work(s, []), vote).state.votes, vote.seat, vote.term, vote.phase);
      held.Some? && held.value.value != vote.value
  {
    hide RecordInv;
    RecordedVotes(s, ctx, known);
    var first :| first in s.votes && first.seat == vote.seat && first.term == vote.term
      && first.phase == vote.phase && first.value != vote.value;
    OnlyOwn(s, ctx, known, first);
  }

  /** What an accusation proves is its evidence at this height, or what an older height's history says of it. */
  lemma ProvenIff(c: Control, ctx: Context)
    ensures ObjectiveProofParent(c, ctx).Ok? <==>
      if EvidenceHeight(c) == ctx.height then ValidateObjectiveAccusation(c, ctx).Ok?
      else 1 <= EvidenceHeight(c) < ctx.height && ctx.historical(c).Some?
  {
    hide ValidateObjectiveAccusation;
  }

  /**
   * An accusation is taken exactly when it is proven. A running voter that it neither names nor leaves beside another
   * offender, and that signed everything in it, then holds an accusation, and this one if it held none.
   */
  lemma AccusationTaken(s: State, ctx: Context, known: iset<Vote>, c: Control, admit: Admission)
    requires OrderedSeats(ctx.voters) && RecordInv(s, ctx, known)
    ensures var r := Reduce(s, ctx, StageAccusation(c), admit);
      && (r.Ok? <==> ObjectiveProofParent(c, ctx).Ok?)
      && (r.Ok? && !Finished(s) && !ControlFault(s, ctx, c) && c.offender !in ctx.excluded
            && !UnrecordedOwnEvidence(s, ctx, c.evidence) ==>
              && r.value.state.halted.None? && r.value.effects == []
              && r.value.state.pendingAccusation == (if s.pendingAccusation.Some? then s.pendingAccusation else Some(c))
              && r.value.state.provenOffender.Some?
              && r.value.state.provenOffender.value.control.offender == c.offender)
  {
    hide RecordInv, ObjectiveProofParent, UnrecordedOwnEvidence;
    RecordedBinding(s, ctx, known);
  }

  /** A pending accusation is dropped exactly once it is the proven one and its offender is excluded. */
  lemma StaleCleared(s: State, ctx: Context, admit: Admission)
    requires OrderedSeats(ctx.voters)
    ensures var r := Reduce(s, ctx, ClearStaleAccusation, admit);
      && r.Ok? && r.value.effects == [] && r.value.state == s.(pendingAccusation := r.value.state.pendingAccusation)
      && (s.pendingAccusation.Some? ==>
            if s.provenOffender.Some? && s.provenOffender.value.control == s.pendingAccusation.value
               && s.pendingAccusation.value.offender in ctx.excluded
            then r.value.state.pendingAccusation.None?
            else r.value.state.pendingAccusation == s.pendingAccusation)
  {
  }

  /** A halt stops a running record for good and is announced once; a stopped record stays as it is. */
  lemma HaltStops(s: State, ctx: Context, reason: HaltReason, admit: Admission)
    requires OrderedSeats(ctx.voters)
    ensures var r := Reduce(s, ctx, TerminalHalt(reason), admit);
      && r.Ok?
      && r.value == if s.halted.Some? then Work(s, [])
                    else Work(s.(halted := Some(reason), haltKind := Some(Terminal), unapplied := None),
                              [HaltEffect(reason)])
  {
  }
}
