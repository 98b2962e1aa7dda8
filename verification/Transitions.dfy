/** One event of one record, from its checks to the effects it hands out (packages/protocol/src/consensus.ts). */
module Transitions {
  import opened Results
  import opened Votes
  import opened Proposals
  import opened Consensus
  import opened ConsensusRestore

  /** After a replay: a record that restores and stopped at a certified value goes on, once that value validates. */
  function OnResume(w: Work, ctx: Context): Result<Work>
    requires OrderedSeats(ctx.voters)
  {
    match RestoreState(w.state, ctx, w.state.seat)
    case Err(code) => Err(code)
    case Ok(s) =>
      if s.haltKind != Some(CertifiedValidation) || s.unapplied.None? then Err("consensus-repair-unavailable")
      else if !ValidCertified(s.unapplied.value, ctx) then Err("consensus-repair-incomplete")
      else if EntryControlFault(s, ctx, s.unapplied.value.entry) then
        Ok(HaltForEntryControl(w.(state := s), ctx, s.unapplied.value.entry))
      else
        Ok(Work(s.(decision := s.unapplied, halted := None, haltKind := None, unapplied := None),
                [Commit(s.unapplied.value)]))
  }

  function Finish(r: Result<Work>): Result<Staged> {
    match r
    case Ok(w) => Ok(Done(w))
    case Err(code) => Err(code)
  }

  /** One event up to the point where the record is driven on. */
  function Stage(s: State, ctx: Context, event: Event, admit: Admission): Result<Staged>
    requires OrderedSeats(ctx.voters)
  {
    var w := Work(s, []);
    match event
    case InputAvailable => Ok(Done(OnInputAvailable(w, ctx)))
    case Propose(candidate) => OnPropose(w, ctx, candidate, admit)
    case ReceiveProposal(proposal) => OnProposal(w, ctx, proposal, admit)
    case ReceiveVote(vote) => OnVote(w, ctx, vote)
    case ReceiveCommit(certified) => Finish(OnCommit(w, ctx, certified))
    case StageAccusation(control) => Finish(RetainAccusation(w, ctx, control))
    case ClearStaleAccusation => Ok(Done(OnClearStale(w, ctx)))
    case TerminalHalt(reason) => Ok(Done(Halt(w, reason)))
    case ResumeAfterReplay => Finish(OnResume(w, ctx))
    case Timeout(phase, round) => Ok(OnTimeout(w, ctx, phase, round))
  }

  function Settle(staged: Staged, ctx: Context, admit: Admission): Work
    requires OrderedSeats(ctx.voters)
  {
    match staged
    case Done(w) => w
    case ToDrive(w) => Drive(w, ctx, admit)
  }

  /** One event of an owned, already validated record. */
  function Reduce(s: State, ctx: Context, event: Event, admit: Admission): Result<Work>
    requires OrderedSeats(ctx.voters)
  {
    match Stage(s, ctx, event, admit)
    case Ok(staged) => Ok(Settle(staged, ctx, admit))
    case Err(code) => Err(code)
  }

  /** A record whose halt can be cleared is its own restoration: a stopped one would be stopped for good. */
  lemma ResumesItself(w: Work, ctx: Context)
    requires OrderedSeats(ctx.voters) && OnResume(w, ctx).Ok?
    ensures RestoreState(w.state, ctx, w.state.seat) == Ok(w.state)
    ensures w.state.haltKind == Some(CertifiedValidation) && w.state.unapplied.Some?
    ensures ValidCertified(w.state.unapplied.value, ctx)
  {
    hide RestoreState, ValidCertified;
    RestoreKeepsRecord(w.state, ctx, w.state.seat);
  }
}
