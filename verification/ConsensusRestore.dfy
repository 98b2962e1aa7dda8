/** Re-validating a persisted record (restoreConsensusState, packages/protocol/src/consensus.ts). */
module ConsensusRestore {
  import opened Results
  import opened Votes
  import opened Proposals
  import opened Consensus

  predicate Bound(s: State, ctx: Context, seat: Seat) {
    && seat in ctx.voters
    && s.binding == ctx.binding && s.height == ctx.height && s.parentHash == ctx.parentHash
    && s.seat == seat
  }

  predicate StoredProposals(s: State, ctx: Context)
    requires OrderedSeats(ctx.voters)
  {
    forall p :: p in s.proposals ==>
      ValidProposal(p, ctx) && p.entry.term <= s.round && |ProposalsAt(s.proposals, p.entry.term)| <= 2
  }

  predicate StoredVotes(s: State, ctx: Context) {
    forall v :: v in s.votes ==> ValidVote(v, ctx.voters) && v.height == s.height && v.term <= s.round
  }

  predicate SameBallotPlace(a: Vote, b: Vote) {
    a.seat == b.seat && a.term == b.term && a.phase == b.phase
  }

  predicate UniqueVotes(votes: seq<Vote>) {
    forall i, j :: 0 <= i < j < |votes| ==> !SameBallotPlace(votes[i], votes[j])
  }

  predicate ValidHint(h: Hint, round: nat, height: nat, ctx: Context)
    requires OrderedSeats(ctx.voters)
  {
    && h.round > round
    && match h
       case VoteHint(seat, at, vote) =>
         ValidVote(vote, ctx.voters) && vote.seat == seat && vote.term == at && vote.height == height
       case ProposalHint(seat, at, proposal) =>
         ValidProposal(proposal, ctx) && proposal.entry.sequencer == seat && proposal.entry.term == at
  }

  predicate StoredHints(s: State, ctx: Context)
    requires OrderedSeats(ctx.voters)
  {
    && (forall h :: h in s.hints ==> ValidHint(h, s.round, s.height, ctx))
    && (forall i, j :: 0 <= i < j < |s.hints| ==> s.hints[i].seat != s.hints[j].seat)
  }

  predicate ValidQuorumValue(q: QuorumValue, round: nat, height: nat, ctx: Context)
    requires OrderedSeats(ctx.voters)
  {
    && q.round <= round
    && q.hash == q.proposal.entry.hash
    && q.proposal.entry.term == q.round
    && ValidProposal(q.proposal, ctx)
    && ValidCertificate(q.prevotes, ctx.voters, Ballot(height, q.round, Prevote, Some(q.hash)))
  }

  predicate StoredQuorumValues(s: State, ctx: Context)
    requires OrderedSeats(ctx.voters)
  {
    && (s.valid.Some? ==> ValidQuorumValue(s.valid.value, s.round, s.height, ctx))
    && (s.locked.Some? ==> ValidQuorumValue(s.locked.value, s.round, s.height, ctx))
  }

  predicate IsOwnCommit(v: Vote, seat: Seat) {
    v.seat == seat && v.phase == Precommit && v.value.Some?
  }

  predicate LockIsVoted(s: State) {
    s.locked.Some? ==>
      exists v :: v in s.votes && IsOwnCommit(v, s.seat) && v.term == s.locked.value.round
        && v.value == Some(s.locked.value.hash)
  }

  predicate ValidCoversLock(s: State) {
    s.locked.Some? ==>
      && s.valid.Some?
      && s.valid.value.round >= s.locked.value.round
      && (s.valid.value.round == s.locked.value.round ==> s.valid.value.hash == s.locked.value.hash)
  }

  predicate OwnProposalsUnique(s: State) {
    forall i, j :: 0 <= i < j < |s.proposals| && s.proposals[i].entry.sequencer == s.seat
      && s.proposals[j].entry.sequencer == s.seat
      ==> s.proposals[i].entry.term != s.proposals[j].entry.term
  }

  /** The own non-nil precommit of the highest round; the earliest one when rounds tie. */
  function LatestOwnCommit(seat: Seat, votes: seq<Vote>): (r: Option<Vote>)
    ensures r.Some? ==> r.value in votes && IsOwnCommit(r.value, seat)
    ensures forall v :: v in votes && IsOwnCommit(v, seat) ==> r.Some? && v.term <= r.value.term
  {
    if votes == [] then None
    else
      var front, last := LatestOwnCommit(seat, votes[..|votes| - 1]), votes[|votes| - 1];
      assert forall v :: v in votes <==> v in votes[..|votes| - 1] || v == last;
      if IsOwnCommit(last, seat) && (front.None? || front.value.term < last.term) then Some(last) else front
  }

  predicate LatestCommitIsLocked(s: State) {
    var latest := LatestOwnCommit(s.seat, s.votes);
    latest.Some? ==>
      s.locked.Some? && s.locked.value.round == latest.value.term && Some(s.locked.value.hash) == latest.value.value
  }

  predicate StepMatchesVotes(s: State) {
    match s.step
    case AtPropose => OwnVote(s, Prevote).None? && OwnVote(s, Precommit).None?
    case AtPrevote => OwnVote(s, Prevote).Some? && OwnVote(s, Precommit).None?
    case AtPrecommit => OwnVote(s, Prevote).Some? && OwnVote(s, Precommit).Some?
  }

  predicate TimersBacked(s: State, ctx: Context)
    requires OrderedSeats(ctx.voters)
  {
    && (s.timers.propose ==> s.inputKnown)
    && (!s.inputKnown ==> s.proposals == [] && forall h :: h in s.hints ==> !h.ProposalHint?)
    && (s.timers.prevote ==> AnyQuorum(s, ctx, s.round, Prevote))
    && (s.timers.precommit ==> AnyQuorum(s, ctx, s.round, Precommit))
  }

  predicate StoredCertificates(s: State, ctx: Context)
    requires OrderedSeats(ctx.voters)
  {
    && (s.decision.Some? ==> ValidCertified(s.decision.value, ctx) && !UnrecordedOwnEntry(s, s.decision.value.entry))
    && (s.unapplied.Some? ==> !UnrecordedOwnEntry(s, s.unapplied.value.entry))
    && (s.halted.None? <==> s.haltKind.None?)
    && (if s.haltKind == Some(CertifiedValidation) then
          && s.decision.None? && s.unapplied.Some?
          && s.unapplied.value.entry.height == s.height
          && AuthenticCertified(s.unapplied.value, ctx)
        else s.unapplied.None?)
  }

  predicate ValidEquivocation(e: Equivocation, height: nat, ctx: Context)
    requires OrderedSeats(ctx.voters)
  {
    match e
    case TwoVotes(seat, round, phase, a, b) =>
      && ValidVote(a, ctx.voters) && ValidVote(b, ctx.voters)
      && a == Vote(seat, height, round, phase, a.value) && b == Vote(seat, height, round, phase, b.value)
      && a.value != b.value
    case TwoProposals(seat, round, a, b) =>
      && ValidProposal(a, ctx) && ValidProposal(b, ctx)
      && a.entry.sequencer == seat && b.entry.sequencer == seat
      && a.entry.term == round && b.entry.term == round && a.entry.hash != b.entry.hash
  }

  predicate StoredEquivocations(s: State, ctx: Context)
    requires OrderedSeats(ctx.voters)
  {
    forall e :: e in s.equivocations ==> ValidEquivocation(e, s.height, ctx)
  }

  predicate StoredAccusations(s: State, ctx: Context) {
    && (s.provenOffender.Some? ==>
          var proof := s.provenOffender.value;
          && proof.atHeight <= s.height
          && (proof.atHeight == s.height ==> proof.parentHash == s.parentHash)
          && ObjectiveProofParent(proof.control, ctx) == Ok(proof.parentHash))
    && (s.pendingAccusation.Some? ==>
          && s.provenOffender.Some?
          && s.provenOffender.value.control == s.pendingAccusation.value
          && (s.pendingAccusation.value.offender in ctx.excluded
              || ObjectiveProofParent(s.pendingAccusation.value, ctx).Ok?))
  }

  function PrevotesOf(proposals: seq<Proposal>): (r: seq<Vote>)
    ensures forall v :: v in r <==> exists p :: p in proposals && v in p.prevotes
  {
    if proposals == [] then [] else proposals[0].prevotes + PrevotesOf(proposals[1..])
  }

  function HintVotes(h: Hint): seq<Vote> {
    match h
    case VoteHint(_, _, vote) => [vote]
    case ProposalHint(_, _, proposal) => proposal.prevotes
  }

  function HintsVotes(hints: seq<Hint>): (r: seq<Vote>)
    ensures forall v :: v in r <==> exists h :: h in hints && v in HintVotes(h)
  {
    if hints == [] then [] else HintVotes(hints[0]) + HintsVotes(hints[1..])
  }

  function EquivocationVotes(e: Equivocation): seq<Vote> {
    match e
    case TwoVotes(_, _, _, a, b) => [a, b]
    case TwoProposals(_, _, a, b) => a.prevotes + b.prevotes
  }

  function EquivocationsVotes(equivocations: seq<Equivocation>): (r: seq<Vote>)
    ensures forall v :: v in r <==> exists e :: e in equivocations && v in EquivocationVotes(e)
  {
    if equivocations == [] then [] else EquivocationVotes(equivocations[0]) + EquivocationsVotes(equivocations[1..])
  }

  function CertificateVotes(certified: Option<CertifiedEntry>): seq<Vote> {
    match certified
    case Some(c) => c.certificate
    case None => []
  }

  function RecordVotes(q: Option<QuorumValue>): seq<Vote> {
    match q
    case Some(record) => record.prevotes
    case None => []
  }

  function ReferencedVotes(s: State): seq<Vote> {
    PrevotesOf(s.proposals) + HintsVotes(s.hints) + RecordVotes(s.valid) + RecordVotes(s.locked)
    + CertificateVotes(s.decision) + CertificateVotes(s.unapplied) + EquivocationsVotes(s.equivocations)
  }

  /** Every check of a stored record, in the order the source makes them. */
  predicate RecordChecks(s: State, ctx: Context)
    requires OrderedSeats(ctx.voters)
  {
    && StoredProposals(s, ctx)
    && StoredVotes(s, ctx) && UniqueVotes(s.votes)
    && StoredHints(s, ctx)
    && StoredQuorumValues(s, ctx)
    && LockIsVoted(s) && ValidCoversLock(s)
    && OwnProposalsUnique(s)
    && LatestCommitIsLocked(s)
    && StepMatchesVotes(s)
    && TimersBacked(s, ctx)
    && StoredCertificates(s, ctx)
    && StoredEquivocations(s, ctx)
    && StoredAccusations(s, ctx)
    && !UnrecordedOwnVote(s, ReferencedVotes(s))
  }

  function EntryControls(entries: seq<Entry>, ctx: Context): seq<Control> {
    if entries == [] then []
    else (match ctx.controlOf(entries[0].hash) case Some(c) => [c] case None => []) + EntryControls(entries[1..], ctx)
  }

  function ProposalEntries(proposals: seq<Proposal>): seq<Entry> {
    seq(|proposals|, i requires 0 <= i < |proposals| => proposals[i].entry)
  }

  function HintEntries(hints: seq<Hint>): seq<Entry> {
    if hints == [] then []
    else (match hints[0] case ProposalHint(_, _, p) => [p.entry] case VoteHint(_, _, _) => []) + HintEntries(hints[1..])
  }

  /** The accusation that kept evidence makes. */
  function EvidenceControl(e: Equivocation): Control {
    match e
    case TwoVotes(seat, _, _, a, b) => Control(seat, VoteConflict(a, b))
    case TwoProposals(seat, _, a, b) => Control(seat, ProposalConflict(a, b))
  }

  function EquivocationControls(equivocations: seq<Equivocation>): seq<Control> {
    seq(|equivocations|, i requires 0 <= i < |equivocations| => EvidenceControl(equivocations[i]))
  }

  function RecordedControls(s: State, ctx: Context): seq<Control> {
    EntryControls(ProposalEntries(s.proposals) + HintEntries(s.hints)
                  + (if s.valid.Some? then [s.valid.value.proposal.entry] else [])
                  + (if s.locked.Some? then [s.locked.value.proposal.entry] else [])
                  + (if s.decision.Some? then [s.decision.value.entry] else []), ctx)
    + (if s.provenOffender.Some? then [s.provenOffender.value.control] else [])
    + (if s.pendingAccusation.Some? then [s.pendingAccusation.value] else [])
    + EquivocationControls(s.equivocations)
  }

  function NormalizeControls(s: State, ctx: Context, controls: seq<Control>, observed: Option<Seat>): State
    decreases |controls|
  {
    if controls == [] then s
    else
      var control := controls[0];
      var second := if observed.Some? && observed.value != control.offender
                    then TerminalFault(Work(s, []), SecondByzantineVoter).state else s;
      var checked := HaltForControl(Work(second, []), ctx, control).state;
      if ControlFault(second, ctx, control) then checked
      else NormalizeControls(checked, ctx, controls[1..], if observed.Some? then observed else Some(control.offender))
  }

  /** Evidence already in the record may stop it; nothing else changes. */
  function Normalize(s: State, ctx: Context): State {
    var checked := NormalizeControls(s, ctx, RecordedControls(s, ctx), None);
    if s.seat in ctx.excluded then TerminalFault(Work(checked, []), LocalKeyImplicated).state else checked
  }

  function RestoreState(s: State, ctx: Context, seat: Seat): Result<State>
    requires OrderedSeats(ctx.voters)
  {
    if !Bound(s, ctx, seat) then Err("consensus-context")
    else if !RecordChecks(s, ctx) then Err("consensus-restore")
    else Ok(Normalize(s, ctx))
  }

  /** Only the halting fields may differ, and then the record is stopped for good. */
  predicate SameOrStopped(s: State, t: State) {
    t == s || (t == s.(halted := t.halted, haltKind := Some(Terminal), unapplied := None) && t.halted.Some?)
  }

  lemma {:induction false} NormalizeControlsKeeps(s: State, ctx: Context, controls: seq<Control>,
                                                  observed: Option<Seat>)
    ensures SameOrStopped(s, NormalizeControls(s, ctx, controls, observed))
    ensures s.haltKind == Some(Terminal) ==> NormalizeControls(s, ctx, controls, observed) == s
    decreases |controls|
  {
    if controls != [] {
      var control := controls[0];
      var second := if observed.Some? && observed.value != control.offender
                    then TerminalFault(Work(s, []), SecondByzantineVoter).state else s;
      var checked := HaltForControl(Work(second, []), ctx, control).state;
      if !ControlFault(second, ctx, control) {
        NormalizeControlsKeeps(checked, ctx, controls[1..],
                               if observed.Some? then observed else Some(control.offender));
      }
    }
  }

  /** A restored record is the stored one, or the stored one stopped for good: nothing signed is lost. */
  lemma RestoreKeepsRecord(s: State, ctx: Context, seat: Seat)
    requires OrderedSeats(ctx.voters) && RestoreState(s, ctx, seat).Ok?
    ensures SameOrStopped(s, RestoreState(s, ctx, seat).value)
  {
    NormalizeControlsKeeps(s, ctx, RecordedControls(s, ctx), None);
  }

  /** Stopping a record for good breaks none of its checks. */
  lemma StoppedReferences(s: State, t: State)
    requires SameOrStopped(s, t)
    ensures forall v :: v in ReferencedVotes(t) ==> v in ReferencedVotes(s)
    ensures UnrecordedOwnVote(t, ReferencedVotes(t)) ==> UnrecordedOwnVote(s, ReferencedVotes(s))
  {
  }

  lemma StoppedLists(s: State, t: State, ctx: Context)
    requires OrderedSeats(ctx.voters) && SameOrStopped(s, t)
    requires StoredProposals(s, ctx) && StoredVotes(s, ctx) && StoredHints(s, ctx) && StoredEquivocations(s, ctx)
    ensures StoredProposals(t, ctx) && StoredVotes(t, ctx) && StoredHints(t, ctx) && StoredEquivocations(t, ctx)
  {
    hide ValidProposal, ValidVote, ValidEquivocation, ValidHint;
  }

  lemma StoppedLocks(s: State, t: State, ctx: Context)
    requires OrderedSeats(ctx.voters) && SameOrStopped(s, t)
    requires StoredQuorumValues(s, ctx) && LockIsVoted(s) && ValidCoversLock(s) && OwnProposalsUnique(s)
    requires StoredCertificates(s, ctx) && StoredAccusations(s, ctx)
    ensures StoredQuorumValues(t, ctx) && LockIsVoted(t) && ValidCoversLock(t) && OwnProposalsUnique(t)
    ensures StoredCertificates(t, ctx) && StoredAccusations(t, ctx)
  {
    hide ValidQuorumValue, ValidCertified, AuthenticCertified, IsOwnCommit;
  }

  lemma StoppedRecordPasses(s: State, t: State, ctx: Context)
    requires OrderedSeats(ctx.voters) && RecordChecks(s, ctx) && SameOrStopped(s, t)
    ensures RecordChecks(t, ctx)
  {
    hide ReferencedVotes, UnrecordedOwnVote, UniqueVotes, LatestOwnCommit, TimersBacked, StoredProposals, StoredVotes,
      StoredHints,
      StoredEquivocations, StoredQuorumValues, LockIsVoted, ValidCoversLock, OwnProposalsUnique, StoredCertificates,
        StoredAccusations;
    StoppedReferences(s, t);
    StoppedLists(s, t, ctx);
    StoppedLocks(s, t, ctx);
    StoppedTimers(s, t, ctx);
  }

  lemma StoppedTimers(s: State, t: State, ctx: Context)
    requires OrderedSeats(ctx.voters) && SameOrStopped(s, t) && TimersBacked(s, ctx)
    ensures TimersBacked(t, ctx)
  {
  }

  /** Restoring is idempotent: a restored record restores to itself, so it is rewritten at most once. */
  lemma RestoreIsIdempotent(s: State, ctx: Context, seat: Seat)
    requires OrderedSeats(ctx.voters) && RestoreState(s, ctx, seat).Ok?
    ensures var t := RestoreState(s, ctx, seat).value; RestoreState(t, ctx, seat) == Ok(t)
  {
    RestoreKeepsRecord(s, ctx, seat);
    var t := RestoreState(s, ctx, seat).value;
    StoppedRecordPasses(s, t, ctx);
    if t != s {
      NormalizeControlsKeeps(t, ctx, RecordedControls(t, ctx), None);
    }
  }
}
