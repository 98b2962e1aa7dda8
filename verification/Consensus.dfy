/**
 * The one-height consensus reducer (packages/protocol/src/consensus.ts), as functions from a
 * working copy to a working copy. `ConsensusReducer.dfy` holds the loops that compute them.
 */
module Consensus {
  import opened Results
  import opened Votes
  import opened Proposals

  datatype Step = AtPropose | AtPrevote | AtPrecommit

  datatype QuorumValue = QuorumValue(round: nat, hash: Hash, proposal: Proposal, prevotes: seq<Vote>)

  datatype Hint =
    | ProposalHint(seat: Seat, round: nat, proposal: Proposal)
    | VoteHint(seat: Seat, round: nat, vote: Vote)

  datatype Equivocation =
    | TwoProposals(seat: Seat, round: nat, first: Proposal, second: Proposal)
    | TwoVotes(seat: Seat, round: nat, phase: Phase, firstVote: Vote, secondVote: Vote)

  datatype ProvenOffender = ProvenOffender(control: Control, atHeight: nat, parentHash: Hash)

  datatype HaltReason =
    | LocalKeyImplicated
    | SecondByzantineVoter
    | UnauthenticatedProof
    | ConflictingCertificates
    | StaleRecord
    | InvalidCertifiedValue
    | Requested(code: nat)

  datatype HaltKind = CertifiedValidation | Terminal

  datatype Timers = Timers(propose: bool, prevote: bool, precommit: bool)

  /** What one voter knows and has signed at one height; it is stored as one value, all or nothing. */
  datatype State = State(
    binding: nat,
    height: nat,
    parentHash: Hash,
    seat: Seat,
    round: nat,
    step: Step,
    inputKnown: bool,
    timers: Timers,
    proposals: seq<Proposal>,
    votes: seq<Vote>,
    hints: seq<Hint>,
    equivocations: seq<Equivocation>,
    pendingAccusation: Option<Control>,
    provenOffender: Option<ProvenOffender>,
    locked: Option<QuorumValue>,
    valid: Option<QuorumValue>,
    decision: Option<CertifiedEntry>,
    halted: Option<HaltReason>,
    haltKind: Option<HaltKind>,
    unapplied: Option<CertifiedEntry>)

  datatype Effect =
    | BroadcastProposal(proposal: Proposal)
    | BroadcastVote(vote: Vote)
    | ScheduleTimeout(step: Step, round: nat)
    | RequestValue(round: nat, validHash: Option<Hash>)
    | RequestProposal(round: nat, hash: Hash)
    | Commit(certified: CertifiedEntry)
    | Equivocate(evidence: Equivocation)
    | HaltEffect(reason: HaltReason)

  /** The working copy of one transition, with the effects it has collected. */
  datatype Work = Work(state: State, effects: seq<Effect>) {
    function Emit(effect: Effect): Work {
      this.(effects := effects + [effect])
    }
  }

  /** Local voting policy; absent means every value is admitted. */
  type Admission = Option<Proposal -> bool>

  datatype Event =
    | InputAvailable
    | Propose(candidate: Option<Entry>)
    | ReceiveProposal(proposal: Proposal)
    | ReceiveVote(vote: Vote)
    | ReceiveCommit(certified: CertifiedEntry)
    | StageAccusation(control: Control)
    | ClearStaleAccusation
    | TerminalHalt(reason: HaltReason)
    | ResumeAfterReplay
    | Timeout(phase: Step, round: nat)

  /** The votes a received message carries. */
  function EventVotes(event: Event): seq<Vote> {
    match event
    case ReceiveProposal(proposal) => proposal.prevotes
    case ReceiveVote(vote) => [vote]
    case ReceiveCommit(certified) => certified.certificate
    case _ => []
  }

  // ---- queries ----

  function StepOf(phase: Phase): Step {
    match phase
    case Prevote => AtPrevote
    case Precommit => AtPrecommit
  }

  /** The recorded vote of a seat in a round and phase. */
  function VoteOf(votes: seq<Vote>, seat: Seat, round: nat, phase: Phase): (r: Option<Vote>)
    ensures r.Some? ==> r.value in votes && r.value.seat == seat && r.value.term == round && r.value.phase == phase
    ensures r.None? ==> forall v :: v in votes ==> v.seat != seat || v.term != round || v.phase != phase
  {
    Find((v: Vote) => v.seat == seat && v.term == round && v.phase == phase, votes)
  }

  function OwnVote(s: State, phase: Phase): Option<Vote> {
    VoteOf(s.votes, s.seat, s.round, phase)
  }

  function VotesAt(votes: seq<Vote>, round: nat, phase: Phase): seq<Vote> {
    Select((v: Vote) => v.term == round && v.phase == phase, votes)
  }

  function WithValue(votes: seq<Vote>, value: Option<Hash>): seq<Vote> {
    Select((v: Vote) => v.value == value, votes)
  }

  function VotesFor(votes: seq<Vote>, round: nat, phase: Phase, value: Option<Hash>): seq<Vote> {
    WithValue(VotesAt(votes, round, phase), value)
  }

  function QuorumFor(s: State, ctx: Context, round: nat, phase: Phase, value: Option<Hash>): Option<seq<Vote>>
    requires OrderedSeats(ctx.voters)
  {
    var votes := SortBySeat(VotesFor(s.votes, round, phase, value));
    if |votes| >= ctx.Quorum() then Some(votes[..ctx.Quorum()]) else None
  }

  predicate AnyQuorum(s: State, ctx: Context, round: nat, phase: Phase)
    requires OrderedSeats(ctx.voters)
  {
    |VotesAt(s.votes, round, phase)| >= ctx.Quorum()
  }

  function ProposalsAt(proposals: seq<Proposal>, round: nat): seq<Proposal> {
    Select((p: Proposal) => p.entry.term == round, proposals)
  }

  function ProposalAt(proposals: seq<Proposal>, round: nat, hash: Hash): (r: Option<Proposal>)
    ensures r.Some? ==> r.value in proposals && r.value.entry.term == round && r.value.entry.hash == hash
    ensures r.None? ==> forall p :: p in proposals ==> p.entry.term != round || p.entry.hash != hash
  {
    Find((p: Proposal) => p.entry.term == round && p.entry.hash == hash, proposals)
  }

  predicate UnrecordedOwnVote(s: State, proof: seq<Vote>) {
    exists v :: v in proof && v.seat == s.seat && v.height == s.height && v !in s.votes
  }

  predicate UnrecordedOwnEntry(s: State, entry: Entry) {
    entry.sequencer == s.seat && forall p :: p in s.proposals ==> p.entry != entry
  }

  function ValidHash(s: State): Option<Hash> {
    match s.valid
    case Some(v) => Some(v.hash)
    case None => None
  }

  predicate Finished(s: State) {
    s.decision.Some? || s.halted.Some?
  }

  // ---- halting ----

  function Halt(w: Work, reason: HaltReason): Work {
    if w.state.halted.Some? then w
    else Work(w.state.(halted := Some(reason), haltKind := Some(Terminal), unapplied := None),
              w.effects + [HaltEffect(reason)])
  }

  function TerminalFault(w: Work, reason: HaltReason): Work {
    if w.state.haltKind == Some(Terminal) then w
    else Work(w.state.(halted := Some(reason), haltKind := Some(Terminal), unapplied := None),
              w.effects + [HaltEffect(reason)])
  }

  predicate ControlFault(s: State, ctx: Context, control: Control) {
    || control.offender == s.seat
    || (s.provenOffender.Some? && s.provenOffender.value.control.offender != control.offender)
    || (exists seat :: seat in ctx.excluded && seat != control.offender)
  }

  function HaltForControl(w: Work, ctx: Context, control: Control): Work {
    if control.offender == w.state.seat then TerminalFault(w, LocalKeyImplicated)
    else if ControlFault(w.state, ctx, control) then TerminalFault(w, SecondByzantineVoter)
    else w
  }

  predicate EntryControlFault(s: State, ctx: Context, entry: Entry) {
    var control := ctx.controlOf(entry.hash);
    control.Some? && ControlFault(s, ctx, control.value)
  }

  function HaltForEntryControl(w: Work, ctx: Context, entry: Entry): Work {
    match ctx.controlOf(entry.hash)
    case Some(control) => HaltForControl(w, ctx, control)
    case None => w
  }

  function HaltForCertifiedValue(w: Work, certified: CertifiedEntry): Work {
    if w.state.halted.Some? then w
    else Work(w.state.(halted := Some(InvalidCertifiedValue), haltKind := Some(CertifiedValidation),
                       unapplied := Some(certified)),
              w.effects + [HaltEffect(InvalidCertifiedValue)])
  }

  function Equivocators(s: State, ctx: Context): set<Seat> {
    (set e | e in s.equivocations :: e.seat)
    + (set seat | seat in ctx.excluded)
    + (if s.provenOffender.Some? then {s.provenOffender.value.control.offender} else {})
  }

  function HaltIfFaultThresholdExceeded(w: Work, ctx: Context): Work {
    var equivocators := Equivocators(w.state, ctx);
    if w.state.seat in equivocators then TerminalFault(w, LocalKeyImplicated)
    else if |equivocators| > Tolerated(|ctx.voters|) then TerminalFault(w, SecondByzantineVoter)
    else w
  }

  // ---- records ----

  function RecordVote(w: Work, vote: Vote): Work {
    var s := w.state;
    match VoteOf(s.votes, vote.seat, vote.term, vote.phase)
    case None => w.(state := s.(votes := s.votes + [vote]))
    case Some(first) =>
      if first.value == vote.value then w
      else if exists e :: e in s.equivocations && e.TwoVotes? && e.seat == vote.seat && e.round == vote.term
                          && e.phase == vote.phase
      then w
      else
        var evidence := TwoVotes(vote.seat, vote.term, vote.phase, first, vote);
        Work(s.(equivocations := s.equivocations + [evidence]), w.effects + [Equivocate(evidence)])
  }

  function RecordConflicts(w: Work, seat: Seat, proposal: Proposal, sameRound: seq<Proposal>): Work
    decreases |sameRound|
  {
    if sameRound == [] then w
    else
      var s, round := w.state, proposal.entry.term;
      var next :=
        if sameRound[0].entry.hash != proposal.entry.hash
           && !(exists e :: e in s.equivocations && e.TwoProposals? && e.seat == seat && e.round == round)
        then
          var evidence := TwoProposals(seat, round, sameRound[0], proposal);
          Work(s.(equivocations := s.equivocations + [evidence]), w.effects + [Equivocate(evidence)])
        else w;
      RecordConflicts(next, seat, proposal, sameRound[1..])
  }

  /** Two signed conflicts are kept per round; further variants are dropped. */
  function RecordProposal(w: Work, ctx: Context, proposal: Proposal): Work {
    var sameRound := ProposalsAt(w.state.proposals, proposal.entry.term);
    if proposal.entry.sequencer !in ctx.voters then w
    else if exists p :: p in sameRound && p.entry.hash == proposal.entry.hash then w
    else if |sameRound| >= 2 then w
    else
      var noted := RecordConflicts(w, proposal.entry.sequencer, proposal, sameRound);
      noted.(state := noted.state.(proposals := noted.state.proposals + [proposal]))
  }

  /** One hint per seat; a later round replaces an earlier one. */
  function AddHint(hints: seq<Hint>, hint: Hint): (r: seq<Hint>)
    ensures |hints| <= |r| <= |hints| + 1
  {
    if hints == [] then [hint]
    else if hints[0].seat == hint.seat then
      (if hints[0].round < hint.round then [hint] else [hints[0]]) + hints[1..]
    else [hints[0]] + AddHint(hints[1..], hint)
  }

  // ---- rounds ----

  function ReplayHints(w: Work, ctx: Context, ready: seq<Hint>): Work
    decreases |ready|
  {
    if ready == [] then w
    else
      var next := match ready[0]
        case VoteHint(_, _, vote) => RecordVote(w, vote)
        case ProposalHint(_, _, proposal) => RecordProposal(w, ctx, proposal);
      ReplayHints(next, ctx, ready[1..])
  }

  function EnterRound(w: Work, ctx: Context, round: nat): Work {
    var s := w.state;
    if round <= s.round then w
    else
      var ready := Select((h: Hint) => h.round == round, s.hints);
      var later := Select((h: Hint) => h.round > round, s.hints);
      var entered :=
        w.(state := s.(round := round, step := AtPropose, timers := Timers(false, false, false), hints := later));
      var replayed := ReplayHints(entered, ctx, ready);
      var asked :=
        if ProposerFor(s.height, round, ctx) == Some(s.seat)
        then replayed.Emit(RequestValue(round, ValidHash(replayed.state)))
        else replayed;
      if asked.state.inputKnown
      then Work(asked.state.(timers := asked.state.timers.(propose := true)),
                asked.effects + [ScheduleTimeout(AtPropose, round)])
      else asked
  }

  function InsertDown(x: nat, xs: seq<nat>): seq<nat> {
    if xs == [] || x >= xs[0] then [x] + xs else [xs[0]] + InsertDown(x, xs[1..])
  }

  function HintRoundsDown(hints: seq<Hint>): (r: seq<nat>) {
    if hints == [] then [] else InsertDown(hints[0].round, HintRoundsDown(hints[1..]))
  }

  /** The second-highest hint is backed by two voters, so one faulty voter cannot force it. */
  function MaybeJump(w: Work, ctx: Context): Work {
    var rounds := HintRoundsDown(w.state.hints);
    if |rounds| >= 2 && rounds[1] > w.state.round then EnterRound(w, ctx, rounds[1]) else w
  }

  // ---- committing ----

  function InsertUp(x: nat, xs: seq<nat>): (r: seq<nat>)
    ensures forall y :: y in r <==> y == x || y in xs
  {
    if xs == [] || x < xs[0] then [x] + xs
    else if x == xs[0] then xs
    else [xs[0]] + InsertUp(x, xs[1..])
  }

  /** The distinct rounds with a precommit, rising. */
  function PrecommitRounds(votes: seq<Vote>): (r: seq<nat>) {
    if votes == [] then []
    else
      var rest := PrecommitRounds(votes[1..]);
      if votes[0].phase == Precommit then InsertUp(votes[0].term, rest) else rest
  }

  /** The distinct values of some votes, in order of first appearance. */
  function ValuesOf(votes: seq<Vote>): (r: seq<Option<Hash>>)
    ensures forall x :: x in r <==> exists v :: v in votes && v.value == x
  {
    if votes == [] then []
    else
      var front := ValuesOf(votes[..|votes| - 1]);
      var last := votes[|votes| - 1];
      assert forall v :: v in votes <==> v in votes[..|votes| - 1] || v == last;
      if last.value in front then front else front + [last.value]
  }

  datatype Scan = Scan(work: Work, stopped: bool)

  function CommitValue(w: Work, ctx: Context, round: nat, value: Option<Hash>): Scan
    requires OrderedSeats(ctx.voters)
  {
    var s := w.state;
    if value.None? then Scan(w, false)
    else
      var hash := value.value;
      match QuorumFor(s, ctx, round, Precommit, value)
      case None => Scan(w, false)
      case Some(certificate) =>
        match ProposalAt(s.proposals, round, hash)
        case None => Scan(w.Emit(RequestProposal(round, hash)), false)
        case Some(proposal) =>
          var certified := CertifiedEntry(proposal.entry, certificate);
          if !ValidCertified(certified, ctx) then
            Scan(if AuthenticCertified(certified, ctx) then HaltForCertifiedValue(w, certified)
                 else Halt(w, UnauthenticatedProof), false)
          else if EntryControlFault(s, ctx, certified.entry) then
            Scan(HaltForEntryControl(w, ctx, certified.entry), true)
          else if s.decision.Some? && s.decision.value.entry.hash != hash then
            Scan(Halt(w, ConflictingCertificates), false)
          else if s.decision.None? then
            Scan(Work(s.(decision := Some(certified)), w.effects + [Commit(certified)]), false)
          else Scan(w, false)
  }

  function CommitValues(w: Work, ctx: Context, round: nat, values: seq<Option<Hash>>): Scan
    requires OrderedSeats(ctx.voters)
    decreases |values|
  {
    if values == [] then Scan(w, false)
    else
      var first := CommitValue(w, ctx, round, values[0]);
      if first.stopped then first else CommitValues(first.work, ctx, round, values[1..])
  }

  function CommitRounds(w: Work, ctx: Context, rounds: seq<nat>): Scan
    requires OrderedSeats(ctx.voters)
    decreases |rounds|
  {
    if rounds == [] then Scan(w, false)
    else
      var first := CommitValues(w, ctx, rounds[0], ValuesOf(VotesAt(w.state.votes, rounds[0], Precommit)));
      if first.stopped then first else CommitRounds(first.work, ctx, rounds[1..])
  }

  function MaybeCommit(w: Work, ctx: Context): Work
    requires OrderedSeats(ctx.voters)
  {
    CommitRounds(w, ctx, PrecommitRounds(w.state.votes)).work
  }

  // ---- voting ----

  /** A vote for the current round and phase is signed once; admission may turn it nil. */
  function SignLocalVote(w: Work, phase: Phase, value: Option<Hash>, admit: Admission): Work {
    var s := w.state;
    if OwnVote(s, phase).Some? then w
    else
      var signed := if value.Some? && admit.Some? && !AdmitsRecorded(s, value.value, admit.value) then None else value;
      var vote := Vote(s.seat, s.height, s.round, phase, signed);
      Work(s.(votes := s.votes + [vote], step := StepOf(phase)), w.effects + [BroadcastVote(vote)])
  }

  predicate AdmitsRecorded(s: State, hash: Hash, admit: Proposal -> bool) {
    var proposal := ProposalAt(s.proposals, s.round, hash);
    proposal.Some? && admit(proposal.value)
  }

  /** The lock rule: a locked voter needs its own value or a justification at least as recent. */
  predicate LockAccepts(s: State, proposal: Proposal) {
    || s.locked.None?
    || s.locked.value.hash == proposal.entry.hash
    || (proposal.validRound.Some? && proposal.validRound.value >= s.locked.value.round)
  }

  function PrevoteProposal(w: Work, proposal: Proposal, admit: Admission): Work {
    if proposal.entry.term != w.state.round || w.state.step != AtPropose then w
    else
      SignLocalVote(w, Prevote, if LockAccepts(w.state, proposal) then Some(proposal.entry.hash) else None, admit)
  }

  function WaitingProposal(s: State): (r: Option<Proposal>)
    ensures r.Some? ==> r.value in s.proposals && r.value.entry.term == s.round
  {
    Find((p: Proposal) => p.entry.term == s.round, s.proposals)
  }

  function PrevoteWaiting(w: Work, admit: Admission): Work {
    if w.state.step != AtPropose then w
    else
      match WaitingProposal(w.state)
      case Some(waiting) => PrevoteProposal(w, waiting, admit)
      case None => w
  }

  function LockValue(w: Work, ctx: Context, proposal: Proposal, admit: Admission): Work
    requires OrderedSeats(ctx.voters)
  {
    var s, hash := w.state, proposal.entry.hash;
    match QuorumFor(s, ctx, s.round, Prevote, Some(hash))
    case None => w
    case Some(prevotes) =>
      var record := QuorumValue(s.round, hash, proposal, prevotes);
      var marked := if s.valid.None? || s.valid.value.round < s.round then s.(valid := Some(record)) else s;
      if s.step == AtPrevote && OwnVote(s, Precommit).None? then
        SignLocalVote(w.(state := marked.(locked := Some(record))), Precommit, Some(hash), admit)
      else w.(state := marked)
  }

  function LockValues(w: Work, ctx: Context, proposals: seq<Proposal>, admit: Admission): Work
    requires OrderedSeats(ctx.voters)
    decreases |proposals|
  {
    if proposals == [] then w
    else LockValues(LockValue(w, ctx, proposals[0], admit), ctx, proposals[1..], admit)
  }

  function PrecommitNil(w: Work, ctx: Context): Work
    requires OrderedSeats(ctx.voters)
  {
    if w.state.step == AtPrevote && QuorumFor(w.state, ctx, w.state.round, Prevote, None).Some?
    then SignLocalVote(w, Precommit, None, None) else w
  }

  function ArmTimers(w: Work, ctx: Context): Work
    requires OrderedSeats(ctx.voters)
  {
    var s := w.state;
    var first :=
      if !s.timers.prevote && AnyQuorum(s, ctx, s.round, Prevote)
      then Work(s.(timers := s.timers.(prevote := true)), w.effects + [ScheduleTimeout(AtPrevote, s.round)]) else w;
    if !first.state.timers.precommit && AnyQuorum(first.state, ctx, s.round, Precommit)
    then Work(first.state.(timers := first.state.timers.(precommit := true)),
              first.effects + [ScheduleTimeout(AtPrecommit, s.round)]) else first
  }

  function Drive(w: Work, ctx: Context, admit: Admission): Work
    requires OrderedSeats(ctx.voters)
  {
    var first := MaybeCommit(w, ctx);
    if Finished(first.state) then first
    else
      var prevoted := PrevoteWaiting(first, admit);
      var locked := LockValues(prevoted, ctx, ProposalsAt(prevoted.state.proposals, prevoted.state.round), admit);
      MaybeCommit(ArmTimers(PrecommitNil(locked, ctx), ctx), ctx)
  }

  // ---- accusations ----

  function EvidenceProposals(evidence: Evidence): seq<Proposal> {
    match evidence
    case ProposalConflict(a, b) => [a, b]
    case VoteConflict(_, _) => []
    case Misconduct(p) => [p]
  }

  function EvidenceVotes(evidence: Evidence): seq<Vote> {
    match evidence
    case VoteConflict(a, b) => [a, b]
    case ProposalConflict(a, b) => a.prevotes + b.prevotes
    case Misconduct(p) => p.prevotes
  }

  predicate UnrecordedOwnEvidence(s: State, ctx: Context, evidence: Evidence) {
    || UnrecordedOwnVote(s, Select((v: Vote) => ValidVote(v, ctx.voters), EvidenceVotes(evidence)))
    || (exists p :: p in EvidenceProposals(evidence) && p.entry.sequencer == s.seat && p !in s.proposals)
  }

  /** Keeps a proven accusation, or stops when the proof shows this record is unsafe. */
  function RetainAccusation(w: Work, ctx: Context, control: Control): Result<Work> {
    var s := w.state;
    match ObjectiveProofParent(control, ctx)
    case Err(code) => Err(code)
    case Ok(parent) =>
      if ControlFault(s, ctx, control) then Ok(HaltForControl(w, ctx, control))
      else if control.offender in ctx.excluded || Finished(s) then Ok(w)
      else
        var historical := s.provenOffender.Some? && s.provenOffender.value.atHeight < s.height
          && s.provenOffender.value.control == control;
        if !historical && UnrecordedOwnEvidence(s, ctx, control.evidence) then Ok(Halt(w, StaleRecord))
        else if s.pendingAccusation.Some? then Ok(w)
        else
          var proven :=
            if s.provenOffender.Some? then s.provenOffender
            else Some(ProvenOffender(control, EvidenceHeight(control), parent));
          Ok(w.(state := s.(provenOffender := proven, pendingAccusation := Some(control))))
  }

  function RetainEntryAccusation(w: Work, ctx: Context, entry: Entry): Result<Work> {
    match ctx.controlOf(entry.hash)
    case Some(control) => RetainAccusation(w, ctx, control)
    case None => Ok(w)
  }

  // ---- transitions ----

  /** What a transition hands on: a finished working copy, or one that `Drive` still has to advance. */
  datatype Staged = Done(work: Work) | ToDrive(work: Work)

  function OnInputAvailable(w: Work, ctx: Context): Work {
    var s := w.state;
    if Finished(s) then w
    else
      var known := s.(inputKnown := true);
      if s.step != AtPropose || s.timers.propose then w.(state := known)
      else
        var armed := Work(known.(timers := known.timers.(propose := true)),
                          w.effects + [ScheduleTimeout(AtPropose, s.round)]);
        if ProposerFor(s.height, s.round, ctx) == Some(s.seat)
        then armed.Emit(RequestValue(s.round, ValidHash(s)))
        else armed
  }

  function OwnProposal(s: State, source: Entry): Proposal {
    Proposal(source.(sequencer := s.seat, term := s.round),
             if s.valid.Some? then Some(s.valid.value.round) else None,
             if s.valid.Some? then s.valid.value.prevotes else [])
  }

  function OnPropose(w: Work, ctx: Context, candidate: Option<Entry>, admit: Admission): Result<Staged>
    requires OrderedSeats(ctx.voters)
  {
    var s := w.state;
    if Finished(s) || s.step != AtPropose then Ok(Done(w))
    else if ProposerFor(s.height, s.round, ctx) != Some(s.seat) then Err("consensus-proposer")
    else if exists p :: p in s.proposals && p.entry.term == s.round && p.entry.sequencer == s.seat then Ok(Done(w))
    else
      var source := if s.valid.Some? then Some(s.valid.value.proposal.entry) else candidate;
      if source.None? then Err("consensus-value")
      else
        var proposal := OwnProposal(s, source.value);
        if !ValidProposal(proposal, ctx) then Err("proposal")
        else
          match RetainEntryAccusation(w.(state := s.(inputKnown := true)), ctx, proposal.entry)
          case Err(code) => Err(code)
          case Ok(retained) =>
            if ctx.controlOf(proposal.entry.hash).Some? && retained.state.halted.Some? then Ok(Done(retained))
            else
              var recorded := RecordProposal(retained, ctx, proposal).Emit(BroadcastProposal(proposal));
              Ok(ToDrive(PrevoteProposal(recorded, proposal, admit)))
  }

  /** An own proposal must be known already, in the record or among the hints. */
  predicate UnrecordedOwnProposal(s: State, proposal: Proposal) {
    && proposal.entry.sequencer == s.seat
    && ProposalAt(s.proposals, proposal.entry.term, proposal.entry.hash).None?
    && !(exists h :: h in s.hints && h.ProposalHint? && h.round == proposal.entry.term
                     && h.proposal.entry.hash == proposal.entry.hash)
  }

  /** A rejected proposal can still carry authentic evidence of a control fault. */
  function OnRejectedProposal(w: Work, ctx: Context, proposal: Proposal): Result<Staged> {
    var control := ctx.controlOf(proposal.entry.hash);
    if && control.Some?
       && AuthenticEvidenceProposal(proposal, ctx)
       && ObjectiveProofParent(control.value, ctx).Ok?
       && ControlFault(w.state, ctx, control.value)
    then Ok(Done(HaltForControl(w, ctx, control.value)))
    else Err("proposal")
  }

  function OnProposal(w: Work, ctx: Context, proposal: Proposal, admit: Admission): Result<Staged>
    requires OrderedSeats(ctx.voters)
  {
    if !ValidProposal(proposal, ctx) then OnRejectedProposal(w, ctx, proposal)
    else
      match RetainEntryAccusation(w, ctx, proposal.entry)
      case Err(code) => Err(code)
      case Ok(retained) =>
        if ctx.controlOf(proposal.entry.hash).Some? && retained.state.halted.Some? then Ok(Done(retained))
        else if UnrecordedOwnVote(retained.state, proposal.prevotes) then Ok(Done(Halt(retained, StaleRecord)))
        else if UnrecordedOwnProposal(retained.state, proposal) then Ok(Done(Halt(retained, StaleRecord)))
        else if retained.state.halted.Some? then Ok(Done(retained))
        else Ok(AcceptProposal(retained.(state := retained.state.(inputKnown := true)), ctx, proposal, admit))
  }

  function HintProposal(w: Work, ctx: Context, proposal: Proposal): Work {
    var round := proposal.entry.term;
    if round > w.state.round then
      MaybeJump(w.(state := w.state.(hints :=
                                     AddHint(w.state.hints, ProposalHint(proposal.entry.sequencer, round, proposal)))),
                                       ctx)
    else w
  }

  function AcceptProposal(w: Work, ctx: Context, proposal: Proposal, admit: Admission): Staged {
    var round := proposal.entry.term;
    var hinted := HintProposal(w, ctx, proposal);
    if round > hinted.state.round then Done(hinted)
    else
      var recorded := RecordProposal(hinted, ctx, proposal);
      if ProposalAt(recorded.state.proposals, round, proposal.entry.hash).None? then Done(recorded)
      else
        var checked := HaltIfFaultThresholdExceeded(recorded, ctx);
        if checked.state.halted.Some? then Done(checked)
        else if checked.state.decision.Some? then ToDrive(checked)
        else ToDrive(PrevoteProposal(checked, proposal, admit))
  }

  predicate UnrecordedOwnBallot(s: State, vote: Vote) {
    vote.seat == s.seat && vote !in s.votes
  }

  function HintVote(w: Work, ctx: Context, vote: Vote): Work {
    if vote.term > w.state.round then
      MaybeJump(w.(state := w.state.(hints := AddHint(w.state.hints, VoteHint(vote.seat, vote.term, vote)))), ctx)
    else w
  }

  function OnVote(w: Work, ctx: Context, vote: Vote): Result<Staged> {
    if !ValidVote(vote, ctx.voters) then Err("vote")
    else if vote.height != w.state.height then Err("consensus-height")
    else if UnrecordedOwnBallot(w.state, vote) then Ok(Done(Halt(w, StaleRecord)))
    else if w.state.halted.Some? then Ok(Done(w))
    else
      var hinted := HintVote(w, ctx, vote);
      if vote.term > hinted.state.round then Ok(Done(hinted))
      else
        var checked := HaltIfFaultThresholdExceeded(RecordVote(hinted, vote), ctx);
        Ok(if checked.state.halted.Some? then Done(checked) else ToDrive(checked))
  }

  function OnCommit(w: Work, ctx: Context, certified: CertifiedEntry): Result<Work>
    requires OrderedSeats(ctx.voters)
  {
    var s, entry := w.state, certified.entry;
    if !AuthenticCertified(certified, ctx) then Err("certificate")
    else if entry.height <= ctx.head then Err("stale-entry")
    else if entry.height > ctx.height then Err("missing-ancestor")
    else if UnrecordedOwnVote(s, certified.certificate) || UnrecordedOwnEntry(s, entry) then Ok(Halt(w, StaleRecord))
    else if !ValidCertified(certified, ctx) then Ok(HaltForCertifiedValue(w, certified))
    else if EntryControlFault(s, ctx, entry) then Ok(HaltForEntryControl(w, ctx, entry))
    else if s.decision.Some? && s.decision.value.entry.hash != entry.hash then Ok(Halt(w, ConflictingCertificates))
    else if s.decision.None?
      && s.halted.None? then Ok(Work(s.(decision := Some(certified)), w.effects + [Commit(certified)]))
    else Ok(w)
  }

  function OnClearStale(w: Work, ctx: Context): Work {
    var s := w.state;
    if && s.pendingAccusation.Some? && s.provenOffender.Some?
       && s.pendingAccusation.value.offender in ctx.excluded
       && s.pendingAccusation.value == s.provenOffender.value.control
    then w.(state := s.(pendingAccusation := None)) else w
  }

  predicate TimerOf(timers: Timers, phase: Step) {
    match phase
    case AtPropose => timers.propose
    case AtPrevote => timers.prevote
    case AtPrecommit => timers.precommit
  }

  function OnTimeout(w: Work, ctx: Context, phase: Step, round: nat): Staged {
    var s := w.state;
    if Finished(s) || round != s.round || !TimerOf(s.timers, phase) then Done(w)
    else match phase
      case AtPropose =>
        if s.step == AtPropose then ToDrive(SignLocalVote(w, Prevote, None, None)) else Done(w)
      case AtPrevote =>
        var prevoted := if s.step == AtPropose then SignLocalVote(w, Prevote, None, None) else w;
        if prevoted.state.step == AtPrevote then ToDrive(SignLocalVote(prevoted, Precommit, None, None))
        else Done(prevoted)
      case AtPrecommit =>
        ToDrive(EnterRound(w, ctx, s.round + 1))
  }

  function FreshState(ctx: Context, seat: Seat, proven: Option<ProvenOffender>, pending: Option<Control>): State {
    State(ctx.binding, ctx.height, ctx.parentHash, seat, 1, AtPropose, false, Timers(false, false, false),
          [], [], [], [], pending, proven, None, None, None, None, None, None)
  }

  /** The first record of a height, with the accusation the height before carries into it. */
  function CreateState(ctx: Context, seat: Seat, proven: Option<ProvenOffender>,
                       pending: Option<Control>): Result<State> {
    if seat !in ctx.voters || !ctx.WellFormed() then Err("consensus-context")
    else
      var state := FreshState(ctx, seat, proven, pending);
      if proven.Some? && ObjectiveProofParent(proven.value.control, ctx) != Ok(proven.value.parentHash)
      then Err("consensus-context")
      else if pending.Some? && (proven.None? || pending.value != proven.value.control) then Err("consensus-context")
      else
        var checked := if proven.Some? then HaltForControl(Work(state, []), ctx, proven.value.control).state else state;
        Ok(if seat in ctx.excluded then TerminalFault(Work(checked, []), LocalKeyImplicated).state else checked)
  }
}
