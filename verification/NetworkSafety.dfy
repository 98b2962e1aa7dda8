/** The safety theorems of one height, over every run of `Network.After`. */
module NetworkSafety {
  import opened Results
  import opened Votes
  import opened Proposals
  import opened Consensus
  import opened Transitions
  import opened ConsensusRestore
  import opened ConsensusRecord
  import opened ConsensusSteps
  import opened ConsensusEvents
  import opened ConsensusLocks
  import opened LockRule
  import opened Agreement
  import opened Network
  import opened NetworkInv
  import opened Recovery

  // ---- agreement ----

  lemma RecordVotesExist(sys: System, s: Seat)
    requires SystemInv(sys) && HasRecord(sys, s)
    ensures OrderedSeats(sys.ctx.voters) && forall v :: v in RecordOf(sys, s).votes ==> v in WorldOf(sys).votes
    ensures Seen(RecordOf(sys, s).votes, WorldOf(sys).votes) == WorldOf(sys).votes
    ensures RecordOf(sys, s).height == sys.ctx.height && RecordOf(sys, s).seat == s
  {
    hide RecordInv, SystemInv, VoterInv, CommitRule, PrevoteRule;
    VoterHolds(sys, s);
    RecordHolds(sys, s);
    RecordedLocks(RecordOf(sys, s), sys.ctx, WorldOf(sys).votes);
    RecordedBinding(RecordOf(sys, s), sys.ctx, WorldOf(sys).votes);
    RecordedVotes(RecordOf(sys, s), sys.ctx, WorldOf(sys).votes);
  }

  lemma CorrectVotesOnce(sys: System, v: Vote, w: Vote)
    requires SystemInv(sys) && VoteExists(sys, v) && VoteExists(sys, w)
    requires v.seat in sys.voters && v.height == sys.ctx.height && w.height == sys.ctx.height && SameBallotPlace(v, w)
    ensures v == w
  {
    hide RecordInv, SystemInv, VoterInv;
    VoterHolds(sys, v.seat);
    RecordHolds(sys, v.seat);
    RecordedVotes(RecordOf(sys, v.seat), sys.ctx, WorldOf(sys).votes);
    OnlyVote(RecordOf(sys, v.seat).votes, v, w);
  }

  lemma WorldSignsOnce(sys: System)
    requires SystemInv(sys) && OrderedSeats(sys.ctx.voters)
    ensures SignOnce(WorldOf(sys).votes, sys.ctx, sys.ctx.height, Faulty(sys))
  {
    hide RecordInv, SystemInv, VoterInv;
    var seen, ctx, height := WorldOf(sys).votes, sys.ctx, sys.ctx.height;
    forall v, w | v in seen && w in seen && Lawful(v.seat, ctx, Faulty(sys)) && v.height == height && w.height == height
      ensures SameBallotPlace(v, w) ==> v == w
    {
      if SameBallotPlace(v, w) {
        CorrectVotesOnce(sys, v, w);
      }
    }
  }

  lemma WorldCommitsSupported(sys: System)
    requires SystemInv(sys) && OrderedSeats(sys.ctx.voters)
    ensures CommitsSupported(WorldOf(sys).votes, sys.ctx, sys.ctx.height, Faulty(sys))
  {
    hide RecordInv, SystemInv, VoterInv, Supported, Justified;
    var seen, ctx, height := WorldOf(sys).votes, sys.ctx, sys.ctx.height;
    forall c | c in seen && Lawful(c.seat, ctx, Faulty(sys)) && c.height == height && IsOwnCommit(c, c.seat)
      ensures Supported(seen, ctx, PrevoteFor(height, c.term, c.value.value))
    {
      RecordVotesExist(sys, c.seat);
      RecordHolds(sys, c.seat);
      RecordedLocks(RecordOf(sys, c.seat), ctx, seen);
    }
  }

  lemma WorldPrevotesJustified(sys: System)
    requires SystemInv(sys) && OrderedSeats(sys.ctx.voters)
    ensures PrevotesJustified(WorldOf(sys).votes, sys.ctx, sys.ctx.height, Faulty(sys))
  {
    hide RecordInv, SystemInv, VoterInv, Supported, Justified;
    var seen, ctx, height := WorldOf(sys).votes, sys.ctx, sys.ctx.height;
    forall v, c | v in seen && c in seen && v.seat == c.seat && Lawful(c.seat, ctx, Faulty(sys)) && v.height == height
                  && c.height == height
      ensures IsOwnPrevote(v, v.seat) && IsOwnCommit(c, c.seat) && c.term < v.term ==>
        Justified(seen, ctx, height, c.term, c.value.value, v.term, v.value.value)
    {
      RecordVotesExist(sys, c.seat);
      RecordHolds(sys, c.seat);
      RecordedLocks(RecordOf(sys, c.seat), ctx, seen);
    }
  }

  /** The votes of a whole system obey the lock rule, whatever its faulty voters signed. */
  lemma WorldIsLawful(sys: System)
    requires SystemInv(sys)
    ensures OrderedSeats(sys.ctx.voters) && LawfulHistory(WorldOf(sys).votes, sys.ctx, sys.ctx.height, Faulty(sys))
  {
    hide RecordInv, SystemInv, VoterInv, SignOnce, CommitsSupported, PrevotesJustified;
    FaultsTolerated(sys);
    WorldSignsOnce(sys);
    WorldCommitsSupported(sys);
    WorldPrevotesJustified(sys);
  }

  /** No two certificates that can exist at one height certify different values, whatever their rounds. */
  lemma CertificatesAgree(sys: System, a: CertifiedEntry, b: CertifiedEntry)
    requires SystemInv(sys) && OrderedSeats(sys.ctx.voters)
    requires AuthenticCertified(a, sys.ctx) && AuthenticCertified(b, sys.ctx)
    requires a.entry.height == sys.ctx.height && b.entry.height == sys.ctx.height
    requires forall v :: v in a.certificate + b.certificate ==> VoteExists(sys, v)
    ensures a.entry.hash == b.entry.hash
  {
    hide SystemInv, Supported, LawfulHistory, ValidCertificate, VoteExists;
    var seen, ctx, height := WorldOf(sys).votes, sys.ctx, sys.ctx.height;
    WorldIsLawful(sys);
    assert forall v :: v in a.certificate ==> v in a.certificate + b.certificate;
    assert forall v :: v in b.certificate ==> v in a.certificate + b.certificate;
    CertificateSupports(a.certificate, ctx, PrecommitFor(height, a.entry.term, a.entry.hash), seen);
    CertificateSupports(b.certificate, ctx, PrecommitFor(height, b.entry.term, b.entry.hash), seen);
    PrecommitQuorumsAgree(seen, ctx, height, Faulty(sys), a.entry.term, a.entry.hash, b.entry.term, b.entry.hash);
  }

  lemma DecisionExists(sys: System, s: Seat)
    requires SystemInv(sys) && HasRecord(sys, s) && RecordOf(sys, s).decision.Some?
    ensures OrderedSeats(sys.ctx.voters)
    ensures var d := RecordOf(sys, s).decision.value;
            && AuthenticCertified(d, sys.ctx) && d.entry.height == sys.ctx.height
            && forall v :: v in d.certificate ==> VoteExists(sys, v)
  {
    hide RecordInv, SystemInv, VoterInv;
    RecordVotesExist(sys, s);
    RecordHolds(sys, s);
    var record := RecordOf(sys, s);
    RecordedCertificates(record, sys.ctx, WorldOf(sys).votes);
    forall v | v in record.decision.value.certificate ensures VoteExists(sys, v) {
      assert v.height == sys.ctx.height;
      assert v in WorldOf(sys).votes;
    }
  }

  // ---- runs ----

  predicate Decided(sys: System, s: Seat, hash: Hash) {
    HasRecord(sys, s) && RecordOf(sys, s).decision.Some? && RecordOf(sys, s).decision.value.entry.hash == hash
  }

  /** A durable record only grows along a run. */
  lemma {:induction false} RecordsGrow(sys: System, moves: seq<Move>, count: nat, s: Seat)
    requires Initial(sys) && count <= |moves| && After(sys, moves).Some?
    ensures After(sys, moves[..count]).Some?
    ensures var mid, end := After(sys, moves[..count]).value, After(sys, moves).value;
            HasRecord(mid, s) ==> HasRecord(end, s) && Extends(RecordOf(mid, s), RecordOf(end, s))
    decreases |moves|
  {
    hide Extends, SystemInv, Act;
    if count == |moves| {
      assert moves[..count] == moves;
      if HasRecord(After(sys, moves).value, s) {
        ExtendsItself(RecordOf(After(sys, moves).value, s));
      }
    } else {
      var front, last := moves[..|moves| - 1], moves[|moves| - 1];
      assert front[..count] == moves[..count];
      RecordsGrow(sys, front, count, s);
      RunKeeps(sys, front);
      var before := After(sys, front).value;
      ActKeeps(before, last);
      if HasRecord(After(sys, moves[..count]).value, s) && s != last.seat {
        assert RecordOf(After(sys, moves).value, s) == RecordOf(before, s);
      } else if HasRecord(After(sys, moves[..count]).value, s) {
        ExtendsTransitive(RecordOf(After(sys, moves[..count]).value, s), RecordOf(before, s),
                          RecordOf(After(sys, moves).value, s));
      }
    }
  }

  lemma DecisionStays(s: State, t: State)
    requires Extends(s, t) && s.decision.Some?
    ensures t.decision == s.decision
  {
  }

  /**
   * Agreement: whatever two correct voters decide, at whatever points of a run and in whatever
   * rounds, is one value.
   */
  lemma AgreementInRuns(sys: System, moves: seq<Move>, first: nat, second: nat, a: Seat, b: Seat, left: Hash,
                        right: Hash)
    requires Initial(sys) && After(sys, moves).Some? && first <= |moves| && second <= |moves|
    requires After(sys, moves[..first]).Some? && Decided(After(sys, moves[..first]).value, a, left)
    requires After(sys, moves[..second]).Some? && Decided(After(sys, moves[..second]).value, b, right)
    ensures left == right
  {
    hide After, SystemInv, Extends, AuthenticCertified, VoteExists;
    var end := After(sys, moves).value;
    RecordsGrow(sys, moves, first, a);
    RecordsGrow(sys, moves, second, b);
    DecisionStays(RecordOf(After(sys, moves[..first]).value, a), RecordOf(end, a));
    DecisionStays(RecordOf(After(sys, moves[..second]).value, b), RecordOf(end, b));
    RunKeeps(sys, moves);
    DecisionExists(end, a);
    DecisionExists(end, b);
    CertificatesAgree(end, RecordOf(end, a).decision.value, RecordOf(end, b).decision.value);
  }

  // ---- no equivocation ----

  /** Everything a correct seat ever broadcast, by all its controllers and restarts, is consistent. */
  lemma SentOnce(sys: System, s: Seat, v: Vote, w: Vote, p: Proposal, q: Proposal)
    requires SystemInv(sys) && s in sys.voters
    ensures v in sys.voters[s].votes && w in sys.voters[s].votes && v.term == w.term && v.phase == w.phase ==> v == w
    ensures p in sys.voters[s].proposals && q in sys.voters[s].proposals && p.entry.term == q.entry.term ==> p == q
  {
    hide RecordInv, SystemInv, ControllerInv, ValidProposal;
    VoterHolds(sys, s);
    if sys.voters[s].store.Some? {
      var record := sys.voters[s].store.value.record;
      RecordedVotes(record, sys.ctx, WorldOf(sys).votes);
      RecordedProposals(record, sys.ctx, WorldOf(sys).votes);
      if v in record.votes && w in record.votes && SameBallotPlace(v, w) {
        OnlyVote(record.votes, v, w);
      }
      if p in record.proposals && q in record.proposals && p.entry.term == q.entry.term
         && p.entry.sequencer == record.seat && q.entry.sequencer == record.seat {
        OneOwnProposal(record.proposals, record.seat, p, q);
      }
    }
  }

  lemma OneOwnProposal(proposals: seq<Proposal>, seat: Seat, p: Proposal, q: Proposal)
    requires DistinctProposals(proposals, seat) && p in proposals && q in proposals && p.entry.term == q.entry.term
    requires p.entry.sequencer == seat && q.entry.sequencer == seat
    ensures p == q
  {
    var i :| 0 <= i < |proposals| && proposals[i] == p;
    var j :| 0 <= j < |proposals| && proposals[j] == q;
    assert i == j;
  }

  function AccusingVotes(control: Control): seq<Vote> {
    match control.evidence
    case VoteConflict(a, b) => [a, b]
    case _ => []
  }

  function AccusingProposals(control: Control): seq<Proposal> {
    match control.evidence
    case ProposalConflict(a, b) => [a, b]
    case _ => []
  }

  /**
   * Crashes and duplicate writers never make a correct seat convictable: no equivocation evidence
   * naming it validates, because everything in the evidence must carry its signature.
   */
  lemma NeverConvicted(sys: System, moves: seq<Move>, control: Control)
    requires Initial(sys) && After(sys, moves).Some?
    requires var end := After(sys, moves).value;
             && control.offender in end.voters && !control.evidence.Misconduct?
             && (forall v :: v in AccusingVotes(control) ==> VoteSigned(end, v))
             && (forall p :: p in AccusingProposals(control) ==> ProposalSigned(end, p))
    ensures ValidateObjectiveAccusation(control, sys.ctx).Err?
  {
    hide After, SystemInv;
    RunKeeps(sys, moves);
    var end := After(sys, moves).value;
    match control.evidence {
      case VoteConflict(a, b) =>
        assert a in AccusingVotes(control) && b in AccusingVotes(control);
        var p := Proposal(Entry(0, 0, 0, 0), None, []);
        SentOnce(end, control.offender, a, b, p, p);
      case ProposalConflict(a, b) =>
        assert a in AccusingProposals(control) && b in AccusingProposals(control);
        var v := Vote(0, 0, 0, Prevote, None);
        SentOnce(end, control.offender, v, v, a, b);
    }
  }

  // ---- rounds ----

  ghost predicate RoundsUpTo(sys: System, round: nat) {
    forall s :: HasRecord(sys, s) ==> RecordOf(sys, s).round <= round
  }

  lemma ClosedRoundReached(sys: System, round: nat, limit: nat)
    requires SystemInv(sys) && OrderedSeats(sys.ctx.voters) && RoundClosed(sys, round) && RoundsUpTo(sys, limit)
    ensures round <= limit
  {
    hide RecordInv, SystemInv, VoterInv;
    var s :| HasRecord(sys, s) && AnyQuorum(RecordOf(sys, s), sys.ctx, round, Precommit);
    RecordHolds(sys, s);
    RecordedVotes(RecordOf(sys, s), sys.ctx, WorldOf(sys).votes);
    var v := VotesAt(RecordOf(sys, s).votes, round, Precommit)[0];
    assert v in VotesAt(RecordOf(sys, s).votes, round, Precommit);
  }

  /**
   * Hints never raise the highest correct round: one step raises it by at most one, and only after
   * a correct voter held a precommit quorum of that round.
   */
  lemma HighestRoundRises(sys: System, move: Move, limit: nat)
    requires SystemInv(sys) && OrderedSeats(sys.ctx.voters) && MoveOnce(sys, move).Some? && RoundsUpTo(sys, limit)
      && limit >= 1
    ensures RoundsUpTo(MoveOnce(sys, move).value, limit + 1)
    ensures RoundsUpTo(MoveOnce(sys, move).value, limit) || RoundClosed(sys, limit)
  {
    hide SystemInv, Act, RecordInv, ControllerInv;
    ActKeeps(sys, move);
    var next, s := MoveOnce(sys, move).value, move.seat;
    assert forall x :: HasRecord(next, x) && x != s ==> HasRecord(sys, x) && RecordOf(next, x) == RecordOf(sys, x);
    if HasRecord(next, s) && RecordOf(next, s).round > limit {
      assert StateInv(RecordOf(next, s), s, sys.ctx, WorldOf(sys));
      assert limit in WorldOf(sys).rounds;
      if RecordOf(next, s).round > limit + 1 {
        assert limit + 1 in WorldOf(sys).rounds;
        ClosedRoundReached(sys, limit + 1, limit);
        assert false;
      }
    }
  }

  predicate Beyond(sys: System, s: Seat, round: nat) {
    HasRecord(sys, s) && RecordOf(sys, s).round > round
  }

  lemma MovedBeyond(sys: System, move: Move, s: Seat, round: nat)
    requires SystemInv(sys) && OrderedSeats(sys.ctx.voters) && MoveOnce(sys, move).Some? && round >= 1
    requires !Beyond(sys, s, round) && Beyond(MoveOnce(sys, move).value, s, round)
    ensures RoundClosed(sys, round)
  {
    hide SystemInv, RecordInv, Act, ControllerInv, RoundClosed, Grows;
    ActKeeps(sys, move);
    var record := RecordOf(MoveOnce(sys, move).value, s);
    assert StateInv(record, s, sys.ctx, WorldOf(sys));
    assert round in WorldOf(sys).rounds;
  }

  /** Before a correct voter goes beyond a round, some correct voter holds a precommit quorum of that round. */
  lemma {:induction false} RoundsNeedQuorums(sys: System, moves: seq<Move>, s: Seat, round: nat) returns (k: nat)
    requires Initial(sys) && After(sys, moves).Some? && round >= 1 && Beyond(After(sys, moves).value, s, round)
    ensures k < |moves| && After(sys, moves[..k]).Some?
    ensures var earlier := After(sys, moves[..k]).value; !Beyond(earlier, s, round) && RoundClosed(earlier, round)
    decreases |moves|
  {
    hide SystemInv, MoveOnce, RoundClosed;
    k := |moves| - 1;
    var before := After(sys, moves[..k]).value;
    RunKeeps(sys, moves[..k]);
    if Beyond(before, s, round) {
      k := RoundsNeedQuorums(sys, moves[..k], s, round);
      assert moves[..|moves| - 1][..k] == moves[..k];
    } else {
      MovedBeyond(before, moves[k], s, round);
    }
  }

  // ---- restarting ----

  /** The local policy never turned a lock's precommit nil. */
  predicate Unrefused(sys: System, move: Move)
    requires OrderedSeats(sys.ctx.voters)
  {
    move.seat in sys.voters && move.action.Dispatch? && move.action.id in sys.voters[move.seat].controllers ==>
      !EventRefuses(sys.voters[move.seat].controllers[move.action.id].state, sys.ctx, move.action.event,
                    move.action.admit)
  }

  predicate UnrefusedRun(sys: System, moves: seq<Move>)
    requires OrderedSeats(sys.ctx.voters)
  {
    moves == [] ||
    (&& UnrefusedRun(sys, moves[..|moves| - 1])
     && var before := After(sys, moves[..|moves| - 1]);
        before.Some? && Unrefused(before.value, moves[|moves| - 1]))
  }

  predicate ControllerVoted(c: Controller) {
    LockIsVoted(c.state) && match c.progress
      case Reduced(next) => LockIsVoted(next.state)
      case Written(next) => LockIsVoted(next.state)
      case _ => true
  }

  predicate VoterVoted(v: Voter) {
    && (v.store.Some? ==> LockIsVoted(v.store.value.record))
    && forall id :: id in v.controllers ==> ControllerVoted(v.controllers[id])
  }

  lemma StoppedLock(s: State, t: State)
    requires SameOrStopped(s, t) && LockIsVoted(s)
    ensures LockIsVoted(t)
  {
  }

  lemma OpenVoted(v: Voter, ctx: Context, seat: Seat, id: nat)
    requires VoterVoted(v) && OrderedSeats(ctx.voters) && id in v.controllers
    ensures VoterVoted(OpenRecord(v, ctx, seat, id))
  {
    hide LockIsVoted, RestoreState;
    var c := v.controllers[id];
    assert ControllerVoted(c);
    if RestoreState(c.state, ctx, seat).Ok? {
      RestoreKeepsRecord(c.state, ctx, seat);
      StoppedLock(c.state, RestoreState(c.state, ctx, seat).value);
    }
  }

  lemma CreateVoted(v: Voter, ctx: Context, seat: Seat, id: nat, proven: Option<ProvenOffender>,
                    pending: Option<Control>)
    requires VoterVoted(v) && CreateRecord(v, ctx, seat, id, proven, pending).Some?
    ensures VoterVoted(CreateRecord(v, ctx, seat, id, proven, pending).value)
  {
  }

  lemma DispatchVoted(sys: System, seat: Seat, s: State, event: Event, admit: Admission)
    requires SystemInv(sys) && OrderedSeats(sys.ctx.voters) && HasRecord(sys, seat) && Deliverable(sys, event)
    requires StateInv(s, seat, sys.ctx, WorldOf(sys)) && Extends(s, RecordOf(sys, seat)) && LockIsVoted(s)
    requires Reduce(s, sys.ctx, event, admit).Ok?
    ensures LockIsVoted(Reduce(s, sys.ctx, event, admit).value.state) <==> !EventRefuses(s, sys.ctx, event, admit)
  {
    hide RecordInv, SystemInv, Extends, Reduce, RestoreState, LockIsVoted, EventHarmless, EventSigned, EventRefuses;
    var ctx, known := sys.ctx, WorldOf(sys).votes;
    DispatchedState(sys, seat, s, event, admit);
    RestorableIffLockVoted(s, ctx, known);
    RestorableIffLockVoted(Reduce(s, ctx, event, admit).value.state, ctx, known);
    StepRestorable(s, ctx, known, event, admit);
  }

  lemma StepVoted(sys: System, move: Move)
    requires SystemInv(sys) && OrderedSeats(sys.ctx.voters) && MoveOnce(sys, move).Some? && Unrefused(sys, move)
    requires VoterVoted(sys.voters[move.seat])
    ensures VoterVoted(MoveOnce(sys, move).value.voters[move.seat])
  {
    hide SystemInv, StateInv, VoterInv, Extends, Reduce, RecoverEffects, OpenRecord, CreateRecord, LockIsVoted,
      EventRefuses, Deliverable,
      EffectsRecorded;
    var v, ctx, seat, id := sys.voters[move.seat], sys.ctx, move.seat, move.action.id;
    VoterHolds(sys, seat);
    if move.action.Create? {
      CreateVoted(v, ctx, seat, id, move.action.proven, move.action.pending);
    } else {
      StoreExists(v, seat, ctx, WorldOf(sys), id);
      if id in v.controllers {
        ControllerHolds(v, seat, ctx, WorldOf(sys), id);
        assert ControllerVoted(v.controllers[id]);
        if move.action.Open? {
          OpenVoted(v, ctx, seat, id);
        } else if move.action.Dispatch? {
          DispatchVoted(sys, seat, v.controllers[id].state, move.action.event, move.action.admit);
        }
      }
    }
  }

  lemma {:induction false} RunVoted(sys: System, moves: seq<Move>)
    requires Initial(sys) && After(sys, moves).Some? && UnrefusedRun(sys, moves)
    ensures forall s :: s in sys.voters ==>
      s in After(sys, moves).value.voters && VoterVoted(After(sys, moves).value.voters[s])
    ensures After(sys, moves).value.voters.Keys == sys.voters.Keys
    decreases |moves|
  {
    hide Act, VoterVoted, SystemInv, Unrefused, After, MoveOnce, Initial;
    InitialOrdered(sys);
    if moves == [] {
      NothingMoved(sys);
      forall s | s in sys.voters ensures VoterVoted(sys.voters[s]) {
        NewVoted();
      }
    } else {
      var front, last := moves[..|moves| - 1], moves[|moves| - 1];
      RunVoted(sys, front);
      RunKeeps(sys, front);
      LastMoved(sys, moves);
      OthersStay(After(sys, front).value, last);
      StepVoted(After(sys, front).value, last);
    }
  }

  lemma InitialOrdered(sys: System)
    requires Initial(sys)
    ensures OrderedSeats(sys.ctx.voters) && forall s :: s in sys.voters ==> sys.voters[s] == NEW_VOTER
  {
  }

  lemma NothingMoved(sys: System)
    requires OrderedSeats(sys.ctx.voters)
    ensures After(sys, []) == Some(sys)
  {
  }

  lemma OthersStay(sys: System, move: Move)
    requires OrderedSeats(sys.ctx.voters) && MoveOnce(sys, move).Some?
    ensures var after := MoveOnce(sys, move).value;
      move.seat in sys.voters && after.voters.Keys == sys.voters.Keys
      && forall s :: s in sys.voters && s != move.seat ==> after.voters[s] == sys.voters[s]
  {
    hide Act;
  }

  lemma LastMoved(sys: System, moves: seq<Move>)
    requires OrderedSeats(sys.ctx.voters) && moves != [] && After(sys, moves).Some?
    ensures var before := After(sys, moves[..|moves| - 1]);
      before.Some? && OrderedSeats(before.value.ctx.voters)
        && MoveOnce(before.value, moves[|moves| - 1]) == After(sys, moves)
  {
    hide MoveOnce;
  }

  lemma NewVoted()
    ensures VoterVoted(NEW_VOTER)
  {
  }

  /**
   * Restorability: after any run whose local policies refused no lock, every durable record passes
   * every check of a restart.
   */
  lemma RunsRestore(sys: System, moves: seq<Move>, s: Seat)
    requires Initial(sys) && After(sys, moves).Some? && UnrefusedRun(sys, moves)
      && HasRecord(After(sys, moves).value, s)
    ensures RestoreState(RecordOf(After(sys, moves).value, s), sys.ctx, s).Ok?
  {
    hide After, SystemInv, RecordInv, RestoreState, LockIsVoted, UnrefusedRun;
    RunKeeps(sys, moves);
    RunVoted(sys, moves);
    var end := After(sys, moves).value;
    RecordHolds(end, s);
    RestorableIffLockVoted(RecordOf(end, s), sys.ctx, WorldOf(end).votes);
  }
}
