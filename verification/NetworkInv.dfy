/** What every interleaving of controllers, crashes and deliveries keeps. */
module NetworkInv {
  import opened Results
  import opened Votes
  import opened Proposals
  import opened Consensus
  import opened Transitions
  import opened ConsensusRestore
  import opened ConsensusRecord
  import opened ConsensusSteps
  import opened ConsensusEvents
  import opened ConsensusRounds
  import opened Recovery
  import opened LockRule
  import opened Agreement
  import opened Network

  // ---- what exists in a system ----

  /** Votes and proposals that may exist, and the rounds in which a correct record holds a precommit quorum. */
  datatype World = World(votes: iset<Vote>, proposals: iset<Proposal>, rounds: iset<nat>)

  predicate HasRecord(sys: System, s: Seat) {
    s in sys.voters && sys.voters[s].store.Some?
  }

  function RecordOf(sys: System, s: Seat): State
    requires HasRecord(sys, s)
  {
    sys.voters[s].store.value.record
  }

  predicate VoteExists(sys: System, v: Vote) {
    v.seat in sys.voters && v.height == sys.ctx.height ==> HasRecord(sys, v.seat) && v in RecordOf(sys, v.seat).votes
  }

  predicate ProposalExists(sys: System, p: Proposal) {
    p.entry.sequencer in sys.voters && p.entry.height == sys.ctx.height ==>
      HasRecord(sys, p.entry.sequencer) && p in RecordOf(sys, p.entry.sequencer).proposals
  }

  ghost predicate RoundClosed(sys: System, round: nat)
    requires OrderedSeats(sys.ctx.voters)
  {
    exists s :: HasRecord(sys, s) && AnyQuorum(RecordOf(sys, s), sys.ctx, round, Precommit)
  }

  ghost function WorldOf(sys: System): World
    requires OrderedSeats(sys.ctx.voters)
  {
    World(iset v | VoteExists(sys, v), iset p | ProposalExists(sys, p), iset r: nat | RoundClosed(sys, r))
  }

  ghost predicate Widens(a: World, b: World) {
    a.votes <= b.votes && a.proposals <= b.proposals && a.rounds <= b.rounds
  }

  // ---- the invariant of one voter ----

  ghost predicate HintsExist(hints: seq<Hint>, world: World) {
    forall h :: h in hints && h.ProposalHint? ==> h.proposal in world.proposals
  }

  ghost predicate RoundsClosed(round: nat, world: World) {
    forall r: nat :: 1 <= r < round ==> r in world.rounds
  }

  ghost predicate StateInv(s: State, seat: Seat, ctx: Context, world: World) {
    RecordInv(s, ctx, world.votes) && s.seat == seat && HintsExist(s.hints, world) && RoundsClosed(s.round, world)
  }

  ghost predicate ControllerInv(c: Controller, stored: Stored, seat: Seat, ctx: Context, world: World) {
    && c.revision <= stored.revision
    && (c.revision == stored.revision ==> c.state == stored.record)
    && Extends(c.state, stored.record)
    && StateInv(c.state, seat, ctx, world)
    && match c.progress
       case Loading => true
       case Idle => true
       case Reduced(next) =>
         StateInv(next.state, seat, ctx, world) && Extends(c.state, next.state)
           && EffectsRecorded(next.effects, next.state)
       case Written(next) =>
         && c.revision < stored.revision
         && (c.revision + 1 == stored.revision ==> next.state == stored.record)
         && Extends(next.state, stored.record)
         && StateInv(next.state, seat, ctx, world) && EffectsRecorded(next.effects, next.state)
  }

  /** Whatever a voter has broadcast is in its durable record. */
  ghost predicate SentRecorded(v: Voter, seat: Seat, record: State) {
    && (forall vote :: vote in v.votes ==> vote in record.votes && vote.seat == seat)
    && (forall p :: p in v.proposals ==> p in record.proposals && p.entry.sequencer == seat)
  }

  ghost predicate VoterInv(v: Voter, seat: Seat, ctx: Context, world: World) {
    match v.store
    case None => v == NEW_VOTER
    case Some(stored) =>
      && StateInv(stored.record, seat, ctx, world)
      && SentRecorded(v, seat, stored.record)
      && forall id :: id in v.controllers ==> ControllerInv(v.controllers[id], stored, seat, ctx, world)
  }

  ghost predicate SystemInv(sys: System) {
    && sys.ctx.WellFormed()
    && sys.voters.Keys <= VoterSet(sys.ctx.voters)
    && |Faulty(sys)| <= Tolerated(|sys.ctx.voters|)
    && forall s :: s in sys.voters ==> VoterInv(sys.voters[s], s, sys.ctx, WorldOf(sys))
  }

  // ---- more may exist ----

  lemma StateWidens(s: State, seat: Seat, ctx: Context, a: World, b: World)
    requires StateInv(s, seat, ctx, a) && Widens(a, b)
    ensures StateInv(s, seat, ctx, b)
  {
    hide RecordInv;
    MoreKnown(s, ctx, a.votes, b.votes);
  }

  lemma ControllerWidens(c: Controller, stored: Stored, seat: Seat, ctx: Context, a: World, b: World)
    requires ControllerInv(c, stored, seat, ctx, a) && Widens(a, b)
    ensures ControllerInv(c, stored, seat, ctx, b)
  {
    hide StateInv, Widens, EffectsRecorded, Extends;
    StateWidens(c.state, seat, ctx, a, b);
    match c.progress {
      case Reduced(next) => StateWidens(next.state, seat, ctx, a, b);
      case Written(next) => StateWidens(next.state, seat, ctx, a, b);
      case _ =>
    }
  }

  lemma VoterWidens(v: Voter, seat: Seat, ctx: Context, a: World, b: World)
    requires VoterInv(v, seat, ctx, a) && Widens(a, b)
    ensures VoterInv(v, seat, ctx, b)
  {
    hide StateInv, Widens, ControllerInv, SentRecorded;
    if v.store.Some? {
      StateWidens(v.store.value.record, seat, ctx, a, b);
      forall id | id in v.controllers ensures ControllerInv(v.controllers[id], v.store.value, seat, ctx, b) {
        ControllerWidens(v.controllers[id], v.store.value, seat, ctx, a, b);
      }
    }
  }

  predicate Grows(v: Voter, t: Voter) {
    v.store.Some? ==> t.store.Some? && Extends(v.store.value.record, t.store.value.record)
  }

  /** When one record grows, everything that existed still exists. */
  lemma WorldWidens(sys: System, seat: Seat, t: Voter)
    requires OrderedSeats(sys.ctx.voters) && seat in sys.voters && Grows(sys.voters[seat], t)
    ensures Widens(WorldOf(sys), WorldOf(sys.(voters := sys.voters[seat := t])))
  {
    var next := sys.(voters := sys.voters[seat := t]);
    forall v | VoteExists(sys, v) ensures VoteExists(next, v) {
    }
    forall p | ProposalExists(sys, p) ensures ProposalExists(next, p) {
    }
    forall r: nat | RoundClosed(sys, r) ensures RoundClosed(next, r) {
      var s :| HasRecord(sys, s) && AnyQuorum(RecordOf(sys, s), sys.ctx, r, Precommit);
      VotesAtGrows(RecordOf(sys, s).votes, RecordOf(next, s).votes, r, Precommit);
      assert HasRecord(next, s) && AnyQuorum(RecordOf(next, s), sys.ctx, r, Precommit);
    }
  }

  // ---- what deliveries can carry ----

  lemma VoterHolds(sys: System, s: Seat)
    requires SystemInv(sys) && s in sys.voters
    ensures OrderedSeats(sys.ctx.voters) && VoterInv(sys.voters[s], s, sys.ctx, WorldOf(sys))
  {
  }

  lemma SignedExists(sys: System, v: Vote)
    requires SystemInv(sys) && VoteSigned(sys, v)
    ensures v in WorldOf(sys).votes
  {
    hide StateInv, ControllerInv, SystemInv;
    if v.seat in sys.voters {
      VoterHolds(sys, v.seat);
    }
  }

  lemma SignedProposalExists(sys: System, p: Proposal)
    requires SystemInv(sys) && ProposalSigned(sys, p)
    ensures p in WorldOf(sys).proposals
  {
    hide StateInv, ControllerInv, SystemInv;
    if p.entry.sequencer in sys.voters {
      VoterHolds(sys, p.entry.sequencer);
    }
  }

  lemma RecordHolds(sys: System, s: Seat)
    requires SystemInv(sys) && HasRecord(sys, s)
    ensures StateInv(RecordOf(sys, s), s, sys.ctx, WorldOf(sys))
  {
    assert VoterInv(sys.voters[s], s, sys.ctx, WorldOf(sys));
  }

  /** A quorum of existing votes holds a vote recorded by a correct voter. */
  lemma CorrectSigner(sys: System, votes: seq<Vote>, ballot: Ballot) returns (s: Seat)
    requires SystemInv(sys) && OrderedSeats(sys.ctx.voters) && ValidCertificate(votes, sys.ctx.voters, ballot)
    requires ballot.height == sys.ctx.height && forall v :: v in votes ==> v in WorldOf(sys).votes
    ensures HasRecord(sys, s) && Vote(s, ballot.height, ballot.term, ballot.phase, ballot.value) in RecordOf(sys,
        s).votes
  {
    CertificateSigners(votes, sys.ctx.voters, ballot);
    s := QuorumsMeet(sys.ctx.voters, Signers(votes), Signers(votes), Faulty(sys));
    var v :| v in votes && v.seat == s;
    assert VoteExists(sys, v);
  }

  /** Within the fault bound an authentic certificate always certifies a valid value. */
  lemma CertificatesAreValid(sys: System, certified: CertifiedEntry)
    requires SystemInv(sys) && OrderedSeats(sys.ctx.voters) && certified.entry.height == sys.ctx.height
    requires forall v :: v in certified.certificate ==> VoteSigned(sys, v)
    requires AuthenticCertified(certified, sys.ctx)
    ensures ValidCertified(certified, sys.ctx)
  {
    hide RecordInv, VoterInv, CommitRule, PrevoteRule, ValidCertificate;
    var entry, ctx := certified.entry, sys.ctx;
    forall v | v in certified.certificate ensures v in WorldOf(sys).votes {
      SignedExists(sys, v);
    }
    var s := CorrectSigner(sys, certified.certificate, Ballot(entry.height, entry.term, Precommit, Some(entry.hash)));
    RecordHolds(sys, s);
    var record := RecordOf(sys, s);
    RecordedLocks(record, ctx, WorldOf(sys).votes);
    var v := Vote(s, entry.height, entry.term, Precommit, Some(entry.hash));
    var p :| p in record.proposals && p.entry.term == v.term && p.entry.hash == v.value.value;
    RecordedProposal(record, ctx, WorldOf(sys).votes, p);
    assert p.entry == entry;
  }

  lemma VoteRoundReached(sys: System, v: Vote)
    requires SystemInv(sys) && VoteExists(sys, v) && v.seat in sys.voters && v.height == sys.ctx.height
    ensures HasRecord(sys, v.seat) && v.term <= RecordOf(sys, v.seat).round
  {
    hide RecordInv, SystemInv, VoterInv;
    VoterHolds(sys, v.seat);
    RecordHolds(sys, v.seat);
    RecordedVotes(RecordOf(sys, v.seat), sys.ctx, WorldOf(sys).votes);
  }

  lemma ProposalRoundReached(sys: System, p: Proposal)
    requires SystemInv(sys) && ProposalExists(sys, p) && p.entry.sequencer in sys.voters
      && p.entry.height == sys.ctx.height
    ensures HasRecord(sys, p.entry.sequencer) && p.entry.term <= RecordOf(sys, p.entry.sequencer).round
  {
    hide RecordInv, SystemInv, VoterInv, ValidProposal;
    VoterHolds(sys, p.entry.sequencer);
    RecordHolds(sys, p.entry.sequencer);
    RecordedProposal(RecordOf(sys, p.entry.sequencer), sys.ctx, WorldOf(sys).votes, p);
  }

  /** A voter whose hint names a round has itself reached that round, unless it is faulty. */
  lemma HintedRoundReached(sys: System, h: Hint, s: State, seat: Seat, event: Event)
    requires SystemInv(sys) && StateInv(s, seat, sys.ctx, WorldOf(sys)) && Deliverable(sys, event)
    requires OrderedSeats(sys.ctx.voters) && h in s.hints + EventHints(event, sys.ctx) && h.seat in sys.voters
    ensures HasRecord(sys, h.seat) && h.round <= RecordOf(sys, h.seat).round
  {
    hide RecordInv, SystemInv, ValidProposal;
    var ctx, world := sys.ctx, WorldOf(sys);
    RecordedBinding(s, ctx, world.votes);
    if h in s.hints {
      RecordedHint(s, ctx, world.votes, h);
    }
    if h.VoteHint? {
      if h !in s.hints {
        SignedExists(sys, h.vote);
      }
      VoteRoundReached(sys, h.vote);
    } else {
      if h !in s.hints {
        SignedProposalExists(sys, h.proposal);
      }
      ValidHeight(h.proposal, ctx);
      ProposalRoundReached(sys, h.proposal);
    }
  }

  lemma OfferedExist(sys: System, s: State, t: State, seat: Seat, event: Event)
    requires SystemInv(sys) && StateInv(s, seat, sys.ctx, WorldOf(sys)) && Deliverable(sys, event)
    requires OrderedSeats(sys.ctx.voters) && forall h :: h in t.hints ==> h in s.hints + EventHints(event, sys.ctx)
    ensures HintsExist(t.hints, WorldOf(sys))
  {
    hide RecordInv, SystemInv;
    forall h | h in t.hints && h.ProposalHint? ensures h.proposal in WorldOf(sys).proposals {
      if h !in s.hints {
        SignedProposalExists(sys, h.proposal);
      }
    }
  }

  lemma ReachedRoundsClosed(sys: System, s: Seat, round: nat)
    requires SystemInv(sys) && HasRecord(sys, s) && round <= RecordOf(sys, s).round
    ensures RoundsClosed(round, WorldOf(sys))
  {
    hide RecordInv;
    RecordHolds(sys, s);
  }

  lemma FaultsTolerated(sys: System)
    requires SystemInv(sys)
    ensures |Faulty(sys)| <= Tolerated(|sys.ctx.voters|) && sys.voters.Keys <= VoterSet(sys.ctx.voters)
      && sys.ctx.WellFormed()
  {
  }

  lemma HintSeat(s: State, ctx: Context, known: iset<Vote>, event: Event, h: Hint)
    requires RecordInv(s, ctx, known) && OrderedSeats(ctx.voters) && h in s.hints + EventHints(event, ctx)
    ensures h.seat in ctx.voters
  {
    hide RecordInv;
    if h in s.hints {
      RecordedHint(s, ctx, known, h);
    }
  }

  /** Two hinted seats include a correct one, so a jump stays within rounds a correct voter reached. */
  lemma MoveIsClosed(sys: System, s: State, t: State, seat: Seat, event: Event)
    requires SystemInv(sys) && StateInv(s, seat, sys.ctx, WorldOf(sys)) && Deliverable(sys, event)
    requires OrderedSeats(sys.ctx.voters) && RoundMove(s, t, sys.ctx, s.hints + EventHints(event, sys.ctx))
    requires HasRecord(sys, seat) && Extends(s, RecordOf(sys, seat))
    ensures RoundsClosed(t.round, WorldOf(sys))
  {
    hide RecordInv, SystemInv;
    var ctx, world := sys.ctx, WorldOf(sys);
    var offered := s.hints + EventHints(event, ctx);
    if t.round > s.round {
      if t.round == s.round + 1 && AnyQuorum(s, ctx, s.round, Precommit) {
        VotesAtGrows(s.votes, RecordOf(sys, seat).votes, s.round, Precommit);
        assert RoundClosed(sys, s.round);
      } else {
        var a, b :| a in offered && b in offered && a.seat != b.seat && a.round >= t.round && b.round >= t.round;
        var h := if a.seat in sys.voters then a else b;
        HintSeat(s, ctx, world.votes, event, a);
        HintSeat(s, ctx, world.votes, event, b);
        FaultsTolerated(sys);
        OneOfTwo(sys, a.seat, b.seat);
        HintedRoundReached(sys, h, s, seat, event);
        ReachedRoundsClosed(sys, h.seat, t.round);
      }
    }
  }

  lemma OneOfTwo(sys: System, a: Seat, b: Seat)
    requires |Faulty(sys)| <= Tolerated(|sys.ctx.voters|) && a != b && a in sys.ctx.voters && b in sys.ctx.voters
    ensures a in sys.voters || b in sys.voters
  {
    if a !in sys.voters && b !in sys.voters {
      Subset({a, b}, Faulty(sys));
      assert false;
    }
  }

  // ---- steps ----

  lemma StoppedStateInv(s: State, t: State, seat: Seat, ctx: Context, world: World)
    requires StateInv(s, seat, ctx, world) && SameOrStopped(s, t)
    ensures StateInv(t, seat, ctx, world) && Extends(s, t)
  {
    hide RecordInv;
    StopsForGood(s, t, ctx, world.votes);
  }

  lemma CreatedVoter(sys: System, seat: Seat, id: nat, proven: Option<ProvenOffender>, pending: Option<Control>)
    requires SystemInv(sys) && seat in sys.voters && OrderedSeats(sys.ctx.voters)
    requires Carried(sys.ctx, proven, pending)
    requires CreateRecord(sys.voters[seat], sys.ctx, seat, id, proven, pending).Some?
    ensures var t := CreateRecord(sys.voters[seat], sys.ctx, seat, id, proven, pending).value;
            VoterInv(t, seat, sys.ctx, WorldOf(sys)) && Grows(sys.voters[seat], t)
  {
    hide RecordInv, SystemInv;
    VoterHolds(sys, seat);
    CreatedRecord(sys.ctx, WorldOf(sys).votes, seat, proven, pending);
  }

  lemma ControllerHolds(v: Voter, seat: Seat, ctx: Context, world: World, id: nat)
    requires VoterInv(v, seat, ctx, world) && v.store.Some? && id in v.controllers
    ensures ControllerInv(v.controllers[id], v.store.value, seat, ctx, world)
    ensures StateInv(v.store.value.record, seat, ctx, world) && SentRecorded(v, seat, v.store.value.record)
  {
  }

  /** A controller beside an unchanged store. */
  lemma PutKeeps(v: Voter, id: nat, c: Controller, seat: Seat, ctx: Context, world: World)
    requires VoterInv(v, seat, ctx, world) && v.store.Some?
    requires ControllerInv(c, v.store.value, seat, ctx, world)
    ensures VoterInv(Put(v, id, c), seat, ctx, world) && Grows(v, Put(v, id, c))
  {
    hide StateInv, ControllerInv;
  }

  lemma DropKeeps(v: Voter, id: nat, seat: Seat, ctx: Context, world: World)
    requires VoterInv(v, seat, ctx, world) && v.store.Some?
    ensures VoterInv(Drop(v, id), seat, ctx, world) && Grows(v, Drop(v, id))
  {
    hide StateInv, ControllerInv;
  }

  /** A saved record extends the old one, and every other controller falls behind it. */
  lemma SavedKeeps(v: Voter, id: nat, record: State, c: Controller, seat: Seat, ctx: Context, world: World)
    requires VoterInv(v, seat, ctx, world) && v.store.Some? && Extends(v.store.value.record, record)
    requires StateInv(record, seat, ctx, world)
    requires ControllerInv(c, Stored(v.store.value.revision + 1, record), seat, ctx, world)
    ensures var t := Put(v.(store := Some(Stored(v.store.value.revision + 1, record))), id, c);
            VoterInv(t, seat, ctx, world) && Grows(v, t)
  {
    hide StateInv, EffectsRecorded;
    var prior, stored := v.store.value, Stored(v.store.value.revision + 1, record);
    forall k | k in v.controllers ensures ControllerInv(v.controllers[k], stored, seat, ctx, world) {
      assert ControllerInv(v.controllers[k], prior, seat, ctx, world);
      ExtendsTransitive(v.controllers[k].state, prior.record, record);
      if v.controllers[k].progress.Written? {
        ExtendsTransitive(v.controllers[k].progress.next.state, prior.record, record);
      }
    }
  }

  lemma ExtendsItself(s: State)
    ensures Extends(s, s)
  {
  }

  lemma NormalizedVoter(v: Voter, ctx: Context, seat: Seat, id: nat, restored: State, world: World)
    requires VoterInv(v, seat, ctx, world) && v.store.Some? && id in v.controllers
    requires v.controllers[id].revision == v.store.value.revision && SameOrStopped(v.controllers[id].state, restored)
    ensures var t := Put(v.(store := Some(Stored(v.store.value.revision + 1, restored))), id,
                         Controller(v.store.value.revision + 1, restored, Idle));
            VoterInv(t, seat, ctx, world) && Grows(v, t)
  {
    hide StateInv, VoterInv, Extends, Grows, EffectsRecorded, SameOrStopped;
    ControllerHolds(v, seat, ctx, world, id);
    StoppedStateInv(v.controllers[id].state, restored, seat, ctx, world);
    ExtendsItself(restored);
    SavedKeeps(v, id, restored, Controller(v.store.value.revision + 1, restored, Idle), seat, ctx, world);
  }

  lemma UnchangedVoter(v: Voter, ctx: Context, seat: Seat, id: nat, world: World)
    requires VoterInv(v, seat, ctx, world) && v.store.Some? && id in v.controllers
    ensures var t := Put(v, id, v.controllers[id].(progress := Idle)); VoterInv(t, seat, ctx, world) && Grows(v, t)
  {
    hide StateInv, VoterInv, Extends, Grows, EffectsRecorded;
    ControllerHolds(v, seat, ctx, world, id);
    PutKeeps(v, id, v.controllers[id].(progress := Idle), seat, ctx, world);
  }

  lemma OpenedVoter(v: Voter, ctx: Context, seat: Seat, id: nat, world: World)
    requires VoterInv(v, seat, ctx, world) && OrderedSeats(ctx.voters) && v.store.Some? && id in v.controllers
    ensures VoterInv(OpenRecord(v, ctx, seat, id), seat, ctx, world) && Grows(v, OpenRecord(v, ctx, seat, id))
  {
    hide StateInv, RestoreState, VoterInv, Extends, Grows, EffectsRecorded, SameOrStopped, ControllerInv, Put, Drop;
    var c := v.controllers[id];
    DropKeeps(v, id, seat, ctx, world);
    UnchangedVoter(v, ctx, seat, id, world);
    if RestoreState(c.state, ctx, seat).Ok? {
      var restored := RestoreState(c.state, ctx, seat).value;
      RestoreKeepsRecord(c.state, ctx, seat);
      if c.revision == v.store.value.revision {
        NormalizedVoter(v, ctx, seat, id, restored, world);
      }
    }
  }

  /** One event on any controller, current or stale: its result is lawful in the world as it is. */
  lemma DispatchedState(sys: System, seat: Seat, s: State, event: Event, admit: Admission)
    requires SystemInv(sys) && OrderedSeats(sys.ctx.voters) && HasRecord(sys, seat) && Deliverable(sys, event)
    requires StateInv(s, seat, sys.ctx, WorldOf(sys)) && Extends(s, RecordOf(sys, seat))
    requires Reduce(s, sys.ctx, event, admit).Ok?
    ensures EventHarmless(s, sys.ctx, event) && EventSigned(s, event, WorldOf(sys).votes)
    ensures var t := Reduce(s, sys.ctx, event, admit).value;
            StateInv(t.state, seat, sys.ctx, WorldOf(sys)) && Extends(s, t.state) && EffectsRecorded(t.effects, t.state)
  {
    hide RecordInv, SystemInv, EffectsRecorded, Extends, Reduce, RoundMove, ValidCertified, AuthenticCertified;
    var ctx, world := sys.ctx, WorldOf(sys);
    forall v | v in EventVotes(event) ensures v in world.votes {
      SignedExists(sys, v);
    }
    if event.ReceiveCommit? && AuthenticCertified(event.certified, ctx) && event.certified.entry.height == ctx.height {
      CertificatesAreValid(sys, event.certified);
    }
    ReduceKept(s, ctx, world.votes, event, admit);
    ReduceMoves(s, ctx, world.votes, event, admit);
    var t := Reduce(s, ctx, event, admit).value;
    MoveIsClosed(sys, s, t.state, seat, event);
    MovedHints(s, t.state, ctx, s.hints + EventHints(event, ctx));
    OfferedExist(sys, s, t.state, seat, event);
    SameSeat(s, t.state);
  }

  lemma MovedHints(s: State, t: State, ctx: Context, offered: seq<Hint>)
    requires OrderedSeats(ctx.voters) && RoundMove(s, t, ctx, offered)
    ensures forall h :: h in t.hints ==> h in offered
  {
  }

  lemma SameSeat(s: State, t: State)
    requires Extends(s, t)
    ensures s.seat == t.seat
  {
  }

  lemma DispatchedVoter(sys: System, seat: Seat, id: nat, event: Event, admit: Admission)
    requires SystemInv(sys) && OrderedSeats(sys.ctx.voters) && HasRecord(sys, seat) && Deliverable(sys, event)
    requires id in sys.voters[seat].controllers && sys.voters[seat].controllers[id].progress.Idle?
    requires Reduce(sys.voters[seat].controllers[id].state, sys.ctx, event, admit).Ok?
    ensures var v := sys.voters[seat];
            var c := v.controllers[id];
            var t := Put(v, id, c.(progress := Reduced(Reduce(c.state, sys.ctx, event, admit).value)));
            VoterInv(t, seat, sys.ctx, WorldOf(sys)) && Grows(v, t)
  {
    hide SystemInv, StateInv, EffectsRecorded, Extends, Reduce, VoterInv, EventHarmless, EventSigned;
    var v := sys.voters[seat];
    var c := v.controllers[id];
    VoterHolds(sys, seat);
    ControllerHolds(v, seat, sys.ctx, WorldOf(sys), id);
    DispatchedState(sys, seat, c.state, event, admit);
    PutKeeps(v, id, c.(progress := Reduced(Reduce(c.state, sys.ctx, event, admit).value)), seat, sys.ctx, WorldOf(sys));
  }

  lemma SavedVoter(v: Voter, ctx: Context, seat: Seat, id: nat, world: World)
    requires VoterInv(v, seat, ctx, world) && v.store.Some? && id in v.controllers
      && v.controllers[id].progress.Reduced?
    ensures var t := SaveRecord(v, id, v.controllers[id]); VoterInv(t, seat, ctx, world) && Grows(v, t)
  {
    hide StateInv, EffectsRecorded, VoterInv, Extends;
    var c := v.controllers[id];
    ControllerHolds(v, seat, ctx, world, id);
    DropKeeps(v, id, seat, ctx, world);
    if c.revision == v.store.value.revision {
      ExtendsItself(c.progress.next.state);
      SavedKeeps(v, id, c.progress.next.state, c.(progress := Written(c.progress.next)), seat, ctx, world);
    }
  }

  /** Broadcasting only what a durable record holds. */
  lemma SentKeeps(v: Voter, effect: Effect, s: State, seat: Seat, ctx: Context, world: World)
    requires VoterInv(v, seat, ctx, world) && v.store.Some? && Extends(s, v.store.value.record) && s.seat == seat
    requires EffectsRecorded([effect], s)
    ensures VoterInv(Send(v, effect), seat, ctx, world) && Grows(v, Send(v, effect))
  {
    hide StateInv, ControllerInv;
  }

  lemma RecoveredEffect(s: State, ctx: Context, effect: Effect)
    requires OrderedSeats(ctx.voters) && RecoverEffects(s, ctx).Ok? && effect in RecoverEffects(s, ctx).value
    ensures EffectsRecorded([effect], s)
  {
    hide RestoreState, RecoverEffects;
    if effect.BroadcastVote? || effect.BroadcastProposal? {
      HaltedRecoversNothing(s, ctx, effect);
      if effect.BroadcastVote? {
        RecoveryRepeats(s, ctx, effect.vote, Proposal(Entry(0, 0, 0, 0), None, []));
      } else {
        RecoveryRepeats(s, ctx, Vote(0, 0, 0, Prevote, None), effect.proposal);
      }
    }
  }

  lemma HaltedRecoversNothing(s: State, ctx: Context, effect: Effect)
    requires OrderedSeats(ctx.voters) && RecoverEffects(s, ctx).Ok? && effect in RecoverEffects(s, ctx).value
    requires effect.BroadcastVote? || effect.BroadcastProposal?
    ensures RestoreState(s, ctx, s.seat).Ok? && RestoreState(s, ctx, s.seat).value.halted.None?
  {
    hide RestoreState;
  }

  /** What one stage of one controller does to its voter. */
  lemma ActKeeps(sys: System, move: Move)
    requires SystemInv(sys) && OrderedSeats(sys.ctx.voters) && MoveOnce(sys, move).Some?
    ensures var v := sys.voters[move.seat];
            var t := Act(v, sys.ctx, move.seat, move.action);
            t.Some? && VoterInv(t.value, move.seat, sys.ctx, WorldOf(sys)) && Grows(v, t.value)
  {
    hide SystemInv, StateInv, RecordInv, Extends, Reduce, RecoverEffects, OpenRecord, CreateRecord, SaveRecord,
      VoterInv, EffectsRecorded, Grows;
    var v, ctx, seat, world, id := sys.voters[move.seat], sys.ctx, move.seat, WorldOf(sys), move.action.id;
    VoterHolds(sys, seat);
    if move.action.Create? {
      CreatedVoter(sys, seat, id, move.action.proven, move.action.pending);
    } else {
      StoreExists(v, seat, ctx, world, id);
      var stored := v.store.value;
      StoredHolds(v, seat, ctx, world);
      ExtendsItself(stored.record);
      if id in v.controllers {
        ControllerHolds(v, seat, ctx, world, id);
      }
      match move.action {
        case Load(_) => PutKeeps(v, id, Controller(stored.revision, stored.record, Loading), seat, ctx, world);
        case Open(_) => OpenedVoter(v, ctx, seat, id, world);
        case Dispatch(_, event, admit) => DispatchedVoter(sys, seat, id, event, admit);
        case Discard(_) => PutKeeps(v, id, v.controllers[id].(progress := Idle), seat, ctx, world);
        case Save(_) => SavedVoter(v, ctx, seat, id, world);
        case EmitOne(_, index) =>
          OneEffect(v.controllers[id].progress.next.effects, index, v.controllers[id].progress.next.state);
          StateSeat(v.controllers[id].progress.next.state, seat, ctx, world);
          SentKeeps(v, v.controllers[id].progress.next.effects[index], v.controllers[id].progress.next.state, seat,
                    ctx, world);
        case Settled(_) =>
          PutKeeps(v, id, Controller(v.controllers[id].revision + 1, v.controllers[id].progress.next.state, Idle),
                   seat, ctx, world);
        case ResumeOne(_, index) =>
          var effect := RecoverEffects(v.controllers[id].state, ctx).value[index];
          RecoveredEffect(v.controllers[id].state, ctx, effect);
          StateSeat(v.controllers[id].state, seat, ctx, world);
          SentKeeps(v, effect, v.controllers[id].state, seat, ctx, world);
        case Crash(_) => DropKeeps(v, id, seat, ctx, world);
      }
    }
  }

  lemma OneEffect(effects: seq<Effect>, index: nat, s: State)
    requires EffectsRecorded(effects, s) && index < |effects|
    ensures EffectsRecorded([effects[index]], s)
  {
  }

  lemma StateSeat(s: State, seat: Seat, ctx: Context, world: World)
    requires StateInv(s, seat, ctx, world)
    ensures s.seat == seat
  {
  }

  lemma StoredHolds(v: Voter, seat: Seat, ctx: Context, world: World)
    requires VoterInv(v, seat, ctx, world) && v.store.Some?
    ensures StateInv(v.store.value.record, seat, ctx, world)
  {
  }

  lemma StoreExists(v: Voter, seat: Seat, ctx: Context, world: World, id: nat)
    requires VoterInv(v, seat, ctx, world) && (id in v.controllers || v.store.Some?)
    ensures v.store.Some?
  {
  }

  /** Every step keeps the invariant of the whole system. */
  lemma StepKeeps(sys: System, move: Move)
    requires SystemInv(sys) && OrderedSeats(sys.ctx.voters) && MoveOnce(sys, move).Some?
    ensures SystemInv(MoveOnce(sys, move).value)
  {
    hide Act, VoterInv, Widens, Grows;
    var t, next := Act(sys.voters[move.seat], sys.ctx, move.seat, move.action).value, MoveOnce(sys, move).value;
    ActKeeps(sys, move);
    WorldWidens(sys, move.seat, t);
    forall s | s in next.voters ensures VoterInv(next.voters[s], s, next.ctx, WorldOf(next)) {
      VoterWidens(next.voters[s], s, sys.ctx, WorldOf(sys), WorldOf(next));
    }
    assert next.voters.Keys == sys.voters.Keys;
  }

  lemma InitialHolds(sys: System)
    requires Initial(sys)
    ensures SystemInv(sys)
  {
  }

  /** Every run keeps the invariant, whatever is interleaved, lost, repeated or crashed. */
  lemma {:induction false} RunKeeps(sys: System, moves: seq<Move>)
    requires Initial(sys) && After(sys, moves).Some?
    ensures SystemInv(After(sys, moves).value)
    decreases |moves|
  {
    if moves == [] {
      InitialHolds(sys);
    } else {
      RunKeeps(sys, moves[..|moves| - 1]);
      StepKeeps(After(sys, moves[..|moves| - 1]).value, moves[|moves| - 1]);
    }
  }
}
