/**
 * What a drive leaves behind (drive, packages/protocol/src/consensus.ts): nothing that the record calls for is undone.
 * A recorded proposal has its prevote, a prevote quorum its lock and precommit, a quorum its timer, and a precommit
 * quorum its decision.
 */
module ConsensusProgress {
  import opened Results
  import opened Votes
  import opened Proposals
  import opened Consensus
  import opened ConsensusRestore
  import opened ConsensusRecord
  import opened LockRule
  import opened ConsensusSteps
  import opened ConsensusDecides

  // ---- what a voter should sign ----

  /** Without a lock, with a lock on this value, or with a quorum at least as recent as the lock. */
  predicate MayPrevote(s: State, p: Proposal) {
    s.locked.Some? ==>
      || s.locked.value.hash == p.entry.hash
      || (p.validRound.Some? && s.locked.value.round <= p.validRound.value)
  }

  /** What the local policy lets this voter sign for a value: the value, or nil. */
  function Admitted(s: State, hash: Hash, admit: Admission): Option<Hash> {
    if admit.Some? && !AdmitsRecorded(s, hash, admit.value) then None else Some(hash)
  }

  /** The prevote this voter owes a proposal of its round. */
  function OwedPrevote(s: State, p: Proposal, admit: Admission): Vote {
    Vote(s.seat, s.height, s.round, Prevote, if MayPrevote(s, p) then Admitted(s, p.entry.hash, admit) else None)
  }

  lemma PrevoteIsOwed(w: Work, ctx: Context, known: iset<Vote>, p: Proposal, admit: Admission)
    requires Good(w, ctx, known) && w.state.step == AtPropose && p.entry.term == w.state.round
    ensures var vote := OwedPrevote(w.state, p, admit);
      PrevoteProposal(w, p, admit)
        == Work(w.state.(votes := w.state.votes + [vote], step := AtPrevote), w.effects + [BroadcastVote(vote)])
  {
    hide RecordInv, AdmitsRecorded;
    RecordedVotes(w.state, ctx, known);
  }

  // ---- locks ----

  predicate Polka(s: State, ctx: Context, p: Proposal)
    requires OrderedSeats(ctx.voters)
  {
    QuorumOf(s, ctx, s.round, Prevote, Some(p.entry.hash))
  }

  lemma LockIdle(w: Work, ctx: Context, p: Proposal, admit: Admission)
    requires OrderedSeats(ctx.voters) && w.state.step != AtPrevote
    requires w.state.valid.Some? && w.state.valid.value.round >= w.state.round
    ensures LockValue(w, ctx, p, admit) == w
  {
    hide QuorumFor;
  }

  lemma {:induction false} LocksIdle(w: Work, ctx: Context, proposals: seq<Proposal>, admit: Admission)
    requires OrderedSeats(ctx.voters) && w.state.step != AtPrevote
    requires w.state.valid.Some? && w.state.valid.value.round >= w.state.round
    ensures LockValues(w, ctx, proposals, admit) == w
    decreases |proposals|
  {
    hide LockValue;
    if proposals != [] {
      LockIdle(w, ctx, proposals[0], admit);
      LocksIdle(w, ctx, proposals[1..], admit);
    }
  }

  /** What a prevote quorum for a proposal of this round makes of the record. */
  predicate Locked(w: Work, t: Work, ctx: Context, p: Proposal, admit: Admission)
    requires OrderedSeats(ctx.voters)
  {
    var s, hash := w.state, p.entry.hash;
    && QuorumFor(s, ctx, s.round, Prevote, Some(hash)).Some?
    && var record := QuorumValue(s.round, hash, p, QuorumFor(s, ctx, s.round, Prevote, Some(hash)).value);
       var valid := if s.valid.None? || s.valid.value.round < s.round then Some(record) else s.valid;
       var vote := Vote(s.seat, s.height, s.round, Precommit, Admitted(s, hash, admit));
       if s.step == AtPrevote then
         t == Work(s.(valid := valid, locked := Some(record), votes := s.votes + [vote], step := AtPrecommit),
                   w.effects + [BroadcastVote(vote)])
       else t == w.(state := s.(valid := valid))
  }

  lemma LockIs(w: Work, ctx: Context, known: iset<Vote>, p: Proposal, admit: Admission)
    requires Good(w, ctx, known)
    ensures if Polka(w.state, ctx, p) then Locked(w, LockValue(w, ctx, p, admit), ctx, p, admit)
      else LockValue(w, ctx, p, admit) == w
  {
    hide RecordInv, QuorumFor, QuorumOf;
    RecordedVotes(w.state, ctx, known);
    QuorumIsCounted(w.state, ctx, w.state.round, Prevote, Some(p.entry.hash));
  }

  /** Locking all proposals of the round is locking the first with a prevote quorum. */
  lemma {:induction false} LocksAre(w: Work, ctx: Context, known: iset<Vote>, proposals: seq<Proposal>,
                                    admit: Admission)
    returns (locked: Option<Proposal>)
    requires Good(w, ctx, known) && w.state.step != AtPropose
    ensures locked.None? ==>
      LockValues(w, ctx, proposals, admit) == w && forall p :: p in proposals ==> !Polka(w.state, ctx, p)
    ensures locked.Some? ==>
      && locked.value in proposals && Polka(w.state, ctx, locked.value)
      && Locked(w, LockValues(w, ctx, proposals, admit), ctx, locked.value, admit)
    decreases |proposals|
  {
    hide RecordInv, LockValue, Polka, QuorumFor;
    if proposals == [] {
      locked := None;
    } else {
      var first := proposals[0];
      assert forall p :: p in proposals <==> p == first || p in proposals[1..];
      LockIs(w, ctx, known, first, admit);
      if Polka(w.state, ctx, first) {
        locked := Some(first);
        LocksIdle(LockValue(w, ctx, first, admit), ctx, proposals[1..], admit);
      } else {
        locked := LocksAre(w, ctx, known, proposals[1..], admit);
      }
    }
  }

  lemma NoProposalNoLock(w: Work, ctx: Context, admit: Admission)
    requires OrderedSeats(ctx.voters)
    ensures LockValues(w, ctx, [], admit) == w
  {
  }

  // ---- nil and timers ----

  lemma NilIs(w: Work, ctx: Context, known: iset<Vote>)
    requires Good(w, ctx, known)
    ensures var s := w.state;
      var vote := Vote(s.seat, s.height, s.round, Precommit, None);
      PrecommitNil(w, ctx) ==
        if s.step == AtPrevote && QuorumOf(s, ctx, s.round, Prevote, None)
        then Work(s.(votes := s.votes + [vote], step := AtPrecommit), w.effects + [BroadcastVote(vote)])
        else w
  {
    hide RecordInv, QuorumFor, QuorumOf;
    RecordedVotes(w.state, ctx, known);
    QuorumIsCounted(w.state, ctx, w.state.round, Prevote, None);
  }

  predicate AnyOf(s: State, ctx: Context, round: nat, phase: Phase)
    requires OrderedSeats(ctx.voters)
  {
    |Voted(s.votes, round, phase)| >= ctx.Quorum()
  }

  /** A timer runs from the moment a quorum voted in its phase, and is scheduled once. */
  lemma TimersAre(w: Work, ctx: Context, known: iset<Vote>)
    requires Good(w, ctx, known)
    ensures var s, t := w.state, ArmTimers(w, ctx);
      && t.state == s.(timers := Timers(s.timers.propose, AnyOf(s, ctx, s.round, Prevote),
                                        AnyOf(s, ctx, s.round, Precommit)))
      && t.effects == w.effects
           + (if !s.timers.prevote && t.state.timers.prevote then [ScheduleTimeout(AtPrevote, s.round)] else [])
           + (if !s.timers.precommit && t.state.timers.precommit then [ScheduleTimeout(AtPrecommit, s.round)] else [])
  {
    hide RecordInv, VotesAt, Voted;
    RecordedVotes(w.state, ctx, known);
    RecordedTimers(w.state, ctx, known);
    VotedCount(w.state.votes, w.state.round, Prevote);
    VotedCount(w.state.votes, w.state.round, Precommit);
  }

  // ---- one drive ----

  /** The drive of an undecided record that backs nothing yet, up to the last commit scan. */
  function BeforeCommit(w: Work, ctx: Context, admit: Admission): Work
    requires OrderedSeats(ctx.voters)
  {
    var prevoted := PrevoteWaiting(MaybeCommit(w, ctx), admit);
    var locked := LockValues(prevoted, ctx, ProposalsAt(prevoted.state.proposals, prevoted.state.round), admit);
    ArmTimers(PrecommitNil(locked, ctx), ctx)
  }

  predicate Running(s: State) {
    s.decision.None? && s.halted.None?
  }

  lemma RunningLive(s: State, ctx: Context, known: iset<Vote>)
    requires RecordInv(s, ctx, known) && s.halted.None?
    ensures Live(s)
  {
    hide RecordInv;
    RecordedHalt(s, ctx, known);
  }

  /** A first commit scan of a record that backs nothing leaves it as it is. */
  lemma NothingBacked(w: Work, ctx: Context, known: iset<Vote>)
    requires Good(w, ctx, known) && Running(w.state) && forall p :: !Backed(w.state, ctx, p)
    ensures MaybeCommit(w, ctx).state == w.state
    ensures w.effects <= MaybeCommit(w, ctx).effects
    ensures forall c :: Commit(c) !in NewEffects(w, MaybeCommit(w, ctx))
    ensures Good(MaybeCommit(w, ctx), ctx, known)
  {
    hide RecordInv, MaybeCommit, Backed, EffectsRecorded, EntryControlFault;
    RunningLive(w.state, ctx, known);
    MaybeCommitKept(w, ctx, known);
    MaybeCommitDecides(w, ctx, known);
  }

  /** A proposal of the round has its prevote. */
  predicate PrevotePart(s: State, t: State, sent: seq<Effect>, admit: Admission) {
    && (s.step == AtPropose ==>
          (t.step == AtPropose <==> ProposalsAt(s.proposals, s.round) == [])
          && (t.step != AtPropose ==>
                exists p :: p in ProposalsAt(s.proposals, s.round) && OwedPrevote(s, p, admit) in t.votes
                  && BroadcastVote(OwedPrevote(s, p, admit)) in sent))
    && (s.step != AtPropose ==> t.step != AtPropose)
  }

  /** A prevote quorum, for a proposal of the round or for nil, has its precommit. */
  predicate PrecommitPart(s: State, t: State, sent: seq<Effect>, ctx: Context, admit: Admission)
    requires OrderedSeats(ctx.voters)
  {
    && (t.step == AtPrevote ==>
          && (forall p :: p in ProposalsAt(t.proposals, t.round) ==> !Polka(t, ctx, p))
          && !QuorumOf(t, ctx, t.round, Prevote, None))
    && (s.step != AtPrecommit && t.step == AtPrecommit ==>
          (exists p :: p in ProposalsAt(t.proposals, t.round) && PrecommittedTo(s, t, sent, ctx, p, admit))
          || PrecommittedNil(t, sent, ctx))
    && (forall p :: p in ProposalsAt(t.proposals, t.round) && t.step != AtPropose && Polka(t, ctx, p) ==>
          t.valid.Some? && t.valid.value.round >= t.round)
  }

  /** A quorum of votes of one phase has its timer. */
  predicate TimerPart(s: State, t: State, sent: seq<Effect>, ctx: Context)
    requires OrderedSeats(ctx.voters)
  {
    && t.timers == Timers(s.timers.propose, AnyOf(t, ctx, t.round, Prevote), AnyOf(t, ctx, t.round, Precommit))
    && (!s.timers.prevote && t.timers.prevote ==> ScheduleTimeout(AtPrevote, t.round) in sent)
    && (!s.timers.precommit && t.timers.precommit ==> ScheduleTimeout(AtPrecommit, t.round) in sent)
  }

  /** What a record owes in its present round, and how its drive pays it. */
  predicate Paid(s: State, t: State, sent: seq<Effect>, ctx: Context, admit: Admission)
    requires OrderedSeats(ctx.voters)
  {
    && t.round == s.round && t.proposals == s.proposals && t.seat == s.seat && t.height == s.height
    && s.votes <= t.votes
    && PrevotePart(s, t, sent, admit) && PrecommitPart(s, t, sent, ctx, admit) && TimerPart(s, t, sent, ctx)
  }

  predicate PrecommittedTo(s: State, t: State, sent: seq<Effect>, ctx: Context, p: Proposal, admit: Admission)
    requires OrderedSeats(ctx.voters)
  {
    && Polka(t, ctx, p) && t.locked.Some? && t.locked.value.round == t.round && t.locked.value.hash == p.entry.hash
    && t.locked.value.proposal == p
    && var vote := Vote(t.seat, t.height, t.round, Precommit, Admitted(s, p.entry.hash, admit));
       vote in t.votes && BroadcastVote(vote) in sent
  }

  predicate PrecommittedNil(t: State, sent: seq<Effect>, ctx: Context)
    requires OrderedSeats(ctx.voters)
  {
    && QuorumOf(t, ctx, t.round, Prevote, None)
    && var vote := Vote(t.seat, t.height, t.round, Precommit, None);
       vote in t.votes && BroadcastVote(vote) in sent
  }

  lemma SameAdmitted(s: State, t: State, hash: Hash, admit: Admission)
    requires t.proposals == s.proposals && t.round == s.round
    ensures Admitted(t, hash, admit) == Admitted(s, hash, admit)
  {
  }

  lemma PushedBackers(votes: seq<Vote>, vote: Vote, round: nat, value: Option<Hash>)
    requires vote.phase == Precommit
    ensures Backers(votes + [vote], round, Prevote, value) == Backers(votes, round, Prevote, value)
  {
    assert forall v :: v in votes + [vote] <==> v in votes || v == vote;
  }

  lemma PushedPolka(s: State, t: State, ctx: Context, value: Option<Hash>)
    requires OrderedSeats(ctx.voters) && t.round == s.round
    requires t.votes == s.votes || exists v: Vote :: v.phase == Precommit && t.votes == s.votes + [v]
    ensures QuorumOf(t, ctx, t.round, Prevote, value) <==> QuorumOf(s, ctx, s.round, Prevote, value)
  {
    if t.votes != s.votes {
      var v: Vote :| v.phase == Precommit && t.votes == s.votes + [v];
      PushedBackers(s.votes, v, s.round, value);
    }
  }

  lemma FirstIsMember(proposals: seq<Proposal>)
    requires proposals != []
    ensures proposals[0] in proposals
  {
  }

  lemma NoneWaiting(s: State)
    ensures WaitingProposal(s).None? <==> ProposalsAt(s.proposals, s.round) == []
    ensures WaitingProposal(s).Some? ==> WaitingProposal(s).value in ProposalsAt(s.proposals, s.round)
  {
    if ProposalsAt(s.proposals, s.round) != [] {
      FirstIsMember(ProposalsAt(s.proposals, s.round));
    }
  }

  /** The prevote stage. */
  lemma PrevotePaid(w: Work, ctx: Context, known: iset<Vote>, admit: Admission) returns (more: seq<Effect>)
    requires Good(w, ctx, known)
    ensures var s, t := w.state, PrevoteWaiting(w, admit);
      && t.state == s.(votes := t.state.votes, step := t.state.step) && t.effects == w.effects + more
      && s.votes <= t.state.votes && Good(t, ctx, known) && (forall c :: Commit(c) !in more)
      && (s.step != AtPropose ==> t.state == s)
      && (s.step == AtPropose ==>
            && (t.state.step == AtPropose <==> ProposalsAt(s.proposals, s.round) == [])
            && (t.state.step != AtPropose ==>
                  t.state.step == AtPrevote
                  && exists p :: p in ProposalsAt(s.proposals, s.round) && OwedPrevote(s, p, admit) in t.state.votes
                       && BroadcastVote(OwedPrevote(s, p, admit)) in more))
  {
    hide RecordInv, OwedPrevote, EffectsRecorded, PrevoteProposal;
    PrevoteWaitingKept(w, ctx, known, admit);
    var s := w.state;
    NoneWaiting(s);
    if s.step == AtPropose && WaitingProposal(s).Some? {
      var p := WaitingProposal(s).value;
      PrevoteIsOwed(w, ctx, known, p, admit);
      more := [BroadcastVote(OwedPrevote(s, p, admit))];
      assert OwedPrevote(s, p, admit) in PrevoteWaiting(w, admit).state.votes;
    } else {
      more := [];
    }
  }

  /** The stage of locks and of the nil precommit. */
  ghost predicate Precommitted(s: State, t: State, more: seq<Effect>, ctx: Context, admit: Admission)
    requires OrderedSeats(ctx.voters)
  {
    && t == s.(valid := t.valid, locked := t.locked, votes := t.votes, step := t.step)
    && (t.votes == s.votes || exists v: Vote :: v.phase == Precommit && t.votes == s.votes + [v])
    && (t.step == AtPropose <==> s.step == AtPropose)
    && (t.step == AtPrevote ==>
          && (forall p :: p in ProposalsAt(s.proposals, s.round) ==> !Polka(s, ctx, p))
          && !QuorumOf(s, ctx, s.round, Prevote, None))
    && (s.step != AtPrecommit && t.step == AtPrecommit ==>
          (exists p :: p in ProposalsAt(s.proposals, s.round) && Polka(s, ctx, p) && LockedTo(s, t, more, p, admit))
          || (QuorumOf(s, ctx, s.round, Prevote, None) && SignedNil(s, t, more)))
    && (forall p :: p in ProposalsAt(s.proposals, s.round) && s.step != AtPropose && Polka(s, ctx, p) ==>
          t.valid.Some? && t.valid.value.round >= t.round)
    && (forall e :: e in more ==> e.BroadcastVote?)
  }

  predicate LockedTo(s: State, t: State, more: seq<Effect>, p: Proposal, admit: Admission) {
    && t.locked.Some? && t.locked.value.round == s.round && t.locked.value.hash == p.entry.hash
    && t.locked.value.proposal == p
    && var vote := Vote(s.seat, s.height, s.round, Precommit, Admitted(s, p.entry.hash, admit));
       vote in t.votes && BroadcastVote(vote) in more
  }

  predicate SignedNil(s: State, t: State, more: seq<Effect>) {
    var vote := Vote(s.seat, s.height, s.round, Precommit, None);
    vote in t.votes && BroadcastVote(vote) in more
  }

  lemma PrecommitPaid(w: Work, ctx: Context, known: iset<Vote>, admit: Admission) returns (more: seq<Effect>)
    requires Good(w, ctx, known) && (w.state.step == AtPropose ==> ProposalsAt(w.state.proposals, w.state.round) == [])
    ensures var t := PrecommitNil(LockValues(w, ctx, ProposalsAt(w.state.proposals, w.state.round), admit), ctx);
      t.effects == w.effects + more && Good(t, ctx, known) && Precommitted(w.state, t.state, more, ctx, admit)
  {
    hide RecordInv, EffectsRecorded, QuorumOf, QuorumFor, LockValues, PrecommitNil, Admitted, Permitted;
    var s := w.state;
    var proposals := ProposalsAt(s.proposals, s.round);
    LockValuesKept(w, ctx, known, proposals, admit);
    var u := LockValues(w, ctx, proposals, admit);
    PrecommitNilKept(u, ctx, known);
    NilIs(u, ctx, known);
    if s.step == AtPropose {
      NoProposalNoLock(w, ctx, admit);
      more := [];
    } else {
      var locked := LocksAre(w, ctx, known, proposals, admit);
      if locked.None? {
        if s.step == AtPrevote && QuorumOf(s, ctx, s.round, Prevote, None) {
          var vote := Vote(s.seat, s.height, s.round, Precommit, None);
          more := [BroadcastVote(vote)];
          assert vote in PrecommitNil(u, ctx).state.votes;
        } else {
          more := [];
        }
      } else {
        var p := locked.value;
        if s.step == AtPrevote {
          var vote := Vote(s.seat, s.height, s.round, Precommit, Admitted(s, p.entry.hash, admit));
          more := [BroadcastVote(vote)];
          assert vote in u.state.votes;
        } else {
          more := [];
        }
      }
    }
  }

  /** A drive of a running record that backs nothing pays every own vote that is owed and arms every timer. */
  lemma DrivePays(w: Work, ctx: Context, known: iset<Vote>, admit: Admission)
    requires Good(w, ctx, known) && Running(w.state) && forall p :: !Backed(w.state, ctx, p)
    ensures var t := BeforeCommit(w, ctx, admit);
      && Drive(w, ctx, admit) == MaybeCommit(t, ctx) && Good(t, ctx, known) && Running(t.state)
      && w.effects <= t.effects && (forall c :: Commit(c) !in NewEffects(w, t))
      && Paid(w.state, t.state, NewEffects(w, t), ctx, admit)
  {
    hide RecordInv, EffectsRecorded, MaybeCommit, PrevoteWaiting, LockValues, PrecommitNil, ArmTimers, Backed, QuorumOf,
      Extends, OwedPrevote, Voted, Admitted;
    var s := w.state;
    NothingBacked(w, ctx, known);
    var first := MaybeCommit(w, ctx);
    var more := PrevotePaid(first, ctx, known, admit);
    var prevoted := PrevoteWaiting(first, admit);
    var late := PrecommitPaid(prevoted, ctx, known, admit);
    var precommitted := PrecommitNil(LockValues(prevoted, ctx, ProposalsAt(s.proposals, s.round), admit), ctx);
    ArmTimersKept(precommitted, ctx, known);
    var last := TimersSchedule(precommitted, ctx, known);
    var t := ArmTimers(precommitted, ctx);
    var early := NewEffects(w, first);
    Appended(w, first, prevoted, precommitted, t, early, more, late, last);
    StagesPay(s, prevoted.state, precommitted.state, t.state, more, late, NewEffects(w, t), ctx, admit);
  }

  lemma Appended(w: Work, a: Work, b: Work, c: Work, t: Work, early: seq<Effect>, more: seq<Effect>,
                 late: seq<Effect>, last: seq<Effect>)
    requires w.effects <= a.effects && early == NewEffects(w, a) && b.effects == a.effects + more
    requires c.effects == b.effects + late && t.effects == c.effects + last
    ensures w.effects <= t.effects && NewEffects(w, t) == early + more + late + last
  {
    assert a.effects == w.effects + early;
    assert t.effects == w.effects + (early + more + late + last);
  }

  lemma TimersSchedule(w: Work, ctx: Context, known: iset<Vote>) returns (more: seq<Effect>)
    requires Good(w, ctx, known)
    ensures var s, t := w.state, ArmTimers(w, ctx);
      && t.effects == w.effects + more && (forall c :: Commit(c) !in more)
      && t.state == s.(timers := Timers(s.timers.propose, AnyOf(s, ctx, s.round, Prevote),
                                        AnyOf(s, ctx, s.round, Precommit)))
      && (!s.timers.prevote && t.state.timers.prevote ==> ScheduleTimeout(AtPrevote, s.round) in more)
      && (!s.timers.precommit && t.state.timers.precommit ==> ScheduleTimeout(AtPrecommit, s.round) in more)
  {
    hide RecordInv, EffectsRecorded, AnyOf, ArmTimers;
    TimersAre(w, ctx, known);
    var s, t := w.state, ArmTimers(w, ctx);
    var a := if !s.timers.prevote && t.state.timers.prevote then [ScheduleTimeout(AtPrevote, s.round)] else [];
    var b := if !s.timers.precommit && t.state.timers.precommit then [ScheduleTimeout(AtPrecommit, s.round)] else [];
    more := a + b;
    assert w.effects + a + b == w.effects + more;
  }

  lemma StagesPay(s: State, u: State, x: State, t: State, more: seq<Effect>, late: seq<Effect>, sent: seq<Effect>,
                  ctx: Context, admit: Admission)
    requires OrderedSeats(ctx.voters)
    requires u == s.(votes := u.votes, step := u.step) && s.votes <= u.votes
    requires s.step != AtPropose ==> u == s
    requires s.step == AtPropose ==>
      && (u.step == AtPropose <==> ProposalsAt(s.proposals, s.round) == [])
      && (u.step != AtPropose ==>
            u.step == AtPrevote
            && exists p :: p in ProposalsAt(s.proposals, s.round) && OwedPrevote(s, p, admit) in u.votes
                 && BroadcastVote(OwedPrevote(s, p, admit)) in more)
    requires Precommitted(u, x, late, ctx, admit)
    requires t == x.(timers := Timers(x.timers.propose, AnyOf(x, ctx, x.round, Prevote),
                                      AnyOf(x, ctx, x.round, Precommit)))
    requires (forall e :: e in more + late ==> e in sent)
    requires !x.timers.prevote && t.timers.prevote ==> ScheduleTimeout(AtPrevote, x.round) in sent
    requires !x.timers.precommit && t.timers.precommit ==> ScheduleTimeout(AtPrecommit, x.round) in sent
    ensures Paid(s, t, sent, ctx, admit)
  {
    hide QuorumOf, OwedPrevote, AnyOf, Admitted, Precommitted, PrecommitPart;
    PrecommitShape(u, x, late, ctx, admit);
    if s.step == AtPropose && t.step != AtPropose {
      var p :| p in ProposalsAt(s.proposals, s.round) && OwedPrevote(s, p, admit) in u.votes
        && BroadcastVote(OwedPrevote(s, p, admit)) in more;
      assert u.votes <= t.votes;
      assert OwedPrevote(s, p, admit) in t.votes;
    }
    PrecommitPays(s, u, x, t, late, sent, ctx, admit);
    SameCounts(x, t, ctx);
  }

  lemma PrecommitShape(u: State, x: State, late: seq<Effect>, ctx: Context, admit: Admission)
    requires OrderedSeats(ctx.voters) && Precommitted(u, x, late, ctx, admit)
    ensures x == u.(valid := x.valid, locked := x.locked, votes := x.votes, step := x.step) && u.votes <= x.votes
    ensures x.step == AtPropose <==> u.step == AtPropose
  {
    hide QuorumOf, Polka, LockedTo, SignedNil;
  }

  lemma PrecommitPays(s: State, u: State, x: State, t: State, late: seq<Effect>, sent: seq<Effect>, ctx: Context,
                      admit: Admission)
    requires OrderedSeats(ctx.voters)
    requires u == s.(votes := u.votes, step := u.step) && (s.step == AtPrecommit ==> u.step == AtPrecommit)
    requires s.step == AtPropose ==> u.step != AtPrecommit
    requires s.step != AtPropose ==> u == s
    requires Precommitted(u, x, late, ctx, admit) && t == x.(timers := t.timers) && forall e :: e in late ==> e in sent
    ensures PrecommitPart(s, t, sent, ctx, admit)
  {
    hide QuorumOf, OwedPrevote, AnyOf, Admitted;
    PushedAll(u, t, ctx);
    if s.step != AtPrecommit && t.step == AtPrecommit {
      forall hash ensures Admitted(u, hash, admit) == Admitted(s, hash, admit) {
        SameAdmitted(s, u, hash, admit);
      }
      if p :| p in ProposalsAt(u.proposals, u.round) && Polka(u, ctx, p) && LockedTo(u, x, late, p, admit) {
        assert PrecommittedTo(s, t, sent, ctx, p, admit);
      } else {
        assert PrecommittedNil(t, sent, ctx);
      }
    }
  }

  lemma SameCounts(x: State, t: State, ctx: Context)
    requires OrderedSeats(ctx.voters) && x.votes == t.votes && x.round == t.round
    ensures AnyOf(t, ctx, t.round, Prevote) == AnyOf(x, ctx, x.round, Prevote)
    ensures AnyOf(t, ctx, t.round, Precommit) == AnyOf(x, ctx, x.round, Precommit)
  {
  }

  lemma PushedAll(s: State, t: State, ctx: Context)
    requires OrderedSeats(ctx.voters) && t.round == s.round
    requires t.votes == s.votes || exists v: Vote :: v.phase == Precommit && t.votes == s.votes + [v]
    ensures forall p :: Polka(t, ctx, p) <==> Polka(s, ctx, p)
    ensures QuorumOf(t, ctx, t.round, Prevote, None) <==> QuorumOf(s, ctx, s.round, Prevote, None)
  {
    hide QuorumOf;
    PushedPolka(s, t, ctx, None);
    forall p ensures Polka(t, ctx, p) <==> Polka(s, ctx, p) {
      PushedPolka(s, t, ctx, Some(p.entry.hash));
    }
  }

  /**
   * A driven record is settled. If it is still running afterwards, no backed proposal is left undecided. Where all
   * backed proposals agree and none is at fault, it keeps running, decides exactly when it holds a recorded proposal
   * with a quorum of recorded precommits, and hands out the commit of that entry and of no other.
   */
  lemma DriveSettles(w: Work, ctx: Context, known: iset<Vote>, admit: Admission)
    requires Good(w, ctx, known) && Running(w.state)
    ensures var t := Drive(w, ctx, admit);
      && w.effects <= t.effects
      && (Running(t.state) ==> forall p :: !Backed(t.state, ctx, p))
      && (Calm(t.state, ctx) ==>
            && t.state.halted.None?
            && (t.state.decision.Some? <==> exists p :: Backed(t.state, ctx, p))
            && (t.state.decision.Some? ==>
                  exists p :: Backed(t.state, ctx, p) && t.state.decision.value.entry == p.entry)
            && forall c :: Commit(c) in NewEffects(w, t) <==> t.state.decision == Some(c))
  {
    hide RecordInv, EffectsRecorded, MaybeCommit, BeforeCommit, Backed, Paid, EntryControlFault, Extends;
    RunningLive(w.state, ctx, known);
    if p :| Backed(w.state, ctx, p) {
      CommitSettles(w, ctx, known);
      var first := MaybeCommit(w, ctx);
      StopsOrDecides(w, ctx, known, p);
      assert Drive(w, ctx, admit) == first;
    } else {
      DrivePays(w, ctx, known, admit);
      var t := BeforeCommit(w, ctx, admit);
      RunningLive(t.state, ctx, known);
      CommitSettles(t, ctx, known);
      EffectsCompose(w, t, MaybeCommit(t, ctx));
    }
  }

  lemma SameCalm(s: State, t: State, ctx: Context)
    requires OrderedSeats(ctx.voters) && CommitOnly(s, t)
    ensures Calm(s, ctx) <==> Calm(t, ctx)
    ensures forall p :: Backed(s, ctx, p) <==> Backed(t, ctx, p)
  {
    hide QuorumOf;
    forall p ensures Backed(s, ctx, p) <==> Backed(t, ctx, p) {
      SameQuorum(s, t, ctx, p);
    }
    forall p: Proposal ensures EntryControlFault(s, ctx, p.entry) <==> EntryControlFault(t, ctx, p.entry) {
    }
  }

  lemma SameQuorum(s: State, t: State, ctx: Context, p: Proposal)
    requires OrderedSeats(ctx.voters) && CommitOnly(s, t)
    ensures QuorumOf(s, ctx, p.entry.term, Precommit, Some(p.entry.hash))
      <==> QuorumOf(t, ctx, p.entry.term, Precommit, Some(p.entry.hash))
  {
  }

  /** The last commit scan settles what is backed. */
  lemma CommitSettles(w: Work, ctx: Context, known: iset<Vote>)
    requires Good(w, ctx, known) && Live(w.state) && Running(w.state)
    ensures var t := MaybeCommit(w, ctx);
      && w.effects <= t.effects && CommitOnly(w.state, t.state)
      && (Running(t.state) ==> forall p :: !Backed(t.state, ctx, p))
      && (Calm(t.state, ctx) ==>
            && t.state.halted.None?
            && (t.state.decision.Some? <==> exists p :: Backed(t.state, ctx, p))
            && (t.state.decision.Some? ==>
                  exists p :: Backed(t.state, ctx, p) && t.state.decision.value.entry == p.entry)
            && forall c :: Commit(c) in NewEffects(w, t) <==> t.state.decision == Some(c))
  {
    hide RecordInv, EffectsRecorded, MaybeCommit, Backed, EntryControlFault, Calm;
    MaybeCommitDecides(w, ctx, known);
    var t := MaybeCommit(w, ctx);
    SameCalm(w.state, t.state, ctx);
    if Calm(w.state, ctx) {
      CalmDecides(w, ctx, known);
    }
    forall p ensures Running(t.state) ==> !Backed(t.state, ctx, p) {
      if Backed(w.state, ctx, p) {
        StopsOrDecides(w, ctx, known, p);
      }
    }
  }

  lemma StopsOrDecides(w: Work, ctx: Context, known: iset<Vote>, p: Proposal)
    requires Good(w, ctx, known) && Live(w.state) && Running(w.state) && Backed(w.state, ctx, p)
    ensures !Running(MaybeCommit(w, ctx).state)
  {
    hide RecordInv, EffectsRecorded, MaybeCommit, Backed, EntryControlFault;
    MaybeCommitDecides(w, ctx, known);
    MaybeCommitKept(w, ctx, known);
    RecordedHalt(MaybeCommit(w, ctx).state, ctx, known);
  }
}
