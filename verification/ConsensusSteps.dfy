/** Every reducer keeps the record invariant and only ever adds to the record. */
module ConsensusSteps {
  import opened Results
  import opened Votes
  import opened Proposals
  import opened Consensus
  import opened ConsensusRestore
  import opened ConsensusRecord
  import opened LockRule

  /** The outcome every reducer lemma states. */
  ghost predicate Kept(w: Work, t: Work, ctx: Context, known: iset<Vote>) {
    Good(t, ctx, known) && Extends(w.state, t.state)
  }

  lemma KeptTwice(w: Work, t: Work, u: Work, ctx: Context, known: iset<Vote>)
    requires Kept(w, t, ctx, known) && Kept(t, u, ctx, known)
    ensures Kept(w, u, ctx, known)
  {
    hide RecordInv, EffectsRecorded;
    ExtendsTransitive(w.state, t.state, u.state);
  }

  lemma KeptSame(w: Work, ctx: Context, known: iset<Vote>)
    requires Good(w, ctx, known)
    ensures Kept(w, w, ctx, known)
  {
    hide RecordInv, EffectsRecorded;
  }

  /** A new state with at most some notices beside the effects so far. */
  lemma Advance(w: Work, ctx: Context, known: iset<Vote>, t: State, more: seq<Effect>)
    requires Good(w, ctx, known) && RecordInv(t, ctx, known) && Extends(w.state, t)
    requires EffectsRecorded(more, t)
    ensures Kept(w, Work(t, w.effects + more), ctx, known)
  {
    hide RecordInv;
  }

  predicate Live(s: State) {
    s.haltKind != Some(CertifiedValidation)
  }

  // ---- halting ----

  lemma HaltKept(w: Work, ctx: Context, known: iset<Vote>, reason: HaltReason)
    requires Good(w, ctx, known)
    ensures Kept(w, Halt(w, reason), ctx, known) && SameOrStopped(w.state, Halt(w, reason).state)
  {
    hide RecordInv;
    StopsForGood(w.state, Halt(w, reason).state, ctx, known);
  }

  lemma TerminalFaultKept(w: Work, ctx: Context, known: iset<Vote>, reason: HaltReason)
    requires Good(w, ctx, known)
    ensures Kept(w, TerminalFault(w, reason), ctx, known) && SameOrStopped(w.state, TerminalFault(w, reason).state)
  {
    hide RecordInv;
    StopsForGood(w.state, TerminalFault(w, reason).state, ctx, known);
  }

  lemma HaltForControlKept(w: Work, ctx: Context, known: iset<Vote>, control: Control)
    requires Good(w, ctx, known)
    ensures Kept(w, HaltForControl(w, ctx, control), ctx, known)
    ensures SameOrStopped(w.state, HaltForControl(w, ctx, control).state)
    ensures var t := HaltForControl(w, ctx, control);
      if ControlFault(w.state, ctx, control) then t.state.haltKind == Some(Terminal) else t == w
  {
    hide RecordInv;
    TerminalFaultKept(w, ctx, known, LocalKeyImplicated);
    TerminalFaultKept(w, ctx, known, SecondByzantineVoter);
  }

  lemma ThresholdKept(w: Work, ctx: Context, known: iset<Vote>)
    requires Good(w, ctx, known)
    ensures Kept(w, HaltIfFaultThresholdExceeded(w, ctx), ctx, known)
    ensures SameOrStopped(w.state, HaltIfFaultThresholdExceeded(w, ctx).state)
    ensures var t, guilty := HaltIfFaultThresholdExceeded(w, ctx), Equivocators(w.state, ctx);
      if w.state.seat in guilty || |guilty| > Tolerated(|ctx.voters|) then t.state.haltKind == Some(Terminal)
      else t == w
  {
    hide RecordInv;
    TerminalFaultKept(w, ctx, known, LocalKeyImplicated);
    TerminalFaultKept(w, ctx, known, SecondByzantineVoter);
  }

  // ---- records ----

  predicate VotesNoted(s: State, seat: Seat, round: nat, phase: Phase) {
    exists e :: e in s.equivocations && e.TwoVotes? && e.seat == seat && e.round == round && e.phase == phase
  }

  predicate ProposalsNoted(s: State, seat: Seat, round: nat) {
    exists e :: e in s.equivocations && e.TwoProposals? && e.seat == seat && e.round == round
  }

  /** A received vote is recorded, or its place holds another value, and then the two are kept as evidence. */
  lemma RecordVoteNotes(w: Work, vote: Vote)
    ensures var t := RecordVote(w, vote).state;
      var held := VoteOf(t.votes, vote.seat, vote.term, vote.phase);
      held.Some? && (held.value.value == vote.value || VotesNoted(t, vote.seat, vote.term, vote.phase))
  {
    var s, t := w.state, RecordVote(w, vote).state;
    if VoteOf(s.votes, vote.seat, vote.term, vote.phase).None? {
      assert t.votes[|s.votes|] == vote;
    } else if t != s {
      assert t.equivocations[|s.equivocations|] in t.equivocations;
    }
  }

  /** A recorded vote and a valid vote for another value at its place are evidence. */
  lemma TwoVotesInv(s: State, ctx: Context, known: iset<Vote>, first: Vote, vote: Vote)
    requires RecordInv(s, ctx, known) && OrderedSeats(ctx.voters)
    requires ValidVote(vote, ctx.voters) && vote.height == s.height && vote.seat != s.seat && vote in known
    requires first in s.votes && SameBallotPlace(first, vote) && first.value != vote.value
    ensures EvidenceInv(TwoVotes(vote.seat, vote.term, vote.phase, first, vote), s.votes, s.seat, s.height, ctx, known)
  {
    hide RecordInv;
    RecordedVotes(s, ctx, known);
    RecordedLocks(s, ctx, known);
  }

  lemma RecordVoteKept(w: Work, ctx: Context, known: iset<Vote>, vote: Vote)
    requires Good(w, ctx, known)
    requires ValidVote(vote, ctx.voters) && vote.height == w.state.height && vote.term <= w.state.round
    requires if vote.seat == w.state.seat then vote in w.state.votes else vote in known
    ensures Kept(w, RecordVote(w, vote), ctx, known)
    ensures var t := RecordVote(w, vote).state; t == w.state.(votes := t.votes, equivocations := t.equivocations)
  {
    hide RecordInv, EvidenceInv, VotesInv, StepInv, ValidVote;
    var s, t := w.state, RecordVote(w, vote);
    var first := VoteOf(s.votes, vote.seat, vote.term, vote.phase);
    if vote.seat == s.seat {
      OwnVotePlaced(s, ctx, known, vote);
    } else if first.None? {
      PushForeignVote(s, ctx, known, vote);
      Advance(w, ctx, known, t.state, []);
      assert w.effects + [] == w.effects;
    } else if t.state.equivocations != s.equivocations {
      var e := TwoVotes(vote.seat, vote.term, vote.phase, first.value, vote);
      TwoVotesInv(s, ctx, known, first.value, vote);
      PushEvidence(s, ctx, known, e);
      Advance(w, ctx, known, t.state, [Equivocate(e)]);
    }
  }

  lemma OwnVotePlaced(s: State, ctx: Context, known: iset<Vote>, vote: Vote)
    requires RecordInv(s, ctx, known) && vote in s.votes
    ensures VoteOf(s.votes, vote.seat, vote.term, vote.phase) == Some(vote)
  {
    hide RecordInv;
    RecordedVotes(s, ctx, known);
    OnlyVote(s.votes, vote, VoteOf(s.votes, vote.seat, vote.term, vote.phase).value);
  }

  lemma OnlyVote(votes: seq<Vote>, a: Vote, b: Vote)
    requires UniqueVotes(votes) && a in votes && b in votes && SameBallotPlace(a, b)
    ensures a == b
  {
    var i :| 0 <= i < |votes| && votes[i] == a;
    var j :| 0 <= j < |votes| && votes[j] == b;
    assert i == j;
  }

  lemma {:induction false} RecordConflictsKept(w: Work, ctx: Context, known: iset<Vote>, seat: Seat, p: Proposal,
                                               sameRound: seq<Proposal>)
    requires Good(w, ctx, known) && p.entry.sequencer == seat
    requires ProposalInv(p, w.state.votes, w.state.round, w.state.seat, w.state.height, ctx, known)
    requires forall q :: q in sameRound ==>
      q in w.state.proposals && q.entry.term == p.entry.term && q.entry.hash != p.entry.hash
    ensures Kept(w, RecordConflicts(w, seat, p, sameRound), ctx, known)
    ensures var t := RecordConflicts(w, seat, p, sameRound).state; t == w.state.(equivocations := t.equivocations)
    decreases |sameRound|
  {
    hide RecordInv;
    if sameRound != [] {
      var s, first := w.state, sameRound[0];
      var evidence := TwoProposals(seat, p.entry.term, first, p);
      assert first in sameRound;
      RecordedProposal(s, ctx, known, first);
      var unseen := !(exists e :: e in s.equivocations && e.TwoProposals? && e.seat == seat && e.round == p.entry.term);
      var next := if unseen then Work(s.(equivocations := s.equivocations + [evidence]),
                                      w.effects + [Equivocate(evidence)]) else w;
      if unseen {
        PushEvidence(s, ctx, known, evidence);
        Advance(w, ctx, known, next.state, [Equivocate(evidence)]);
      }
      RecordConflictsKept(next, ctx, known, seat, p, sameRound[1..]);
      KeptTwice(w, next, RecordConflicts(w, seat, p, sameRound), ctx, known);
    }
  }

  lemma {:induction false} ConflictsNote(w: Work, seat: Seat, p: Proposal, sameRound: seq<Proposal>)
    requires forall q :: q in sameRound ==> q.entry.hash != p.entry.hash
    requires sameRound != [] || ProposalsNoted(w.state, seat, p.entry.term)
    ensures ProposalsNoted(RecordConflicts(w, seat, p, sameRound).state, seat, p.entry.term)
    decreases |sameRound|
  {
    if sameRound != [] {
      var s, first := w.state, sameRound[0];
      assert first in sameRound;
      var evidence := TwoProposals(seat, p.entry.term, first, p);
      var next := if ProposalsNoted(s, seat, p.entry.term) then w
                  else Work(s.(equivocations := s.equivocations + [evidence]), w.effects + [Equivocate(evidence)]);
      assert ProposalsNoted(s, seat, p.entry.term) || next.state.equivocations[|s.equivocations|] == evidence;
      ConflictsNote(next, seat, p, sameRound[1..]);
    }
  }

  /** A voter's proposal is dropped only when its round holds two; the second one recorded is evidence. */
  lemma RecordProposalNotes(w: Work, ctx: Context, p: Proposal)
    requires p.entry.sequencer in ctx.voters
    ensures var t, round := RecordProposal(w, ctx, p).state, p.entry.term;
      && (ProposalAt(t.proposals, round, p.entry.hash).Some? || |ProposalsAt(t.proposals, round)| >= 2)
      && (t.proposals != w.state.proposals && ProposalsAt(w.state.proposals, round) != [] ==>
            ProposalsNoted(t, p.entry.sequencer, round))
  {
    hide RecordConflicts;
    var s, t := w.state, RecordProposal(w, ctx, p).state;
    var sameRound := ProposalsAt(s.proposals, p.entry.term);
    if (forall q :: q in sameRound ==> q.entry.hash != p.entry.hash) && |sameRound| < 2 {
      assert p in t.proposals;
      if sameRound != [] {
        ConflictsNote(w, p.entry.sequencer, p, sameRound);
      }
    }
  }

  lemma RecordProposalKept(w: Work, ctx: Context, known: iset<Vote>, p: Proposal)
    requires Good(w, ctx, known) && w.state.inputKnown
    requires ProposalInv(p, w.state.votes, w.state.round, w.state.seat, w.state.height, ctx, known)
    requires p.entry.sequencer == w.state.seat ==>
      ProposalAt(w.state.proposals, p.entry.term, p.entry.hash).Some?
      || forall q :: q in w.state.proposals && q.entry.term == p.entry.term ==> q.entry.sequencer != w.state.seat
    ensures Kept(w, RecordProposal(w, ctx, p), ctx, known)
    ensures var t := RecordProposal(w, ctx, p).state;
      t == w.state.(proposals := t.proposals, equivocations := t.equivocations)
  {
    hide RecordInv;
    var s := w.state;
    var sameRound := ProposalsAt(s.proposals, p.entry.term);
    if (forall q :: q in sameRound ==> q.entry.hash != p.entry.hash) && |sameRound| < 2
       && p.entry.sequencer in ctx.voters {
      RecordConflictsKept(w, ctx, known, p.entry.sequencer, p, sameRound);
      var noted := RecordConflicts(w, p.entry.sequencer, p, sameRound);
      RecordedProposals(s, ctx, known);
      PushProposalList(noted.state, ctx, known, p);
      PushProposal(noted.state, ctx, known, p);
      var t := noted.state.(proposals := s.proposals + [p]);
      Advance(noted, ctx, known, t, []);
      assert noted.effects + [] == noted.effects;
      KeptTwice(w, noted, RecordProposal(w, ctx, p), ctx, known);
    }
  }

  // ---- hints and rounds ----

  lemma {:induction false} AddHintMembers(hints: seq<Hint>, hint: Hint)
    requires OneHintPerSeat(hints)
    ensures OneHintPerSeat(AddHint(hints, hint))
    ensures forall h :: h in AddHint(hints, hint) ==> h == hint || h in hints
    ensures forall h :: h in AddHint(hints, hint) ==> h.seat == hint.seat || exists k :: k in hints && k.seat == h.seat
  {
    if hints == [] {
    } else if hints[0].seat == hint.seat {
      var r := AddHint(hints, hint);
      assert r[1..] == hints[1..] && r[0].seat == hints[0].seat;
      forall i, j | 0 <= i < j < |r| ensures r[i].seat != r[j].seat {
        assert r[j] == hints[j] && (i > 0 ==> r[i] == hints[i]);
        assert hints[i].seat != hints[j].seat;
      }
      forall h | h in r ensures h == hint || h in hints {
        assert h == r[0] || h in r[1..];
      }
      forall h | h in r ensures h.seat == hint.seat || exists k :: k in hints && k.seat == h.seat {
        assert h == r[0] || h in r[1..];
      }
    } else {
      AddHintMembers(hints[1..], hint);
      var tail := AddHint(hints[1..], hint);
      forall h | h in tail ensures h.seat != hints[0].seat {
        if h.seat != hint.seat {
          var k :| k in hints[1..] && k.seat == h.seat;
          var i :| 0 <= i < |hints[1..]| && hints[1..][i] == k;
          assert hints[0].seat != hints[i + 1].seat;
        }
      }
      assert AddHint(hints, hint) == [hints[0]] + tail;
      assert hints[0] in hints;
    }
  }

  lemma AddHintKept(w: Work, ctx: Context, known: iset<Vote>, hint: Hint)
    requires Good(w, ctx, known) && HintInv(hint, w.state.votes, w.state.round, w.state.seat, w.state.height, ctx,
                                            known)
    requires hint.ProposalHint? ==> w.state.inputKnown
    ensures Kept(w, w.(state := w.state.(hints := AddHint(w.state.hints, hint))), ctx, known)
  {
    hide RecordInv, HintInv;
    var s := w.state;
    RecordedHints(s, ctx, known);
    RecordedProposals(s, ctx, known);
    AddHintMembers(s.hints, hint);
    SetHints(s, ctx, known, AddHint(s.hints, hint));
  }

  lemma {:induction false} ReplayHintsKept(w: Work, ctx: Context, known: iset<Vote>, ready: seq<Hint>)
    requires Good(w, ctx, known) && w.state.round >= 1
    requires forall h :: h in ready ==>
      HintInv(h, w.state.votes, w.state.round - 1, w.state.seat, w.state.height, ctx, known) && h.round == w.state.round
    requires forall h :: h in ready && h.ProposalHint? ==> w.state.inputKnown
    ensures Kept(w, ReplayHints(w, ctx, ready), ctx, known)
    ensures var t := ReplayHints(w, ctx, ready).state;
            t == w.state.(votes := t.votes, proposals := t.proposals, equivocations := t.equivocations)
    decreases |ready|
  {
    hide RecordInv;
    if ready != [] {
      var h := ready[0];
      assert HintInv(h, w.state.votes, w.state.round - 1, w.state.seat, w.state.height, ctx, known);
      var next := match h case VoteHint(_, _, vote) => RecordVote(w, vote) case ProposalHint(_, _, p) =>
        RecordProposal(w, ctx, p);
      if h.VoteHint? {
        RecordVoteKept(w, ctx, known, h.vote);
      } else {
        RecordProposalKept(w, ctx, known, h.proposal);
      }
      forall k | k in ready[1..]
        ensures HintInv(k, next.state.votes, w.state.round - 1, w.state.seat, w.state.height, ctx, known)
          && k.round == w.state.round
      {
        assert HintInv(k, w.state.votes, w.state.round - 1, w.state.seat, w.state.height, ctx, known);
      }
      ReplayHintsKept(next, ctx, known, ready[1..]);
      KeptTwice(w, next, ReplayHints(w, ctx, ready), ctx, known);
    }
  }

  /** The state a round opens with, before the hints of that round are replayed. */
  function Entered(s: State, round: nat): State {
    s.(round := round, step := AtPropose, timers := Timers(false, false, false),
       hints := Select((h: Hint) => h.round > round, s.hints))
  }

  lemma {:induction false} SelectHints(p: Hint -> bool, hints: seq<Hint>)
    requires OneHintPerSeat(hints)
    ensures OneHintPerSeat(Select(p, hints))
  {
    if hints != [] {
      var front, last := hints[..|hints| - 1], hints[|hints| - 1];
      SelectHints(p, front);
      forall h | h in front ensures h.seat != last.seat {
        var k :| 0 <= k < |front| && front[k] == h;
        assert hints[k].seat != hints[|hints| - 1].seat;
      }
    }
  }

  lemma LaterHints(hints: seq<Hint>, votes: seq<Vote>, round: nat, later: nat, seat: Seat, height: nat, ctx: Context,
                   known: iset<Vote>)
    requires OrderedSeats(ctx.voters) && HintsInv(hints, votes, round, seat, height, ctx, known) && later >= round
    ensures HintsInv(Select((h: Hint) => h.round > later, hints), votes, later, seat, height, ctx, known)
  {
    SelectHints((h: Hint) => h.round > later, hints);
    forall h | h in hints && h.round > later ensures HintInv(h, votes, later, seat, height, ctx, known) {
      assert HintInv(h, votes, round, seat, height, ctx, known);
    }
  }

  lemma EnteredInv(s: State, ctx: Context, known: iset<Vote>, round: nat)
    requires RecordInv(s, ctx, known) && round > s.round
    ensures RecordInv(Entered(s, round), ctx, known)
  {
    LaterHints(s.hints, s.votes, s.round, round, s.seat, s.height, ctx, known);
    assert forall p :: p in s.proposals ==> ProposalInv(p, s.votes, s.round, s.seat, s.height, ctx, known);
  }

  lemma EnterRoundKept(w: Work, ctx: Context, known: iset<Vote>, round: nat)
    requires Good(w, ctx, known)
    ensures Kept(w, EnterRound(w, ctx, round), ctx, known)
    ensures var t := EnterRound(w, ctx, round).state;
            t == w.state.(round := t.round, step := t.step, timers := t.timers, hints := t.hints,
                          votes := t.votes, proposals := t.proposals, equivocations := t.equivocations)
  {
    hide RecordInv;
    var s := w.state;
    if round > s.round {
      EnteredInv(s, ctx, known, round);
      var entered := Work(Entered(s, round), w.effects);
      Advance(w, ctx, known, entered.state, []);
      assert w.effects + [] == w.effects;
      var ready := Select((h: Hint) => h.round == round, s.hints);
      RecordedHints(s, ctx, known);
      RecordedProposals(s, ctx, known);
      forall h | h in ready ensures HintInv(h, s.votes, round - 1, s.seat, s.height, ctx, known) {
        assert HintInv(h, s.votes, s.round, s.seat, s.height, ctx, known);
      }
      ReplayHintsKept(entered, ctx, known, ready);
      var replayed := ReplayHints(entered, ctx, ready);
      KeptTwice(w, entered, replayed, ctx, known);
      OpenedKept(replayed, ctx, known, round);
      KeptTwice(w, replayed, EnterRound(w, ctx, round), ctx, known);
    }
  }

  /** The request and the proposal timer a new round may add. */
  function Opened(w: Work, ctx: Context, round: nat): Work {
    var asked :=
      if ProposerFor(w.state.height, round, ctx) == Some(w.state.seat)
      then w.Emit(RequestValue(round, ValidHash(w.state))) else w;
    if asked.state.inputKnown
    then Work(asked.state.(timers := asked.state.timers.(propose := true)),
              asked.effects + [ScheduleTimeout(AtPropose, round)])
    else asked
  }

  lemma OpenedKept(w: Work, ctx: Context, known: iset<Vote>, round: nat)
    requires Good(w, ctx, known) && !w.state.timers.prevote && !w.state.timers.precommit
    ensures Kept(w, Opened(w, ctx, round), ctx, known)
  {
    hide RecordInv;
    if w.state.inputKnown {
      SetTimers(w.state, ctx, known, w.state.timers.(propose := true));
    }
  }

  lemma MaybeJumpKept(w: Work, ctx: Context, known: iset<Vote>)
    requires Good(w, ctx, known)
    ensures Kept(w, MaybeJump(w, ctx), ctx, known)
    ensures var t := MaybeJump(w, ctx).state;
            t == w.state.(round := t.round, step := t.step, timers := t.timers, hints := t.hints,
                          votes := t.votes, proposals := t.proposals, equivocations := t.equivocations)
  {
    hide RecordInv;
    var rounds := HintRoundsDown(w.state.hints);
    if |rounds| >= 2 {
      EnterRoundKept(w, ctx, known, rounds[1]);
    }
  }

  // ---- committing ----

  /** Committing changes only the decision and the halting fields. */
  predicate CommitOnly(s: State, t: State) {
    Live(t) && t == s.(decision := t.decision, halted := t.halted, haltKind := t.haltKind, unapplied := t.unapplied)
  }

  /** A recorded proposal with a recorded precommit quorum is a valid certified entry. */
  lemma QuorumCertifiesProposal(s: State, ctx: Context, known: iset<Vote>, round: nat, p: Proposal)
    requires RecordInv(s, ctx, known) && OrderedSeats(ctx.voters) && p in s.proposals && p.entry.term == round
    requires QuorumFor(s, ctx, round, Precommit, Some(p.entry.hash)).Some?
    ensures var certified := CertifiedEntry(p.entry, QuorumFor(s, ctx, round, Precommit, Some(p.entry.hash)).value);
            && ValidCertified(certified, ctx)
            && OwnEntryRecorded(Some(certified), s.proposals, s.seat)
            && Grounded(certified.certificate, s.votes, s.seat, s.height, known)
  {
    hide RecordInv, CommitRule, PrevoteRule, QuorumFor, ValidCertificate;
    RecordedLocks(s, ctx, known);
    RecordedVotes(s, ctx, known);
    RecordedBinding(s, ctx, known);
    QuorumForCertifies(s, ctx, round, Precommit, Some(p.entry.hash));
    RecordedProposal(s, ctx, known, p);
  }

  lemma CommitValueKept(w: Work, ctx: Context, known: iset<Vote>, round: nat, value: Option<Hash>)
    requires Good(w, ctx, known) && Live(w.state)
    ensures Kept(w, CommitValue(w, ctx, round, value).work, ctx, known)
    ensures CommitOnly(w.state, CommitValue(w, ctx, round, value).work.state)
  {
    hide RecordInv, ValidCertified, AuthenticCertified, OwnEntryRecorded, Grounded, QuorumFor, Kept, Halt,
      HaltForControl, ProposalAt;
    var s := w.state;
    KeptSame(w, ctx, known);
    if value.Some? && QuorumFor(s, ctx, round, Precommit, value).Some? {
      var certificate := QuorumFor(s, ctx, round, Precommit, value).value;
      var found := ProposalAt(s.proposals, round, value.value);
      if found.None? {
        Advance(w, ctx, known, s, [RequestProposal(round, value.value)]);
      } else {
        QuorumCertifiesProposal(s, ctx, known, round, found.value);
        var certified := CertifiedEntry(found.value.entry, certificate);
        if ctx.controlOf(found.value.entry.hash).Some? {
          HaltForControlKept(w, ctx, known, ctx.controlOf(found.value.entry.hash).value);
        }
        HaltKept(w, ctx, known, ConflictingCertificates);
        if s.decision.None? && !EntryControlFault(s, ctx, certified.entry) {
          SetDecision(s, ctx, known, certified);
          Advance(w, ctx, known, s.(decision := Some(certified)), [Commit(certified)]);
        }
      }
    }
  }

  lemma {:induction false} CommitValuesKept(w: Work, ctx: Context, known: iset<Vote>, round: nat,
                                            values: seq<Option<Hash>>)
    requires Good(w, ctx, known) && Live(w.state)
    ensures Kept(w, CommitValues(w, ctx, round, values).work, ctx, known)
    ensures CommitOnly(w.state, CommitValues(w, ctx, round, values).work.state)
    decreases |values|
  {
    hide RecordInv;
    if values != [] {
      CommitValueKept(w, ctx, known, round, values[0]);
      var first := CommitValue(w, ctx, round, values[0]);
      if !first.stopped {
        CommitValuesKept(first.work, ctx, known, round, values[1..]);
        KeptTwice(w, first.work, CommitValues(w, ctx, round, values).work, ctx, known);
      }
    }
  }

  lemma {:induction false} CommitRoundsKept(w: Work, ctx: Context, known: iset<Vote>, rounds: seq<nat>)
    requires Good(w, ctx, known) && Live(w.state)
    ensures Kept(w, CommitRounds(w, ctx, rounds).work, ctx, known)
    ensures CommitOnly(w.state, CommitRounds(w, ctx, rounds).work.state)
    decreases |rounds|
  {
    hide RecordInv;
    if rounds != [] {
      var values := ValuesOf(VotesAt(w.state.votes, rounds[0], Precommit));
      CommitValuesKept(w, ctx, known, rounds[0], values);
      var first := CommitValues(w, ctx, rounds[0], values);
      if !first.stopped {
        CommitRoundsKept(first.work, ctx, known, rounds[1..]);
        KeptTwice(w, first.work, CommitRounds(w, ctx, rounds).work, ctx, known);
      }
    }
  }

  lemma MaybeCommitKept(w: Work, ctx: Context, known: iset<Vote>)
    requires Good(w, ctx, known) && Live(w.state)
    ensures Kept(w, MaybeCommit(w, ctx), ctx, known)
    ensures CommitOnly(w.state, MaybeCommit(w, ctx).state)
  {
    CommitRoundsKept(w, ctx, known, PrecommitRounds(w.state.votes));
  }

  // ---- voting ----

  /** A nil vote is always permitted; any other must respect the lock rule. */
  ghost predicate Permitted(s: State, ctx: Context, known: iset<Vote>, phase: Phase, value: Option<Hash>)
    requires OrderedSeats(ctx.voters)
  {
    value.Some? ==>
      && MayPush(Vote(s.seat, s.height, s.round, phase, value), s.votes, s.locked, s.seat, s.height, ctx, known)
      && (phase == Precommit ==> exists p :: p in s.proposals && p.entry.term == s.round && p.entry.hash == value.value)
  }

  lemma SignKept(w: Work, ctx: Context, known: iset<Vote>, phase: Phase, value: Option<Hash>, admit: Admission)
    requires Good(w, ctx, known) && Permitted(w.state, ctx, known, phase, value)
    requires w.state.step == (if phase == Prevote then AtPropose else AtPrevote)
    ensures Kept(w, SignLocalVote(w, phase, value, admit), ctx, known)
    ensures var t := SignLocalVote(w, phase, value, admit).state; t == w.state.(votes := t.votes, step := StepOf(phase))
  {
    hide RecordInv, Supported, Justified;
    var s := w.state;
    RecordedVotes(s, ctx, known);
    var t := SignLocalVote(w, phase, value, admit).state;
    var vote := t.votes[|t.votes| - 1];
    PushOwnVote(s, ctx, known, phase, vote.value);
    assert t.votes == s.votes + [vote];
    Advance(w, ctx, known, t, [BroadcastVote(vote)]);
  }

  lemma GroundedIsSeen(p: Proposal, s: State, ctx: Context, known: iset<Vote>)
    requires OrderedSeats(ctx.voters) && ValidProposal(p, ctx) && p.entry.height == s.height
    requires Grounded(p.prevotes, s.votes, s.seat, s.height, known)
    ensures forall v :: v in p.prevotes ==> v in Seen(s.votes, known)
  {
  }

  /** A recorded quorum value has its prevote quorum among the votes that exist. */
  lemma QuorumIsSupported(q: Option<QuorumValue>, s: State, ctx: Context, known: iset<Vote>)
    requires OrderedSeats(ctx.voters) && q.Some? && QuorumInv(q, s.votes, s.round, s.height, ctx)
    ensures Supported(Seen(s.votes, known), ctx, PrevoteFor(s.height, q.value.round, q.value.hash))
  {
    CertificateSupports(q.value.prevotes, ctx, PrevoteFor(s.height, q.value.round, q.value.hash), Seen(s.votes, known));
  }

  lemma ValidHeight(p: Proposal, ctx: Context)
    requires OrderedSeats(ctx.voters) && ValidProposal(p, ctx)
    ensures p.entry.height == ctx.height
  {
  }

  lemma AcceptedIsPermitted(s: State, ctx: Context, known: iset<Vote>, p: Proposal)
    requires RecordInv(s, ctx, known) && s.step == AtPropose && p.entry.term == s.round && LockAccepts(s, p)
    requires OrderedSeats(ctx.voters) && ValidProposal(p, ctx) && Grounded(p.prevotes, s.votes, s.seat, s.height, known)
    ensures Permitted(s, ctx, known, Prevote, Some(p.entry.hash))
  {
    hide RecordInv, Supported, Justified, ValidCertificate, ValidProposal;
    RecordedBinding(s, ctx, known);
    RecordedLocks(s, ctx, known);
    RecordedQuorums(s, ctx, known);
    ValidHeight(p, ctx);
    GroundedIsSeen(p, s, ctx, known);
    if s.locked.Some? {
      QuorumIsSupported(s.locked, s, ctx, known);
    }
    forall c | c in s.votes && IsOwnCommit(c, s.seat) && c.term < s.round
      ensures Justified(Seen(s.votes, known), ctx, s.height, c.term, c.value.value, s.round, p.entry.hash)
    {
      AcceptedIsJustified(s, ctx, known, p, c);
    }
  }

  lemma PrevoteProposalKept(w: Work, ctx: Context, known: iset<Vote>, p: Proposal, admit: Admission)
    requires Good(w, ctx, known) && ValidProposal(p, ctx)
    requires Grounded(p.prevotes, w.state.votes, w.state.seat, w.state.height, known)
    ensures Kept(w, PrevoteProposal(w, p, admit), ctx, known)
    ensures var t := PrevoteProposal(w, p, admit).state; t == w.state.(votes := t.votes, step := t.step)
  {
    hide RecordInv, Permitted, ValidProposal, Grounded;
    if p.entry.term == w.state.round && w.state.step == AtPropose {
      if LockAccepts(w.state, p) {
        AcceptedIsPermitted(w.state, ctx, known, p);
      } else {
        NilIsPermitted(w.state, ctx, known, Prevote);
      }
      SignKept(w, ctx, known, Prevote, if LockAccepts(w.state, p) then Some(p.entry.hash) else None, admit);
    }
  }

  lemma NilIsPermitted(s: State, ctx: Context, known: iset<Vote>, phase: Phase)
    requires OrderedSeats(ctx.voters)
    ensures Permitted(s, ctx, known, phase, None)
  {
  }

  lemma PrevoteWaitingKept(w: Work, ctx: Context, known: iset<Vote>, admit: Admission)
    requires Good(w, ctx, known)
    ensures Kept(w, PrevoteWaiting(w, admit), ctx, known)
    ensures var t := PrevoteWaiting(w, admit).state; t == w.state.(votes := t.votes, step := t.step)
  {
    hide RecordInv, ValidProposal, Grounded;
    if w.state.step == AtPropose {
      var waiting := WaitingProposal(w.state);
      if waiting.Some? {
        RecordedProposal(w.state, ctx, known, waiting.value);
        PrevoteProposalKept(w, ctx, known, waiting.value, admit);
      }
    }
  }

  /** The valid record as `LockValue` marks it. */
  function Marked(s: State, record: QuorumValue): State {
    if s.valid.None? || s.valid.value.round < s.round then s.(valid := Some(record)) else s
  }

  lemma MarkedInv(s: State, ctx: Context, known: iset<Vote>, p: Proposal)
    requires OrderedSeats(ctx.voters) && RecordInv(s, ctx, known) && p in s.proposals && p.entry.term == s.round
    requires QuorumFor(s, ctx, s.round, Prevote, Some(p.entry.hash)).Some?
    ensures var record := QuorumValue(s.round, p.entry.hash, p,
                                      QuorumFor(s, ctx, s.round, Prevote, Some(p.entry.hash)).value);
            && RecordInv(Marked(s, record), ctx, known)
            && QuorumInv(Some(record), s.votes, s.round, s.height, ctx)
            && Covers(Marked(s, record).valid, Some(record))
  {
    hide RecordInv, QuorumFor, ValidCertificate, ValidProposal, UniqueVotes;
    var hash := p.entry.hash;
    var record := QuorumValue(s.round, hash, p, QuorumFor(s, ctx, s.round, Prevote, Some(hash)).value);
    RecordedVotes(s, ctx, known);
    RecordedBinding(s, ctx, known);
    RecordedQuorums(s, ctx, known);
    RecordedLocks(s, ctx, known);
    RecordedProposal(s, ctx, known, p);
    QuorumForCertifies(s, ctx, s.round, Prevote, Some(hash));
    assert QuorumInv(Some(record), s.votes, s.round, s.height, ctx);
    var marked := Marked(s, record);
    if marked.valid.value.round == s.round {
      var v := marked.valid.value;
      OneQuorumPerRound(s.votes, ctx, v.prevotes, record.prevotes,
        Ballot(s.height, v.round, Prevote, Some(v.hash)), Ballot(s.height, s.round, Prevote, Some(hash)));
    }
    SetQuorums(s, ctx, known, marked.valid, s.locked);
  }

  /** A lock of the current round may be taken before the precommit, and then permits it. */
  lemma LockedInv(s: State, ctx: Context, known: iset<Vote>, record: QuorumValue)
    requires RecordInv(s, ctx, known) && OrderedSeats(ctx.voters) && s.step == AtPrevote && record.round == s.round
    requires QuorumInv(Some(record), s.votes, s.round, s.height, ctx) && Covers(s.valid, Some(record))
    requires record.proposal in s.proposals && record.proposal.entry.term == s.round
      && record.proposal.entry.hash == record.hash
    ensures RecordInv(s.(locked := Some(record)), ctx, known)
    ensures Permitted(s.(locked := Some(record)), ctx, known, Precommit, Some(record.hash))
  {
    hide RecordInv, Supported, Justified, QuorumInv;
    RecordedVotes(s, ctx, known);
    RecordedLocks(s, ctx, known);
    RecordedQuorums(s, ctx, known);
    QuorumIsSupported(Some(record), s, ctx, known);
    assert forall v :: v in s.votes && IsOwnCommit(v, s.seat) ==> v.term < s.round;
    SetQuorums(s, ctx, known, s.valid, Some(record));
  }

  lemma LockValueKept(w: Work, ctx: Context, known: iset<Vote>, p: Proposal, admit: Admission)
    requires Good(w, ctx, known) && p in w.state.proposals && p.entry.term == w.state.round
    ensures Kept(w, LockValue(w, ctx, p, admit), ctx, known)
    ensures var t := LockValue(w, ctx, p, admit).state;
            t == w.state.(valid := t.valid, locked := t.locked, votes := t.votes, step := t.step)
  {
    hide RecordInv, Permitted, QuorumInv, Covers, QuorumFor, SignLocalVote;
    var s, hash := w.state, p.entry.hash;
    var quorum := QuorumFor(s, ctx, s.round, Prevote, Some(hash));
    if quorum.Some? {
      MarkedInv(s, ctx, known, p);
      var record := QuorumValue(s.round, hash, p, quorum.value);
      if s.step == AtPrevote && OwnVote(s, Precommit).None? {
        LockedInv(Marked(s, record), ctx, known, record);
        var locked := w.(state := Marked(s, record).(locked := Some(record)));
        assert Kept(w, locked, ctx, known);
        SignKept(locked, ctx, known, Precommit, Some(hash), admit);
        KeptTwice(w, locked, LockValue(w, ctx, p, admit), ctx, known);
      }
    }
  }

  lemma {:induction false} LockValuesKept(w: Work, ctx: Context, known: iset<Vote>, proposals: seq<Proposal>,
                                          admit: Admission)
    requires Good(w, ctx, known)
    requires forall p :: p in proposals ==> p in w.state.proposals && p.entry.term == w.state.round
    ensures Kept(w, LockValues(w, ctx, proposals, admit), ctx, known)
    ensures var t := LockValues(w, ctx, proposals, admit).state;
            t == w.state.(valid := t.valid, locked := t.locked, votes := t.votes, step := t.step)
    decreases |proposals|
  {
    hide RecordInv;
    if proposals != [] {
      assert proposals[0] in proposals;
      var next := LockValue(w, ctx, proposals[0], admit);
      LockValueKept(w, ctx, known, proposals[0], admit);
      LockValuesKept(next, ctx, known, proposals[1..], admit);
      KeptTwice(w, next, LockValues(w, ctx, proposals, admit), ctx, known);
    }
  }

  lemma PrecommitNilKept(w: Work, ctx: Context, known: iset<Vote>)
    requires Good(w, ctx, known)
    ensures Kept(w, PrecommitNil(w, ctx), ctx, known)
    ensures var t := PrecommitNil(w, ctx).state; t == w.state.(votes := t.votes, step := t.step)
  {
    hide RecordInv;
    if w.state.step == AtPrevote {
      NilIsPermitted(w.state, ctx, known, Precommit);
      SignKept(w, ctx, known, Precommit, None, None);
    }
  }

  lemma ArmTimersKept(w: Work, ctx: Context, known: iset<Vote>)
    requires Good(w, ctx, known)
    ensures Kept(w, ArmTimers(w, ctx), ctx, known)
    ensures var t := ArmTimers(w, ctx).state; t == w.state.(timers := t.timers)
  {
    hide RecordInv;
    RecordedTimers(w.state, ctx, known);
    SetTimers(w.state, ctx, known, ArmTimers(w, ctx).state.timers);
  }

  /** Driving leaves the round, the proposals and the hints alone. */
  predicate DriveOnly(s: State, t: State) {
    t == s.(votes := t.votes, step := t.step, valid := t.valid, locked := t.locked, timers := t.timers,
            decision := t.decision, halted := t.halted, haltKind := t.haltKind, unapplied := t.unapplied)
  }

  lemma DriveKept(w: Work, ctx: Context, known: iset<Vote>, admit: Admission)
    requires Good(w, ctx, known) && Live(w.state)
    ensures Kept(w, Drive(w, ctx, admit), ctx, known)
    ensures DriveOnly(w.state, Drive(w, ctx, admit).state)
  {
    hide RecordInv, EffectsRecorded, Extends;
    MaybeCommitKept(w, ctx, known);
    var first := MaybeCommit(w, ctx);
    if !Finished(first.state) {
      PrevoteWaitingKept(first, ctx, known, admit);
      var prevoted := PrevoteWaiting(first, admit);
      var waiting := ProposalsAt(prevoted.state.proposals, prevoted.state.round);
      LockValuesKept(prevoted, ctx, known, waiting, admit);
      var locked := LockValues(prevoted, ctx, waiting, admit);
      PrecommitNilKept(locked, ctx, known);
      var precommitted := PrecommitNil(locked, ctx);
      ArmTimersKept(precommitted, ctx, known);
      var armed := ArmTimers(precommitted, ctx);
      MaybeCommitKept(armed, ctx, known);
      KeptTwice(w, first, prevoted, ctx, known);
      KeptTwice(w, prevoted, locked, ctx, known);
      KeptTwice(w, locked, precommitted, ctx, known);
      KeptTwice(w, precommitted, armed, ctx, known);
      KeptTwice(w, armed, MaybeCommit(armed, ctx), ctx, known);
    }
  }
}
