/** What passing a restart says of a stored record (restoreConsensusState, packages/protocol/src/consensus.ts). */
module Restarts {
  import opened Results
  import opened Votes
  import opened Proposals
  import opened Consensus
  import opened ConsensusRestore

  // ---- what was signed ----

  /** A proof this record holds: of a proposal, a hint, its locks, its certificates or its evidence. */
  predicate Holds(s: State, proof: seq<Vote>) {
    || (exists p :: p in s.proposals && proof == p.prevotes)
    || (exists h :: h in s.hints && proof == HintVotes(h))
    || (exists e :: e in s.equivocations && proof == EquivocationVotes(e))
    || (s.valid.Some? && proof == s.valid.value.prevotes)
    || (s.locked.Some? && proof == s.locked.value.prevotes)
    || (s.decision.Some? && proof == s.decision.value.certificate)
    || (s.unapplied.Some? && proof == s.unapplied.value.certificate)
  }

  lemma HeldIsReferenced(s: State, proof: seq<Vote>, v: Vote)
    requires Holds(s, proof) && v in proof
    ensures v in ReferencedVotes(s)
  {
  }

  lemma OneVoteEach(votes: seq<Vote>, v: Vote, w: Vote)
    requires UniqueVotes(votes) && v in votes && w in votes && SameBallotPlace(v, w)
    ensures v == w
  {
    var i :| 0 <= i < |votes| && votes[i] == v;
    var j :| 0 <= j < |votes| && votes[j] == w;
  }

  /**
   * A record that passes a restart is bound to this voter and height, holds one vote for each seat, round and phase
   * and one own proposal for each round, and every own vote of this height that any proof in it contains. Its lock is
   * exactly its latest own precommit for a value, and its step says which votes of the round it signed.
   */
  lemma RestoredIsSound(s: State, ctx: Context, seat: Seat)
    requires OrderedSeats(ctx.voters) && RestoreState(s, ctx, seat).Ok?
    ensures s.seat == seat && s.height == ctx.height && s.binding == ctx.binding && s.parentHash == ctx.parentHash
    ensures forall v, w ::
      v in s.votes && w in s.votes && v.seat == w.seat && v.term == w.term && v.phase == w.phase ==> v == w
    ensures forall v :: v in s.votes ==> v.seat in ctx.voters && v.height == s.height && 1 <= v.term <= s.round
    ensures forall p, q ::
      p in s.proposals && q in s.proposals && p.entry.sequencer == seat == q.entry.sequencer
        && p.entry.term == q.entry.term
      ==> p == q
    ensures forall proof: seq<Vote>, v: Vote ::
      Holds(s, proof) && v in proof && v.seat == seat && v.height == s.height ==> v in s.votes
    ensures forall v :: v in s.votes && v.seat == seat && v.phase == Precommit && v.value.Some? ==>
      && s.locked.Some? && v.term <= s.locked.value.round
      && (v.term == s.locked.value.round ==> v.value == Some(s.locked.value.hash))
    ensures s.locked.Some? ==>
      && Vote(seat, s.height, s.locked.value.round, Precommit, Some(s.locked.value.hash)) in s.votes
      && s.valid.Some? && s.locked.value.round <= s.valid.value.round
    ensures s.step == AtPropose <==>
      forall v :: v in s.votes && v.seat == seat && v.term == s.round ==> v.phase == Precommit
    ensures s.step == AtPrecommit <==>
      exists v :: v in s.votes && v.seat == seat && v.term == s.round && v.phase == Precommit
  {
    hide Normalize, StoredProposals, StoredHints, StoredQuorumValues, StoredCertificates, StoredEquivocations,
      StoredAccusations, TimersBacked, ReferencedVotes, Holds;
    forall v, w | v in s.votes && w in s.votes && v.seat == w.seat && v.term == w.term && v.phase == w.phase
      ensures v == w
    {
      OneVoteEach(s.votes, v, w);
    }
    forall proof: seq<Vote>, v: Vote | Holds(s, proof) && v in proof && v.seat == seat && v.height == s.height
      ensures v in s.votes
    {
      HeldIsReferenced(s, proof, v);
    }
    var latest := LatestOwnCommit(s.seat, s.votes);
    if latest.Some? {
      forall v | v in s.votes && IsOwnCommit(v, seat) && v.term == latest.value.term ensures v == latest.value {
        OneVoteEach(s.votes, v, latest.value);
      }
    }
  }

  // ---- what stops a record ----

  /** An accusation that this record carries, wherever it carries it. */
  predicate Accuses(s: State, ctx: Context, c: Control) {
    || (exists p :: p in s.proposals && ctx.controlOf(p.entry.hash) == Some(c))
    || (exists h :: h in s.hints && h.ProposalHint? && ctx.controlOf(h.proposal.entry.hash) == Some(c))
    || (s.valid.Some? && ctx.controlOf(s.valid.value.proposal.entry.hash) == Some(c))
    || (s.locked.Some? && ctx.controlOf(s.locked.value.proposal.entry.hash) == Some(c))
    || (s.decision.Some? && ctx.controlOf(s.decision.value.entry.hash) == Some(c))
    || (s.provenOffender.Some? && s.provenOffender.value.control == c)
    || s.pendingAccusation == Some(c)
    || (exists e :: e in s.equivocations && EvidenceControl(e) == c)
  }

  lemma {:induction false} ControlsOf(entries: seq<Entry>, ctx: Context, c: Control)
    ensures c in EntryControls(entries, ctx) <==> exists e :: e in entries && ctx.controlOf(e.hash) == Some(c)
  {
    if entries != [] {
      ControlsOf(entries[1..], ctx, c);
      assert forall e :: e in entries <==> e == entries[0] || e in entries[1..];
    }
  }

  lemma {:induction false} HintEntriesAre(hints: seq<Hint>, e: Entry)
    ensures e in HintEntries(hints) <==> exists h :: h in hints && h.ProposalHint? && h.proposal.entry == e
  {
    if hints != [] {
      HintEntriesAre(hints[1..], e);
      assert forall h :: h in hints <==> h == hints[0] || h in hints[1..];
    }
  }

  lemma EvidenceControlsAre(es: seq<Equivocation>, c: Control)
    ensures c in EquivocationControls(es) <==> exists e :: e in es && EvidenceControl(e) == c
  {
    var controls := EquivocationControls(es);
    forall i | 0 <= i < |es| ensures controls[i] == EvidenceControl(es[i]) {
    }
    if e :| e in es && EvidenceControl(e) == c {
      var i :| 0 <= i < |es| && es[i] == e;
      assert controls[i] == c;
    }
    if c in controls {
      var i :| 0 <= i < |controls| && controls[i] == c;
      assert es[i] in es;
    }
  }

  lemma ProposalEntriesAre(proposals: seq<Proposal>, e: Entry)
    ensures e in ProposalEntries(proposals) <==> exists p :: p in proposals && p.entry == e
  {
    var entries := ProposalEntries(proposals);
    if p :| p in proposals && p.entry == e {
      var i :| 0 <= i < |proposals| && proposals[i] == p;
      assert entries[i] == e;
    }
    if e in entries {
      var i :| 0 <= i < |entries| && entries[i] == e;
      assert proposals[i] in proposals;
    }
  }

  lemma ControlsAre(s: State, ctx: Context, c: Control)
    ensures c in RecordedControls(s, ctx) <==> Accuses(s, ctx, c)
  {
    hide EntryControls, ProposalEntries, HintEntries, EquivocationControls, EvidenceControl;
    var entries := ProposalEntries(s.proposals) + HintEntries(s.hints)
      + (if s.valid.Some? then [s.valid.value.proposal.entry] else [])
      + (if s.locked.Some? then [s.locked.value.proposal.entry] else [])
      + (if s.decision.Some? then [s.decision.value.entry] else []);
    ControlsOf(entries, ctx, c);
    EvidenceControlsAre(s.equivocations, c);
    forall e
      ensures e in HintEntries(s.hints) <==> exists h :: h in s.hints && h.ProposalHint? && h.proposal.entry == e
    {
      HintEntriesAre(s.hints, e);
    }
    forall e ensures e in ProposalEntries(s.proposals) <==> exists p :: p in s.proposals && p.entry == e {
      ProposalEntriesAre(s.proposals, e);
    }
    assert c in RecordedControls(s, ctx) <==>
      || c in EntryControls(entries, ctx) || (s.provenOffender.Some? && s.provenOffender.value.control == c)
      || s.pendingAccusation == Some(c) || c in EquivocationControls(s.equivocations);
  }

  predicate SameAccused(s: State, t: State) {
    t.seat == s.seat && t.provenOffender == s.provenOffender
  }

  /** A list of accusations stops a record if one of them does, or two name different voters. */
  predicate Stops(s: State, ctx: Context, controls: seq<Control>, observed: Option<Seat>) {
    || (exists c :: c in controls && ControlFault(s, ctx, c))
    || (exists c :: c in controls && observed.Some? && c.offender != observed.value)
    || (exists c, d :: c in controls && d in controls && c.offender != d.offender)
  }

  lemma {:induction false} NormalizeStops(s: State, ctx: Context, controls: seq<Control>, observed: Option<Seat>)
    ensures NormalizeControls(s, ctx, controls, observed).haltKind == Some(Terminal)
      <==> s.haltKind == Some(Terminal) || Stops(s, ctx, controls, observed)
    ensures SameAccused(s, NormalizeControls(s, ctx, controls, observed))
    decreases |controls|
  {
    if controls != [] {
      var control, rest := controls[0], controls[1..];
      assert forall c :: c in controls <==> c == control || c in rest;
      var second := if observed.Some? && observed.value != control.offender
                    then TerminalFault(Work(s, []), SecondByzantineVoter).state else s;
      var checked := HaltForControl(Work(second, []), ctx, control).state;
      if !ControlFault(second, ctx, control) {
        NormalizeStops(checked, ctx, rest, if observed.Some? then observed else Some(control.offender));
        StopsCompose(s, checked, ctx, control, rest, observed);
      }
    }
  }

  lemma StopsCompose(s: State, t: State, ctx: Context, control: Control, rest: seq<Control>, observed: Option<Seat>)
    requires SameAccused(s, t) && !ControlFault(s, ctx, control)
    ensures Stops(s, ctx, [control] + rest, observed)
      <==> (observed.Some? && observed.value != control.offender)
           || Stops(t, ctx, rest, if observed.Some? then observed else Some(control.offender))
  {
    assert forall c :: c in [control] + rest <==> c == control || c in rest;
    forall c: Control ensures ControlFault(s, ctx, c) <==> ControlFault(t, ctx, c) {
    }
  }

  /**
   * A restart stops a record that was not stopped for good exactly when this voter is excluded, or the record carries
   * an accusation of it, of a second voter, or beside another voter's exclusion.
   */
  lemma RestartStopsIff(s: State, ctx: Context, seat: Seat)
    requires OrderedSeats(ctx.voters) && RestoreState(s, ctx, seat).Ok? && s.haltKind != Some(Terminal)
    ensures RestoreState(s, ctx, seat).value.haltKind == Some(Terminal)
      <==> || seat in ctx.excluded
           || (exists c :: Accuses(s, ctx, c) && ControlFault(s, ctx, c))
           || (exists c, d :: Accuses(s, ctx, c) && Accuses(s, ctx, d) && c.offender != d.offender)
    ensures RestoreState(s, ctx, seat).value.haltKind != Some(Terminal) ==> RestoreState(s, ctx, seat).value == s
  {
    hide RecordedControls, ControlFault, Accuses, NormalizeControls, RecordChecks;
    RestoreKeepsRecord(s, ctx, seat);
    var controls := RecordedControls(s, ctx);
    NormalizeStops(s, ctx, controls, None);
    forall c ensures c in controls <==> Accuses(s, ctx, c) {
      ControlsAre(s, ctx, c);
    }
  }
}
