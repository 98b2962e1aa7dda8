/**
 * When a record decides (maybeCommit, packages/protocol/src/consensus.ts): exactly when a recorded proposal has a
 * quorum of recorded precommits, counted by seats.
 */
module ConsensusDecides {
  import opened Results
  import opened Votes
  import opened Proposals
  import opened Consensus
  import opened ConsensusRestore
  import opened ConsensusRecord
  import opened LockRule
  import opened ConsensusSteps

  // ---- counting voters ----

  /** The seats with a recorded vote for one value in one round and phase. */
  function Backers(votes: seq<Vote>, round: nat, phase: Phase, value: Option<Hash>): set<Seat> {
    set v | v in votes && v.term == round && v.phase == phase && v.value == value :: v.seat
  }

  /** The seats with any recorded vote in one round and phase. */
  function Voted(votes: seq<Vote>, round: nat, phase: Phase): set<Seat> {
    set v | v in votes && v.term == round && v.phase == phase :: v.seat
  }

  lemma {:induction false} DistinctSigners(votes: seq<Vote>)
    requires forall i, j :: 0 <= i < j < |votes| ==> votes[i].seat != votes[j].seat
    ensures |Signers(votes)| == |votes|
  {
    if votes == [] {
      assert Signers(votes) == {};
    } else {
      var front, last := votes[..|votes| - 1], votes[|votes| - 1];
      DistinctSigners(front);
      assert votes == front + [last];
      SignersGrow(front, last);
      forall v | v in front ensures v.seat != last.seat {
        var k :| 0 <= k < |front| && front[k] == v;
        assert votes[k].seat != votes[|front|].seat;
      }
      assert last.seat !in Signers(front);
    }
  }

  lemma SignersGrow(votes: seq<Vote>, last: Vote)
    ensures Signers(votes + [last]) == Signers(votes) + {last.seat}
  {
    assert forall v :: v in votes + [last] <==> v in votes || v == last;
  }

  lemma BackersCount(votes: seq<Vote>, round: nat, phase: Phase, value: Option<Hash>)
    requires UniqueVotes(votes)
    ensures |Backers(votes, round, phase, value)| == |VotesFor(votes, round, phase, value)|
  {
    VotesForDistinct(votes, round, phase, value);
    DistinctSigners(VotesFor(votes, round, phase, value));
    assert Signers(VotesFor(votes, round, phase, value)) == Backers(votes, round, phase, value);
  }

  lemma VotedCount(votes: seq<Vote>, round: nat, phase: Phase)
    requires UniqueVotes(votes)
    ensures |Voted(votes, round, phase)| == |VotesAt(votes, round, phase)|
  {
    VotesAtDistinct(votes, round, phase);
    DistinctSigners(VotesAt(votes, round, phase));
    assert Signers(VotesAt(votes, round, phase)) == Voted(votes, round, phase);
  }

  predicate QuorumOf(s: State, ctx: Context, round: nat, phase: Phase, value: Option<Hash>)
    requires OrderedSeats(ctx.voters)
  {
    |Backers(s.votes, round, phase, value)| >= ctx.Quorum()
  }

  /** A quorum certificate is read off the record exactly when a quorum of seats is recorded for its ballot. */
  lemma QuorumIsCounted(s: State, ctx: Context, round: nat, phase: Phase, value: Option<Hash>)
    requires OrderedSeats(ctx.voters) && UniqueVotes(s.votes)
    ensures QuorumFor(s, ctx, round, phase, value).Some? <==> QuorumOf(s, ctx, round, phase, value)
  {
    BackersCount(s.votes, round, phase, value);
  }

  /** In one round and phase at most one value, nil included, has a quorum. */
  lemma OneValueHasQuorum(s: State, ctx: Context, known: iset<Vote>, round: nat, phase: Phase, a: Option<Hash>,
                          b: Option<Hash>)
    requires RecordInv(s, ctx, known) && OrderedSeats(ctx.voters)
    requires QuorumOf(s, ctx, round, phase, a) && QuorumOf(s, ctx, round, phase, b)
    ensures a == b
  {
    hide RecordInv, QuorumFor;
    RecordedVotes(s, ctx, known);
    QuorumIsCounted(s, ctx, round, phase, a);
    QuorumIsCounted(s, ctx, round, phase, b);
    QuorumForCertifies(s, ctx, round, phase, a);
    QuorumForCertifies(s, ctx, round, phase, b);
    OneQuorumPerRound(s.votes, ctx, QuorumFor(s, ctx, round, phase, a).value, QuorumFor(s, ctx, round, phase, b).value,
                      Ballot(s.height, round, phase, a), Ballot(s.height, round, phase, b));
  }

  lemma QuorumHasVote(s: State, ctx: Context, round: nat, phase: Phase, value: Option<Hash>)
    requires OrderedSeats(ctx.voters) && QuorumOf(s, ctx, round, phase, value)
    ensures exists v :: v in s.votes && v.term == round && v.phase == phase && v.value == value
  {
    assert Backers(s.votes, round, phase, value) != {};
    var seat :| seat in Backers(s.votes, round, phase, value);
  }

  // ---- what the record backs ----

  /** A recorded proposal whose value a quorum of seats precommitted in its round. */
  predicate Backed(s: State, ctx: Context, p: Proposal)
    requires OrderedSeats(ctx.voters)
  {
    p in s.proposals && QuorumOf(s, ctx, p.entry.term, Precommit, Some(p.entry.hash))
  }

  predicate BackedIn(s: State, ctx: Context, p: Proposal, rounds: seq<nat>)
    requires OrderedSeats(ctx.voters)
  {
    Backed(s, ctx, p) && p.entry.term in rounds
  }

  /** Of the backed proposals, one of the earliest round. */
  ghost predicate LeadsIn(s: State, ctx: Context, p: Proposal, rounds: seq<nat>)
    requires OrderedSeats(ctx.voters)
  {
    BackedIn(s, ctx, p, rounds) && forall q :: BackedIn(s, ctx, q, rounds) ==> p.entry.term <= q.entry.term
  }

  /** Nothing backed contradicts the decision or carries evidence that stops this record. */
  ghost predicate CalmIn(s: State, ctx: Context, decision: Option<CertifiedEntry>, rounds: seq<nat>)
    requires OrderedSeats(ctx.voters)
  {
    forall p :: BackedIn(s, ctx, p, rounds) ==>
      !EntryControlFault(s, ctx, p.entry) && decision.Some? && decision.value.entry.hash == p.entry.hash
  }

  predicate SameHalt(s: State, t: State) {
    t.halted == s.halted && t.haltKind == s.haltKind && t.unapplied == s.unapplied
  }

  function NewEffects(w: Work, t: Work): seq<Effect>
    requires w.effects <= t.effects
  {
    t.effects[|w.effects|..]
  }

  /** What a commit scan over some rounds makes of a record. */
  ghost predicate Scanned(w: Work, t: Work, ctx: Context, rounds: seq<nat>)
    requires OrderedSeats(ctx.voters)
  {
    var s := w.state;
    && CommitOnly(s, t.state) && w.effects <= t.effects
    && (s.decision.Some? ==> t.state.decision == s.decision)
    && (s.decision.None? ==>
          && (t.state.decision.Some? ==>
                exists p :: LeadsIn(s, ctx, p, rounds) && t.state.decision.value.entry == p.entry)
          && forall p :: LeadsIn(s, ctx, p, rounds) ==>
               (t.state.decision.Some? <==> !EntryControlFault(s, ctx, p.entry)))
    && (if CalmIn(s, ctx, t.state.decision, rounds) then SameHalt(s, t.state) else t.state.haltKind == Some(Terminal))
    && (forall c :: Commit(c) in NewEffects(w, t) <==> s.decision.None? && t.state.decision == Some(c))
  }

  // ---- one round ----

  lemma {:induction false} ValuesDistinct(votes: seq<Vote>)
    ensures forall i, j :: 0 <= i < j < |ValuesOf(votes)| ==> ValuesOf(votes)[i] != ValuesOf(votes)[j]
  {
    if votes != [] {
      ValuesDistinct(votes[..|votes| - 1]);
    }
  }

  predicate NoQuorum(s: State, ctx: Context, round: nat, value: Option<Hash>)
    requires OrderedSeats(ctx.voters)
  {
    value.None? || QuorumFor(s, ctx, round, Precommit, value).None?
  }

  lemma {:induction false} ValuesSkipped(w: Work, ctx: Context, round: nat, values: seq<Option<Hash>>)
    requires OrderedSeats(ctx.voters)
    requires forall x :: x in values ==> NoQuorum(w.state, ctx, round, x)
    ensures CommitValues(w, ctx, round, values) == Scan(w, false)
    decreases |values|
  {
    if values != [] {
      assert values[0] in values;
      ValuesSkipped(w, ctx, round, values[1..]);
    }
  }

  lemma CommitKeepsVotes(w: Work, ctx: Context, round: nat, value: Option<Hash>)
    requires OrderedSeats(ctx.voters)
    ensures CommitValue(w, ctx, round, value).work.state.votes == w.state.votes
  {
    hide QuorumFor, ProposalAt, ValidCertified, AuthenticCertified;
  }

  /** If only one value of a round has a quorum, scanning the round is committing that value. */
  lemma {:induction false} OneValueScanned(w: Work, ctx: Context, round: nat, values: seq<Option<Hash>>, i: nat)
    requires OrderedSeats(ctx.voters) && i < |values|
    requires forall k :: 0 <= k < |values| && k != i ==> NoQuorum(w.state, ctx, round, values[k])
    ensures CommitValues(w, ctx, round, values) == CommitValue(w, ctx, round, values[i])
    decreases |values|
  {
    hide CommitValue, QuorumFor;
    if i == 0 {
      var first := CommitValue(w, ctx, round, values[0]);
      CommitKeepsVotes(w, ctx, round, values[0]);
      if !first.stopped {
        forall x | x in values[1..] ensures NoQuorum(first.work.state, ctx, round, x) {
          var k :| 0 <= k < |values[1..]| && values[1..][k] == x;
          assert NoQuorum(w.state, ctx, round, values[k + 1]);
          SameVotesSameQuorum(w.state, first.work.state, ctx, round, x);
        }
        ValuesSkipped(first.work, ctx, round, values[1..]);
      }
    } else {
      SkippedValue(w, ctx, round, values[0]);
      OneValueScanned(w, ctx, round, values[1..], i - 1);
    }
  }

  lemma SameVotesSameQuorum(s: State, t: State, ctx: Context, round: nat, value: Option<Hash>)
    requires OrderedSeats(ctx.voters) && s.votes == t.votes
    ensures QuorumFor(s, ctx, round, Precommit, value) == QuorumFor(t, ctx, round, Precommit, value)
  {
  }

  lemma SkippedValue(w: Work, ctx: Context, round: nat, value: Option<Hash>)
    requires OrderedSeats(ctx.voters) && NoQuorum(w.state, ctx, round, value)
    ensures CommitValue(w, ctx, round, value) == Scan(w, false)
  {
  }

  function ScanRound(w: Work, ctx: Context, round: nat): Scan
    requires OrderedSeats(ctx.voters)
  {
    CommitValues(w, ctx, round, ValuesOf(VotesAt(w.state.votes, round, Precommit)))
  }

  /** Scanning one round commits its one value with a quorum, or does nothing. */
  lemma RoundScanned(w: Work, ctx: Context, known: iset<Vote>, round: nat) returns (hash: Option<Hash>)
    requires Good(w, ctx, known)
    ensures hash.None? ==>
      && ScanRound(w, ctx, round) == Scan(w, false)
      && forall h :: !QuorumOf(w.state, ctx, round, Precommit, Some(h))
    ensures hash.Some? ==>
      && ScanRound(w, ctx, round) == CommitValue(w, ctx, round, hash)
      && QuorumOf(w.state, ctx, round, Precommit, hash) && QuorumFor(w.state, ctx, round, Precommit, hash).Some?
  {
    hide RecordInv, QuorumFor, CommitValue, CommitValues, VotesAt, QuorumOf, EffectsRecorded;
    var s := w.state;
    RecordedVotes(s, ctx, known);
    var values := ValuesOf(VotesAt(s.votes, round, Precommit));
    forall x ensures QuorumFor(s, ctx, round, Precommit, x).Some? <==> QuorumOf(s, ctx, round, Precommit, x) {
      QuorumIsCounted(s, ctx, round, Precommit, x);
    }
    if h :| QuorumOf(s, ctx, round, Precommit, Some(h)) {
      hash := Some(h);
      ValueListed(s, ctx, round, hash);
      var i :| 0 <= i < |values| && values[i] == hash;
      ValuesDistinct(VotesAt(s.votes, round, Precommit));
      forall k | 0 <= k < |values| && k != i ensures NoQuorum(s, ctx, round, values[k]) {
        if QuorumOf(s, ctx, round, Precommit, values[k]) {
          OneValueHasQuorum(s, ctx, known, round, Precommit, values[k], hash);
        }
      }
      OneValueScanned(w, ctx, round, values, i);
    } else {
      hash := None;
      forall x | x in values ensures NoQuorum(s, ctx, round, x) {
        assert x.Some? ==> !QuorumOf(s, ctx, round, Precommit, Some(x.value));
      }
      ValuesSkipped(w, ctx, round, values);
    }
  }

  lemma ValueListed(s: State, ctx: Context, round: nat, value: Option<Hash>)
    requires OrderedSeats(ctx.voters) && QuorumOf(s, ctx, round, Precommit, value)
    ensures value in ValuesOf(VotesAt(s.votes, round, Precommit))
  {
    QuorumHasVote(s, ctx, round, Precommit, value);
    var v :| v in s.votes && v.term == round && v.phase == Precommit && v.value == value;
    assert v in VotesAt(s.votes, round, Precommit);
  }

  /** One value with a quorum: its recorded proposal is decided, unless it is at fault or contradicts the decision. */
  lemma ValueScanned(w: Work, ctx: Context, known: iset<Vote>, round: nat, hash: Hash)
    requires Good(w, ctx, known) && Live(w.state)
    requires QuorumFor(w.state, ctx, round, Precommit, Some(hash)).Some?
    requires QuorumOf(w.state, ctx, round, Precommit, Some(hash))
    ensures Scanned(w, CommitValue(w, ctx, round, Some(hash)).work, ctx, [round])
    ensures CommitValue(w, ctx, round, Some(hash)).stopped <==>
      exists p :: BackedIn(w.state, ctx, p, [round]) && EntryControlFault(w.state, ctx, p.entry)
  {
    hide RecordInv, QuorumFor, QuorumOf, EntryControlFault, ValidCertified, AuthenticCertified, EffectsRecorded,
      OwnEntryRecorded, Grounded, Kept, CommitOnly;
    var s := w.state;
    CommitValueKept(w, ctx, known, round, Some(hash));
    RecordedHalt(s, ctx, known);
    forall p | BackedIn(s, ctx, p, [round]) ensures p.entry.hash == hash && p.entry.term == round {
      OneValueHasQuorum(s, ctx, known, round, Precommit, Some(p.entry.hash), Some(hash));
    }
    var found := ProposalAt(s.proposals, round, hash);
    if found.Some? {
      assert BackedIn(s, ctx, found.value, [round]);
      assert LeadsIn(s, ctx, found.value, [round]);
      QuorumCertifiesProposal(s, ctx, known, round, found.value);
      forall p | BackedIn(s, ctx, p, [round])
        ensures EntryControlFault(s, ctx, p.entry) <==> EntryControlFault(s, ctx, found.value.entry)
      {
        FaultOfHash(s, ctx, p.entry, found.value.entry);
      }
      FoundScanned(w, ctx, round, found.value);
    } else {
      assert CommitValue(w, ctx, round, Some(hash)).work == w.Emit(RequestProposal(round, hash));
      assert NewEffects(w, w.Emit(RequestProposal(round, hash))) == [RequestProposal(round, hash)];
    }
  }

  lemma RecordedHalt(s: State, ctx: Context, known: iset<Vote>)
    requires RecordInv(s, ctx, known)
    ensures s.halted.None? <==> s.haltKind.None?
  {
    hide RecordInv;
    RecordedCertificates(s, ctx, known);
  }

  lemma FaultOfHash(s: State, ctx: Context, a: Entry, b: Entry)
    requires a.hash == b.hash
    ensures EntryControlFault(s, ctx, a) <==> EntryControlFault(s, ctx, b)
  {
  }

  lemma FoundScanned(w: Work, ctx: Context, round: nat, p: Proposal)
    requires OrderedSeats(ctx.voters) && Live(w.state) && (w.state.halted.None? <==> w.state.haltKind.None?)
    requires ProposalAt(w.state.proposals, round, p.entry.hash) == Some(p) && p.entry.term == round
    requires QuorumFor(w.state, ctx, round, Precommit, Some(p.entry.hash)).Some?
    requires ValidCertified(CertifiedEntry(p.entry,
                                           QuorumFor(w.state, ctx, round, Precommit, Some(p.entry.hash)).value), ctx)
    ensures var s, t, c := w.state, CommitValue(w, ctx, round, Some(p.entry.hash)),
                           CertifiedEntry(p.entry, QuorumFor(w.state, ctx, round, Precommit, Some(p.entry.hash)).value);
      && w.effects <= t.work.effects
      && (t.stopped <==> EntryControlFault(s, ctx, p.entry))
      && (if EntryControlFault(s, ctx, p.entry) then
            && t.work.state.decision == s.decision && t.work.state.haltKind == Some(Terminal)
            && forall d :: Commit(d) !in NewEffects(w, t.work)
          else if s.decision.None? then
            t.work == Work(s.(decision := Some(c)), w.effects + [Commit(c)])
          else
            && t.work.state.decision == s.decision
            && (forall d :: Commit(d) !in NewEffects(w, t.work))
            && (if s.decision.value.entry.hash == p.entry.hash then t.work == w
                else t.work.state.haltKind == Some(Terminal)))
  {
    hide QuorumFor, ValidCertified, AuthenticCertified, ProposalAt;
    if w.state.haltKind.Some? {
      assert w.state.haltKind.value.Terminal?;
    }
  }

  // ---- all rounds ----

  predicate RoundsRise(rounds: seq<nat>) {
    forall i, j :: 0 <= i < j < |rounds| ==> rounds[i] < rounds[j]
  }

  lemma {:induction false} InsertRises(x: nat, xs: seq<nat>)
    requires RoundsRise(xs)
    ensures RoundsRise(InsertUp(x, xs))
  {
    if xs != [] && x > xs[0] {
      InsertRises(x, xs[1..]);
      var tail := InsertUp(x, xs[1..]);
      forall j | 0 <= j < |tail| ensures xs[0] < tail[j] {
        assert tail[j] in tail;
        if tail[j] != x {
          var k :| 0 <= k < |xs[1..]| && xs[1..][k] == tail[j];
          assert xs[0] < xs[k + 1];
        }
      }
    }
  }

  lemma {:induction false} RoundsAre(votes: seq<Vote>)
    ensures RoundsRise(PrecommitRounds(votes))
    ensures forall v :: v in votes && v.phase == Precommit ==> v.term in PrecommitRounds(votes)
  {
    if votes != [] {
      RoundsAre(votes[1..]);
      if votes[0].phase == Precommit {
        InsertRises(votes[0].term, PrecommitRounds(votes[1..]));
      }
      forall v | v in votes && v.phase == Precommit ensures v.term in PrecommitRounds(votes) {
        if v != votes[0] {
          assert v in votes[1..];
        }
      }
    }
  }

  /** A round with no quorum adds nothing. */
  lemma SkippedRound(w: Work, t: Work, ctx: Context, round: nat, rest: seq<nat>)
    requires OrderedSeats(ctx.voters) && Scanned(w, t, ctx, rest)
    requires forall h :: !QuorumOf(w.state, ctx, round, Precommit, Some(h))
    ensures Scanned(w, t, ctx, [round] + rest)
  {
    hide QuorumOf, EntryControlFault;
    var s, rounds := w.state, [round] + rest;
    forall p ensures BackedIn(s, ctx, p, rounds) <==> BackedIn(s, ctx, p, rest) {
      if p.entry.term == round {
        assert !QuorumOf(s, ctx, round, Precommit, Some(p.entry.hash));
      }
    }
    forall p ensures LeadsIn(s, ctx, p, rounds) <==> LeadsIn(s, ctx, p, rest) {
    }
  }

  /** What is backed depends on votes and proposals, which no commit changes; so does a control fault. */
  lemma SameBacked(s: State, t: State, ctx: Context, rounds: seq<nat>)
    requires OrderedSeats(ctx.voters) && CommitOnly(s, t)
    ensures forall p :: BackedIn(t, ctx, p, rounds) <==> BackedIn(s, ctx, p, rounds)
    ensures forall e :: EntryControlFault(t, ctx, e) <==> EntryControlFault(s, ctx, e)
  {
  }

  lemma EffectsCompose(w: Work, u: Work, t: Work)
    requires w.effects <= u.effects && u.effects <= t.effects
    ensures w.effects <= t.effects
    ensures forall e :: e in NewEffects(w, t) <==> e in NewEffects(w, u) || e in NewEffects(u, t)
  {
    assert NewEffects(w, t) == NewEffects(w, u) + NewEffects(u, t);
  }

  /** A later round finds what an earlier one decided. */
  lemma RoundsCompose(w: Work, u: Work, t: Work, ctx: Context, round: nat, rest: seq<nat>)
    requires OrderedSeats(ctx.voters) && Scanned(w, u, ctx, [round]) && Scanned(u, t, ctx, rest)
    requires forall r :: r in rest ==> round < r
    requires forall p :: BackedIn(w.state, ctx, p, [round]) ==> !EntryControlFault(w.state, ctx, p.entry)
    requires w.state.halted.None? <==> w.state.haltKind.None?
    ensures Scanned(w, t, ctx, [round] + rest)
  {
    hide Backed, EntryControlFault;
    var s, rounds := w.state, [round] + rest;
    SameBacked(s, u.state, ctx, rest);
    EffectsCompose(w, u, t);
    forall p ensures BackedIn(s, ctx, p, rounds) <==> BackedIn(s, ctx, p, [round]) || BackedIn(s, ctx, p, rest) {
    }
    LeadersCompose(s, u.state, ctx, round, rest);
  }

  lemma LeadersCompose(s: State, u: State, ctx: Context, round: nat, rest: seq<nat>)
    requires OrderedSeats(ctx.voters) && CommitOnly(s, u) && forall r :: r in rest ==> round < r
    ensures forall p :: BackedIn(s, ctx, p, [round]) ==>
      (LeadsIn(s, ctx, p, [round]) && LeadsIn(s, ctx, p, [round] + rest))
    ensures (forall p :: !BackedIn(s, ctx, p, [round])) ==>
      forall p :: LeadsIn(s, ctx, p, [round] + rest) <==> LeadsIn(u, ctx, p, rest)
    ensures (exists p :: BackedIn(s, ctx, p, [round])) ==>
      forall p :: LeadsIn(s, ctx, p, [round] + rest) ==> BackedIn(s, ctx, p, [round])
  {
    hide Backed;
    SameBacked(s, u, ctx, rest);
    forall p
      ensures BackedIn(s, ctx, p, [round] + rest) <==> BackedIn(s, ctx, p, [round]) || BackedIn(s, ctx, p, rest)
    {
    }
    forall p | LeadsIn(s, ctx, p, [round] + rest) && exists q :: BackedIn(s, ctx, q, [round])
      ensures BackedIn(s, ctx, p, [round])
    {
      var q :| BackedIn(s, ctx, q, [round]);
      assert p.entry.term <= q.entry.term;
    }
  }

  lemma NothingScanned(w: Work, ctx: Context)
    requires OrderedSeats(ctx.voters) && Live(w.state)
    ensures Scanned(w, w, ctx, [])
  {
    hide Backed, EntryControlFault;
  }

  /** A round whose backed proposal is at fault ends the scan. */
  lemma FaultEnds(w: Work, u: Work, ctx: Context, round: nat, rest: seq<nat>, p: Proposal)
    requires OrderedSeats(ctx.voters) && Scanned(w, u, ctx, [round]) && forall r :: r in rest ==> round < r
    requires BackedIn(w.state, ctx, p, [round]) && EntryControlFault(w.state, ctx, p.entry)
    ensures Scanned(w, u, ctx, [round] + rest)
  {
    hide Backed, EntryControlFault;
    var s, rounds := w.state, [round] + rest;
    LeadersCompose(s, u.state, ctx, round, rest);
    assert BackedIn(s, ctx, p, rounds);
    assert LeadsIn(s, ctx, p, [round]);
  }

  lemma {:induction false} RoundsScanned(w: Work, ctx: Context, known: iset<Vote>, rounds: seq<nat>)
    requires Good(w, ctx, known) && Live(w.state) && RoundsRise(rounds)
    ensures Scanned(w, CommitRounds(w, ctx, rounds).work, ctx, rounds)
    decreases |rounds|
  {
    hide RecordInv, CommitValue, CommitValues, QuorumOf, EntryControlFault, Scanned, EffectsRecorded, VotesAt, ValuesOf,
      QuorumFor, Extends;
    if rounds == [] {
      NothingScanned(w, ctx);
    } else {
      var round, rest := rounds[0], rounds[1..];
      assert rounds == [round] + rest;
      var hash := RoundScanned(w, ctx, known, round);
      if hash.None? {
        RoundsScanned(w, ctx, known, rest);
        SkippedRound(w, CommitRounds(w, ctx, rest).work, ctx, round, rest);
      } else {
        ValueScanned(w, ctx, known, round, hash.value);
        CommitValueKept(w, ctx, known, round, hash);
        RecordedHalt(w.state, ctx, known);
        var first := CommitValue(w, ctx, round, hash);
        if first.stopped {
          var p :| BackedIn(w.state, ctx, p, [round]) && EntryControlFault(w.state, ctx, p.entry);
          FaultEnds(w, first.work, ctx, round, rest, p);
        } else {
          RoundsScanned(first.work, ctx, known, rest);
          RoundsCompose(w, first.work, CommitRounds(first.work, ctx, rest).work, ctx, round, rest);
        }
      }
    }
  }

  // ---- the commit of a record ----

  /** Of the backed proposals, one of the earliest round. */
  ghost predicate Leads(s: State, ctx: Context, p: Proposal)
    requires OrderedSeats(ctx.voters)
  {
    Backed(s, ctx, p) && forall q :: Backed(s, ctx, q) ==> p.entry.term <= q.entry.term
  }

  /** Every backed proposal is for one value, and none carries evidence that stops this record. */
  ghost predicate Calm(s: State, ctx: Context)
    requires OrderedSeats(ctx.voters)
  {
    && (forall p :: Backed(s, ctx, p) ==> !EntryControlFault(s, ctx, p.entry))
    && forall p, q :: Backed(s, ctx, p) && Backed(s, ctx, q) ==> p.entry.hash == q.entry.hash
  }

  lemma AllRounds(s: State, ctx: Context)
    requires OrderedSeats(ctx.voters)
    ensures forall p :: BackedIn(s, ctx, p, PrecommitRounds(s.votes)) <==> Backed(s, ctx, p)
    ensures forall p :: LeadsIn(s, ctx, p, PrecommitRounds(s.votes)) <==> Leads(s, ctx, p)
  {
    hide QuorumOf;
    RoundsAre(s.votes);
    forall p | Backed(s, ctx, p) ensures BackedIn(s, ctx, p, PrecommitRounds(s.votes)) {
      QuorumHasVote(s, ctx, p.entry.term, Precommit, Some(p.entry.hash));
    }
  }

  lemma {:induction false} EarliestBacked(s: State, ctx: Context, p: Proposal) returns (q: Proposal)
    requires OrderedSeats(ctx.voters) && Backed(s, ctx, p)
    ensures Leads(s, ctx, q)
    decreases p.entry.term
  {
    hide Backed;
    if x :| Backed(s, ctx, x) && x.entry.term < p.entry.term {
      q := EarliestBacked(s, ctx, x);
    } else {
      q := p;
    }
  }

  lemma AllScanned(w: Work, t: Work, ctx: Context, rounds: seq<nat>)
    requires OrderedSeats(ctx.voters) && Scanned(w, t, ctx, rounds)
    requires forall p :: BackedIn(w.state, ctx, p, rounds) <==> Backed(w.state, ctx, p)
    requires forall p :: LeadsIn(w.state, ctx, p, rounds) <==> Leads(w.state, ctx, p)
    ensures var s := w.state;
      && CommitOnly(s, t.state) && w.effects <= t.effects
      && (s.decision.Some? ==> t.state.decision == s.decision)
      && (s.decision.None? ==>
            && (t.state.decision.Some? <==> exists p :: Leads(s, ctx, p) && !EntryControlFault(s, ctx, p.entry))
            && (t.state.decision.Some? ==> exists p :: Leads(s, ctx, p) && t.state.decision.value.entry == p.entry))
      && (forall c :: Commit(c) in NewEffects(w, t) <==> s.decision.None? && t.state.decision == Some(c))
    ensures var s := w.state;
      if forall p :: Backed(s, ctx, p) ==>
        !EntryControlFault(s, ctx, p.entry) && t.state.decision.Some?
          && t.state.decision.value.entry.hash == p.entry.hash
      then SameHalt(s, t.state) else t.state.haltKind == Some(Terminal)
  {
    hide Backed, EntryControlFault, LeadsIn, BackedIn, Leads;
    var s := w.state;
    if s.decision.None? && t.state.decision.Some? {
      var p :| LeadsIn(s, ctx, p, rounds) && t.state.decision.value.entry == p.entry;
      assert Leads(s, ctx, p);
    }
  }

  /**
   * An undecided record decides exactly when some recorded proposal has a quorum of recorded precommits for its round
   * and value and the earliest such proposal carries no evidence that stops this record. It decides that proposal's
   * entry, and hands out the commit of it and of nothing else. A decided record keeps its decision. Everything
   * else stays; only a backed proposal that is at fault or of another value stops the record for good.
   */
  lemma MaybeCommitDecides(w: Work, ctx: Context, known: iset<Vote>)
    requires Good(w, ctx, known) && Live(w.state)
    ensures var s, t := w.state, MaybeCommit(w, ctx);
      && CommitOnly(s, t.state) && w.effects <= t.effects
      && (s.decision.Some? ==> t.state.decision == s.decision)
      && (s.decision.None? ==>
            && (t.state.decision.Some? <==> exists p :: Leads(s, ctx, p) && !EntryControlFault(s, ctx, p.entry))
            && (t.state.decision.Some? ==> exists p :: Leads(s, ctx, p) && t.state.decision.value.entry == p.entry))
      && (forall c :: Commit(c) in NewEffects(w, t) <==> s.decision.None? && t.state.decision == Some(c))
    ensures var s, t := w.state, MaybeCommit(w, ctx).state;
      if forall p :: Backed(s, ctx, p) ==>
        !EntryControlFault(s, ctx, p.entry) && t.decision.Some? && t.decision.value.entry.hash == p.entry.hash
      then SameHalt(s, t) else t.haltKind == Some(Terminal)
  {
    hide RecordInv, CommitRounds, Backed, EntryControlFault, EffectsRecorded;
    var s, rounds := w.state, PrecommitRounds(w.state.votes);
    RoundsAre(s.votes);
    RoundsScanned(w, ctx, known, rounds);
    AllRounds(s, ctx);
    AllScanned(w, MaybeCommit(w, ctx), ctx, rounds);
  }

  /** Where all backed proposals agree and none is at fault, deciding is having a backed proposal, and nothing halts. */
  lemma CalmDecides(w: Work, ctx: Context, known: iset<Vote>)
    requires Good(w, ctx, known) && Live(w.state) && w.state.decision.None? && Calm(w.state, ctx)
    ensures var s, t := w.state, MaybeCommit(w, ctx);
      && SameHalt(s, t.state) && t.state == s.(decision := t.state.decision)
      && (t.state.decision.Some? <==> exists p :: Backed(s, ctx, p))
      && (t.state.decision.Some? ==> exists p :: Backed(s, ctx, p) && t.state.decision.value.entry == p.entry)
      && w.effects <= t.effects
      && (forall c :: Commit(c) in NewEffects(w, t) <==> t.state.decision == Some(c))
  {
    hide RecordInv, MaybeCommit, Backed, EntryControlFault, EffectsRecorded;
    MaybeCommitDecides(w, ctx, known);
    if p :| Backed(w.state, ctx, p) {
      var q := EarliestBacked(w.state, ctx, p);
      assert Leads(w.state, ctx, q);
    }
  }

  // ---- missing proposals ----

  /** A quorum precommitted a value of which no proposal is recorded. */
  predicate Missing(s: State, ctx: Context, round: nat, hash: Hash)
    requires OrderedSeats(ctx.voters)
  {
    QuorumOf(s, ctx, round, Precommit, Some(hash)) && ProposalAt(s.proposals, round, hash).None?
  }

  lemma ValueAsks(w: Work, ctx: Context, known: iset<Vote>, round: nat, hash: Hash, r: nat, h: Hash)
    requires Good(w, ctx, known) && QuorumOf(w.state, ctx, round, Precommit, Some(hash))
    requires QuorumFor(w.state, ctx, round, Precommit, Some(hash)).Some?
    ensures var t := CommitValue(w, ctx, round, Some(hash)).work;
      && w.effects <= t.effects && t.state.votes == w.state.votes && t.state.proposals == w.state.proposals
      && (RequestProposal(r, h) in NewEffects(w, t) <==> r == round && h == hash && Missing(w.state, ctx, r, h))
  {
    hide RecordInv, QuorumFor, QuorumOf, ValidCertified, AuthenticCertified, EffectsRecorded, ProposalAt;
  }

  lemma {:induction false} RoundsAsk(w: Work, ctx: Context, known: iset<Vote>, rounds: seq<nat>, r: nat, h: Hash)
    requires Good(w, ctx, known) && Live(w.state) && RoundsRise(rounds)
    requires forall p :: Backed(w.state, ctx, p) ==> !EntryControlFault(w.state, ctx, p.entry)
    ensures var t := CommitRounds(w, ctx, rounds).work;
      && w.effects <= t.effects
      && (RequestProposal(r, h) in NewEffects(w, t) <==> r in rounds && Missing(w.state, ctx, r, h))
    decreases |rounds|
  {
    hide RecordInv, CommitValue, CommitValues, QuorumOf, EntryControlFault, EffectsRecorded, VotesAt, ValuesOf,
      QuorumFor, Extends, Scanned, ProposalAt;
    if rounds != [] {
      var round, rest := rounds[0], rounds[1..];
      assert forall x :: x in rounds <==> x == round || x in rest;
      var hash := RoundScanned(w, ctx, known, round);
      if hash.None? {
        RoundsAsk(w, ctx, known, rest, r, h);
        assert !QuorumOf(w.state, ctx, round, Precommit, Some(h));
      } else {
        ValueScanned(w, ctx, known, round, hash.value);
        CommitValueKept(w, ctx, known, round, hash);
        ValueAsks(w, ctx, known, round, hash.value, r, h);
        var first := CommitValue(w, ctx, round, hash).work;
        SameBacked(w.state, first.state, ctx, rounds);
        StillCalm(w.state, first.state, ctx);
        RoundsAsk(first, ctx, known, rest, r, h);
        EffectsCompose(w, first, CommitRounds(first, ctx, rest).work);
        SameMissing(w.state, first.state, ctx, r, h);
        if r == round && QuorumOf(w.state, ctx, r, Precommit, Some(h)) {
          OneValueHasQuorum(w.state, ctx, known, r, Precommit, Some(h), hash);
        }
      }
    }
  }

  lemma StillCalm(s: State, t: State, ctx: Context)
    requires OrderedSeats(ctx.voters) && CommitOnly(s, t)
    requires forall p :: Backed(s, ctx, p) ==> !EntryControlFault(s, ctx, p.entry)
    ensures forall p :: Backed(t, ctx, p) ==> !EntryControlFault(t, ctx, p.entry)
  {
    forall p | Backed(t, ctx, p) ensures !EntryControlFault(t, ctx, p.entry) {
      assert Backed(s, ctx, p);
    }
  }

  lemma SameMissing(s: State, t: State, ctx: Context, round: nat, hash: Hash)
    requires OrderedSeats(ctx.voters) && s.votes == t.votes && s.proposals == t.proposals
    ensures Missing(s, ctx, round, hash) <==> Missing(t, ctx, round, hash)
  {
  }

  /** A record asks for exactly the proposals that a quorum precommitted and it does not hold. */
  lemma MaybeCommitAsks(w: Work, ctx: Context, known: iset<Vote>, round: nat, hash: Hash)
    requires Good(w, ctx, known) && Live(w.state)
    requires forall p :: Backed(w.state, ctx, p) ==> !EntryControlFault(w.state, ctx, p.entry)
    ensures var t := MaybeCommit(w, ctx);
      && w.effects <= t.effects
      && (RequestProposal(round, hash) in NewEffects(w, t) <==> Missing(w.state, ctx, round, hash))
  {
    hide RecordInv, CommitRounds, EntryControlFault, EffectsRecorded, QuorumOf;
    RoundsAre(w.state.votes);
    RoundsAsk(w, ctx, known, PrecommitRounds(w.state.votes), round, hash);
    if Missing(w.state, ctx, round, hash) {
      QuorumHasVote(w.state, ctx, round, Precommit, Some(hash));
    }
  }
}
