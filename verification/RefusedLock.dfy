/** A concrete height on which a local policy leaves a record that cannot be restored. */
module RefusedLock {
  import opened Results
  import opened Votes
  import opened Proposals
  import opened Consensus
  import opened Transitions
  import opened ConsensusRestore
  import opened ConsensusRecord
  import opened ConsensusEvents
  import opened ConsensusLocks
  import opened LockRule

  const VALUE: Hash := 7

  /** Four voters, none excluded; every value is valid. */
  function Table(): Context {
    Context([0, 1, 2, 3], [], 0, 0, 0, true, (e: Entry) => true, (h: Hash) => None, (h: Hash) => true,
            (p: Proposal) => false,
            (c: Control) => None)
  }

  function TheProposal(): Proposal {
    Proposal(Entry(0, 1, 1, VALUE), None, [])
  }

  function PrevoteBy(seat: Seat): Vote {
    Vote(seat, 1, 1, Prevote, Some(VALUE))
  }

  /** Seat 3 prevoted nil because its policy rejects the value; seats 0 and 1 prevoted it. */
  function Refusing(): State {
    State(0, 1, 0, 3, 1, AtPrevote, true, Timers(false, false, false), [TheProposal()],
          [Vote(3, 1, 1, Prevote, None), PrevoteBy(0), PrevoteBy(1)], [], [], None, None, None, None, None, None, None,
            None)
  }

  function Never(): Admission {
    Some((p: Proposal) => false)
  }

  ghost function Cast(): iset<Vote> {
    iset{PrevoteBy(0), PrevoteBy(1), PrevoteBy(2)}
  }

  lemma {:induction false} NoneExcluded(seats: seq<Seat>)
    ensures Without(seats, []) == seats
  {
    if seats != [] {
      NoneExcluded(seats[..|seats| - 1]);
    }
  }

  lemma TableFacts()
    ensures Table().WellFormed() && Table().height == 1 && ValidProposal(TheProposal(), Table())
  {
    NoneExcluded(Table().voters);
    assert ProposerFor(1, 1, Table()) == Some(0);
  }

  lemma {:induction false} FewAt(proposals: seq<Proposal>, round: nat)
    ensures |ProposalsAt(proposals, round)| <= |proposals|
  {
  }

  /** The votes of the table, as its seats signed them. */
  lemma RefusingVotes()
    ensures var s := Refusing(); VotesInv(s.votes, 1, 1, Table()) && StepInv(s.step, s.votes, 3, 1)
    ensures forall v :: v in Refusing().votes ==>
      v.phase == Prevote && (v.seat == 3 ==> v.value.None?) && (v.seat != 3 ==> v in Cast())
  {
    var s := Refusing();
    assert s.votes == [Vote(3, 1, 1, Prevote, None), PrevoteBy(0), PrevoteBy(1)];
    assert s.votes[0] in s.votes;
  }

  lemma RefusingLocks()
    ensures var s := Refusing();
      && OrderedSeats(Table().voters) && LockInv(s.votes, s.locked, s.step, 1, 3, 1, Table(), Cast())
      && CommitsProposed(s.votes, s.proposals, 3)
  {
    hide Supported, Justified, VotesInv, StepInv, Cast;
    RefusingVotes();
  }

  lemma RefusingProposals()
    ensures var s := Refusing();
      OrderedSeats(Table().voters) && ProposalsInv(s.proposals, s.votes, 1, 3, 1, Table(), Cast())
  {
    hide Table, ValidProposal;
    TableFacts();
    var s := Refusing();
    forall round: nat ensures |ProposalsAt(s.proposals, round)| <= 2 {
      FewAt(s.proposals, round);
    }
  }

  lemma RefusingIsRecord()
    ensures RecordInv(Refusing(), Table(), Cast())
  {
    hide VotesInv, StepInv, LockInv, CommitsProposed, ProposalsInv, ValidProposal;
    TableFacts();
    RefusingVotes();
    RefusingLocks();
    RefusingProposals();
  }

  lemma PushAt(votes: seq<Vote>, v: Vote, round: nat, phase: Phase)
    ensures VotesAt(votes + [v], round, phase) == VotesAt(votes, round, phase)
      + (if v.term == round && v.phase == phase then [v] else [])
  {
    assert (votes + [v])[..|votes|] == votes;
  }

  lemma PushValue(votes: seq<Vote>, v: Vote, value: Option<Hash>)
    ensures WithValue(votes + [v], value) == WithValue(votes, value) + (if v.value == value then [v] else [])
  {
    assert (votes + [v])[..|votes|] == votes;
  }

  /** One more prevote of round one, counted in both lists. */
  lemma PushPrevote(votes: seq<Vote>, v: Vote)
    requires VotesAt(votes, 1, Prevote) == votes && v.term == 1 && v.phase == Prevote
    ensures VotesAt(votes + [v], 1, Prevote) == votes + [v]
    ensures |WithValue(votes + [v], Some(VALUE))| == |WithValue(votes, Some(VALUE))|
      + (if v.value == Some(VALUE) then 1 else 0)
  {
    PushAt(votes, v, 1, Prevote);
    PushValue(votes, v, Some(VALUE));
  }

  lemma NoVotesYet()
    ensures VotesAt([], 1, Prevote) == [] && WithValue([], Some(VALUE)) == []
  {
  }

  lemma RefusingQuorum()
    ensures |WithValue(VotesAt(Refused().votes, 1, Prevote), Some(VALUE))| == 3
  {
    var none, one, two, three := Vote(3, 1, 1, Prevote, None), PrevoteBy(0), PrevoteBy(1), PrevoteBy(2);
    hide VotesAt, WithValue;
    NoVotesYet();
    PushPrevote([], none);
    assert [] + [none] == [none];
    PushPrevote([none], one);
    assert [none] + [one] == [none, one];
    PushPrevote([none, one], two);
    assert [none, one] + [two] == [none, one, two];
    PushPrevote([none, one, two], three);
    assert Refused().votes == [none, one, two] + [three];
  }

  lemma {:induction false} NoPrecommits(votes: seq<Vote>)
    requires forall v :: v in votes ==> v.phase == Prevote
    ensures PrecommitRounds(votes) == []
  {
    if votes != [] {
      NoPrecommits(votes[1..]);
    }
  }

  function Refused(): State {
    Refusing().(votes := Refusing().votes + [PrevoteBy(2)])
  }

  lemma StagedRefusal()
    ensures OrderedSeats(Table().voters)
    ensures Stage(Refusing(), Table(), ReceiveVote(PrevoteBy(2)), Never()) == Ok(ToDrive(Work(Refused(), [])))
  {
    var s, ctx, vote := Refusing(), Table(), PrevoteBy(2);
    assert VoteOf(s.votes, 2, 1, Prevote).None?;
    var w := Work(Refused(), []);
    assert Equivocators(w.state, ctx) == {};
    assert HaltIfFaultThresholdExceeded(w, ctx) == w;
    assert OnVote(Work(s, []), ctx, vote) == Ok(ToDrive(w));
  }

  lemma RefusingDrives()
    ensures OrderedSeats(Table().voters)
    ensures MaybeCommit(Work(Refused(), []), Table()) == Work(Refused(), [])
    ensures PrevoteWaiting(Work(Refused(), []), Never()) == Work(Refused(), [])
    ensures ProposalsAt(Refused().proposals, 1) == [TheProposal()]
  {
    var t := Refused();
    NoPrecommits(t.votes);
    assert t.proposals[..0] == [];
  }

  lemma RefusingRefuses()
    ensures OrderedSeats(Table().voters) && EventRefuses(Refusing(), Table(), ReceiveVote(PrevoteBy(2)), Never())
  {
    hide Stage, MaybeCommit, PrevoteWaiting, VotesAt, WithValue, ProposalsAt, LockValue;
    StagedRefusal();
    RefusingDrives();
    var t, ctx := Refused(), Table();
    RefusingQuorum();
    assert QuorumFor(t, ctx, 1, Prevote, Some(VALUE)).Some?;
    assert OwnVote(t, Precommit).None?;
    assert RefusesLock(Work(t, []), ctx, TheProposal(), Never());
  }

  /** The third prevote makes seat 3 lock a value its policy refuses to precommit: the new record cannot be restored. */
  lemma RefusalBreaksRestart()
    ensures var s, ctx := Refusing(), Table();
            && OrderedSeats(ctx.voters)
            && RestoreState(s, ctx, 3).Ok?
            && var t := Reduce(s, ctx, ReceiveVote(PrevoteBy(2)), Never());
                 t.Ok? && RestoreState(t.value.state, ctx, 3).Err?
  {
    hide RecordInv, RestoreState, EventRefuses, Drive, Stage;
    var s, ctx, event := Refusing(), Table(), ReceiveVote(PrevoteBy(2));
    RefusingIsRecord();
    RefusingRefuses();
    StagedRefusal();
    RestorableIffLockVoted(s, ctx, Cast());
    ReduceKept(s, ctx, Cast(), event, Never());
    StepRestorable(s, ctx, Cast(), event, Never());
  }
}
