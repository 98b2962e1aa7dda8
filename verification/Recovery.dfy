/** The messages and timers a restarted voter repeats (recoverConsensusEffects, packages/protocol/src/consensus.ts). */
module Recovery {
  import opened Results
  import opened Votes
  import opened Proposals
  import opened Consensus
  import opened ConsensusRestore

  /** A signed record with its place in the retransmission order. */
  datatype Signed = Signed(round: nat, order: nat, effect: Effect)

  /** Later rounds first, and a round's proposal before its votes. */
  predicate Before(a: Signed, b: Signed) {
    a.round > b.round || (a.round == b.round && a.order <= b.order)
  }

  function InsertSigned(x: Signed, xs: seq<Signed>): (r: seq<Signed>)
    ensures forall y :: y in r <==> y == x || y in xs
  {
    if xs == [] || Before(x, xs[0]) then [x] + xs else [xs[0]] + InsertSigned(x, xs[1..])
  }

  /** A stable sort: equal places keep their order. */
  function SortSigned(xs: seq<Signed>): (r: seq<Signed>)
    ensures forall y :: y in r <==> y in xs
  {
    if xs == [] then [] else InsertSigned(xs[0], SortSigned(xs[1..]))
  }

  function OwnProposals(proposals: seq<Proposal>, seat: Seat): (r: seq<Signed>)
    ensures forall x :: x in r <==>
      exists p :: p in proposals && p.entry.sequencer == seat && x == Signed(p.entry.term, 0, BroadcastProposal(p))
  {
    if proposals == [] then []
    else
      var p := proposals[0];
      (if p.entry.sequencer == seat then [Signed(p.entry.term, 0, BroadcastProposal(p))] else [])
        + OwnProposals(proposals[1..], seat)
  }

  function OwnVotes(votes: seq<Vote>, seat: Seat): (r: seq<Signed>)
    ensures forall x :: x in r <==> exists v :: v in votes && v.seat == seat && x == Signed(v.term, 1, BroadcastVote(v))
  {
    if votes == [] then []
    else
      var v := votes[0];
      (if v.seat == seat then [Signed(v.term, 1, BroadcastVote(v))] else []) + OwnVotes(votes[1..], seat)
  }

  function EffectsOf(xs: seq<Signed>): (r: seq<Effect>)
    ensures |r| == |xs| && forall i :: 0 <= i < |xs| ==> r[i] == xs[i].effect
  {
    seq(|xs|, i requires 0 <= i < |xs| => xs[i].effect)
  }

  function SignedRecords(s: State): seq<Signed> {
    SortSigned(OwnProposals(s.proposals, s.seat) + OwnVotes(s.votes, s.seat))
  }

  function Rearmed(s: State, ctx: Context): seq<Effect> {
    (if s.step == AtPropose && s.timers.propose then [ScheduleTimeout(AtPropose, s.round)] else [])
    + (if s.step != AtPrecommit && s.timers.prevote then [ScheduleTimeout(AtPrevote, s.round)] else [])
    + (if s.timers.precommit then [ScheduleTimeout(AtPrecommit, s.round)] else [])
    + (if && s.step == AtPropose && ProposerFor(s.height, s.round, ctx) == Some(s.seat)
          && !(exists p :: p in s.proposals && p.entry.term == s.round && p.entry.sequencer == s.seat)
       then [RequestValue(s.round, ValidHash(s))] else [])
  }

  function RecoverEffects(s: State, ctx: Context): Result<seq<Effect>>
    requires OrderedSeats(ctx.voters)
  {
    match RestoreState(s, ctx, s.seat)
    case Err(code) => Err(code)
    case Ok(current) =>
      if current.halted.Some? then Ok([HaltEffect(current.halted.value)])
      else
        var signed := EffectsOf(SignedRecords(current));
        Ok(if current.decision.Some? then signed + [Commit(current.decision.value)] else signed + Rearmed(current, ctx))
  }

  lemma RepeatedIff(s: State, e: Effect)
    ensures e in EffectsOf(SignedRecords(s)) <==>
      exists x :: (x in OwnProposals(s.proposals, s.seat) || x in OwnVotes(s.votes, s.seat)) && x.effect == e
  {
    var signed := SignedRecords(s);
    var effects := EffectsOf(signed);
    forall x | x in OwnProposals(s.proposals, s.seat) || x in OwnVotes(s.votes, s.seat) ensures x.effect in effects {
      assert x in signed;
      var i :| 0 <= i < |signed| && signed[i] == x;
      assert effects[i] == x.effect;
    }
    if e in effects {
      var i :| 0 <= i < |effects| && effects[i] == e;
      assert signed[i] in signed;
    }
  }

  /** Recovery repeats every own vote and proposal of a running record, and signs nothing new. */
  lemma RecoveryRepeats(s: State, ctx: Context, vote: Vote, proposal: Proposal)
    requires OrderedSeats(ctx.voters) && RecoverEffects(s, ctx).Ok? && RestoreState(s, ctx, s.seat).value.halted.None?
    ensures BroadcastVote(vote) in RecoverEffects(s, ctx).value <==> vote in s.votes && vote.seat == s.seat
    ensures BroadcastProposal(proposal) in RecoverEffects(s, ctx).value <==>
      proposal in s.proposals && proposal.entry.sequencer == s.seat
  {
    hide RestoreState, SignedRecords, EffectsOf;
    RestoreKeepsRecord(s, ctx, s.seat);
    RepeatedIff(s, BroadcastVote(vote));
    RepeatedIff(s, BroadcastProposal(proposal));
    assert vote in s.votes && vote.seat == s.seat ==>
      Signed(vote.term, 1, BroadcastVote(vote)) in OwnVotes(s.votes, s.seat);
    assert proposal in s.proposals && proposal.entry.sequencer == s.seat ==>
      Signed(proposal.entry.term, 0, BroadcastProposal(proposal)) in OwnProposals(s.proposals, s.seat);
  }

  ghost predicate InOrder(xs: seq<Signed>) {
    forall i, j :: 0 <= i < j < |xs| ==> Before(xs[i], xs[j])
  }

  lemma {:induction false} InsertKeepsOrder(x: Signed, xs: seq<Signed>)
    requires InOrder(xs)
    ensures InOrder(InsertSigned(x, xs))
  {
    if xs != [] && !Before(x, xs[0]) {
      InsertKeepsOrder(x, xs[1..]);
      var tail := InsertSigned(x, xs[1..]);
      forall j | 0 <= j < |tail| ensures Before(xs[0], tail[j]) {
        assert tail[j] in tail;
        if tail[j] != x {
          var k :| 0 <= k < |xs[1..]| && xs[1..][k] == tail[j];
          assert xs[k + 1] == tail[j];
        }
      }
    }
  }

  /** Retransmission goes from the latest round down, each round's proposal before its votes. */
  lemma {:induction false} RecoveryIsOrdered(xs: seq<Signed>)
    ensures InOrder(SortSigned(xs))
  {
    if xs != [] {
      RecoveryIsOrdered(xs[1..]);
      InsertKeepsOrder(xs[0], SortSigned(xs[1..]));
    }
  }

  /** The place of a signed message in the order of retransmission. */
  function PlaceOf(e: Effect): Option<Signed> {
    match e
    case BroadcastVote(v) => Some(Signed(v.term, 1, e))
    case BroadcastProposal(p) => Some(Signed(p.entry.term, 0, e))
    case _ => None
  }

  lemma RecordsPlaced(s: State)
    ensures forall x :: x in SignedRecords(s) ==> PlaceOf(x.effect) == Some(x)
  {
    forall x | x in SignedRecords(s) ensures PlaceOf(x.effect) == Some(x) {
      assert x in OwnProposals(s.proposals, s.seat) + OwnVotes(s.votes, s.seat);
    }
  }

  /**
   * What a restarted voter sends again goes from its latest round down, in each round the proposal before its votes.
   */
  lemma RecoveryDescends(s: State, ctx: Context, i: nat, j: nat)
    requires OrderedSeats(ctx.voters) && RecoverEffects(s, ctx).Ok? && i < j < |RecoverEffects(s, ctx).value|
    requires PlaceOf(RecoverEffects(s, ctx).value[i]).Some? && PlaceOf(RecoverEffects(s, ctx).value[j]).Some?
    ensures Before(PlaceOf(RecoverEffects(s, ctx).value[i]).value, PlaceOf(RecoverEffects(s, ctx).value[j]).value)
  {
    hide RestoreState, ProposerFor;
    var t, r := RestoreState(s, ctx, s.seat).value, RecoverEffects(s, ctx).value;
    var signed := SignedRecords(t);
    RecoveryIsOrdered(OwnProposals(t.proposals, t.seat) + OwnVotes(t.votes, t.seat));
    RecordsPlaced(t);
    assert t.halted.None?;
    assert i < |signed| && j < |signed|;
    assert r[i] == signed[i].effect && r[j] == signed[j].effect;
    assert signed[i] in signed && signed[j] in signed;
  }
}
