/**
 * One height as a whole: every correct voter with its durable record, any number of controllers on
 * that record, and the messages it has broadcast. The step functions are the stages of
 * packages/protocol/src/consensus-controller.ts, so a crash can fall between any two of them.
 */
module Network {
  import opened Results
  import opened Votes
  import opened Proposals
  import opened Consensus
  import opened Transitions
  import opened ConsensusRestore
  import opened Recovery

  datatype Stored = Stored(revision: nat, record: State)

  /** `Loading` holds bytes that are not yet checked; `Written` is saved but not fully emitted. */
  datatype Progress = Loading | Idle | Reduced(next: Work) | Written(next: Work)

  datatype Controller = Controller(revision: nat, state: State, progress: Progress)

  datatype Voter = Voter(store: Option<Stored>, controllers: map<nat, Controller>, votes: set<Vote>,
                         proposals: set<Proposal>)

  /** Seats without a voter here may sign anything. */
  datatype System = System(ctx: Context, voters: map<Seat, Voter>)

  datatype Action =
    | Create(id: nat, proven: Option<ProvenOffender>, pending: Option<Control>)
    | Load(id: nat)
    | Open(id: nat)
    | Dispatch(id: nat, event: Event, admit: Admission)
    | Discard(id: nat)
    | Save(id: nat)
    | EmitOne(id: nat, index: nat)
    | Settled(id: nat)
    | ResumeOne(id: nat, index: nat)
    | Crash(id: nat)

  datatype Move = Move(seat: Seat, action: Action)

  /** The compare-and-swap of the safety store. */
  function CompareAndSwap(store: Option<Stored>, expected: Option<nat>, record: State): Option<Stored> {
    match (store, expected)
    case (None, None) => Some(Stored(0, record))
    case (Some(current), Some(revision)) =>
      if current.revision == revision then Some(Stored(revision + 1, record)) else None
    case _ => None
  }

  function Send(v: Voter, effect: Effect): Voter {
    match effect
    case BroadcastVote(vote) => v.(votes := v.votes + {vote})
    case BroadcastProposal(proposal) => v.(proposals := v.proposals + {proposal})
    case _ => v
  }

  function Put(v: Voter, id: nat, c: Controller): Voter {
    v.(controllers := v.controllers[id := c])
  }

  function Drop(v: Voter, id: nat): Voter {
    v.(controllers := v.controllers - {id})
  }

  /**
   * What the height before hands on (replicated-log.ts:4079-4095): an accusation proved below this height, which
   * is no longer pending only when some accusation was committed.
   */
  predicate Carried(ctx: Context, proven: Option<ProvenOffender>, pending: Option<Control>) {
    proven.Some? ==>
      && proven.value.atHeight < ctx.height
      && (pending.None? ==> ctx.excluded != [])
  }

  function CreateRecord(v: Voter, ctx: Context, seat: Seat, id: nat,
                        proven: Option<ProvenOffender>, pending: Option<Control>): Option<Voter> {
    match CreateState(ctx, seat, proven, pending)
    case Err(_) => None
    case Ok(initial) =>
      match CompareAndSwap(v.store, None, initial)
      case None => None
      case Some(saved) => Some(Put(v.(store := Some(saved)), id, Controller(0, initial, Idle)))
  }

  /** Restoring checks the loaded record; newly found terminal evidence is saved first. */
  function OpenRecord(v: Voter, ctx: Context, seat: Seat, id: nat): Voter
    requires OrderedSeats(ctx.voters) && id in v.controllers
  {
    var c := v.controllers[id];
    match RestoreState(c.state, ctx, seat)
    case Err(_) => Drop(v, id)
    case Ok(restored) =>
      if restored == c.state then Put(v, id, c.(progress := Idle))
      else if restored.haltKind != Some(Terminal) then Drop(v, id)
      else
        match CompareAndSwap(v.store, Some(c.revision), restored)
        case None => Drop(v, id)
        case Some(saved) => Put(v.(store := Some(saved)), id, Controller(saved.revision, restored, Idle))
  }

  /** A failed save stops the controller; the stored record is never overwritten. */
  function SaveRecord(v: Voter, id: nat, c: Controller): Voter
    requires c.progress.Reduced?
  {
    match CompareAndSwap(v.store, Some(c.revision), c.progress.next.state)
    case None => Drop(v, id)
    case Some(saved) => Put(v.(store := Some(saved)), id, c.(progress := Written(c.progress.next)))
  }

  /** One stage of one controller; an action that its stage does not allow is no step. */
  function Act(v: Voter, ctx: Context, seat: Seat, action: Action): Option<Voter>
    requires OrderedSeats(ctx.voters)
  {
    var id := action.id;
    if action.Create? then
      if id in v.controllers || !Carried(ctx, action.proven, action.pending) then None
      else CreateRecord(v, ctx, seat, id, action.proven, action.pending)
    else if action.Load? then
      if id in v.controllers || v.store.None? then None
      else Some(Put(v, id, Controller(v.store.value.revision, v.store.value.record, Loading)))
    else if id !in v.controllers then None
    else
      var c := v.controllers[id];
      match action
      case Open(_) => if c.progress.Loading? then Some(OpenRecord(v, ctx, seat, id)) else None
      case Dispatch(_, event, admit) =>
        if !c.progress.Idle? then None
        else
          (match Reduce(c.state, ctx, event, admit)
           case Err(_) => None
           case Ok(next) => Some(Put(v, id, c.(progress := Reduced(next)))))
      case Discard(_) => if c.progress.Reduced? then Some(Put(v, id, c.(progress := Idle))) else None
      case Save(_) => if c.progress.Reduced? then Some(SaveRecord(v, id, c)) else None
      case EmitOne(_, index) =>
        if c.progress.Written?
           && index < |c.progress.next.effects| then Some(Send(v, c.progress.next.effects[index])) else None
      case Settled(_) =>
        if c.progress.Written? then Some(Put(v, id, Controller(c.revision + 1, c.progress.next.state, Idle))) else None
      case ResumeOne(_, index) =>
        if !c.progress.Idle? then None
        else
          (match RecoverEffects(c.state, ctx)
           case Err(_) => None
           case Ok(effects) => if index < |effects| then Some(Send(v, effects[index])) else None)
      case Crash(_) => Some(Drop(v, id))
      case _ => None
  }

  // ---- delivery ----

  /** Signatures cannot be forged: a correct seat's vote of this height exists only once it was broadcast. */
  predicate VoteSigned(sys: System, vote: Vote) {
    vote.seat in sys.voters && vote.height == sys.ctx.height ==> vote in sys.voters[vote.seat].votes
  }

  predicate ProposalSigned(sys: System, proposal: Proposal) {
    proposal.entry.sequencer in sys.voters && proposal.entry.height == sys.ctx.height ==>
      proposal in sys.voters[proposal.entry.sequencer].proposals
  }

  predicate Deliverable(sys: System, event: Event) {
    && (forall v :: v in EventVotes(event) ==> VoteSigned(sys, v))
    && (event.ReceiveProposal? ==> ProposalSigned(sys, event.proposal))
  }

  function MoveOnce(sys: System, move: Move): Option<System>
    requires OrderedSeats(sys.ctx.voters)
  {
    if move.seat !in sys.voters then None
    else if move.action.Dispatch? && !Deliverable(sys, move.action.event) then None
    else
      match Act(sys.voters[move.seat], sys.ctx, move.seat, move.action)
      case None => None
      case Some(v) => Some(sys.(voters := sys.voters[move.seat := v]))
  }

  /** The system after some moves, in any interleaving the steps allow. */
  function After(sys: System, moves: seq<Move>): (r: Option<System>)
    requires OrderedSeats(sys.ctx.voters)
    ensures r.Some? ==> r.value.ctx == sys.ctx
  {
    if moves == [] then Some(sys)
    else
      match After(sys, moves[..|moves| - 1])
      case None => None
      case Some(mid) => MoveOnce(mid, moves[|moves| - 1])
  }

  const NEW_VOTER := Voter(None, map[], {}, {})

  function Faulty(sys: System): set<Seat> {
    VoterSet(sys.ctx.voters) - sys.voters.Keys
  }

  /** No record exists yet, and at most the tolerated number of voters is faulty. */
  predicate Initial(sys: System) {
    && sys.ctx.WellFormed()
    && sys.voters.Keys <= VoterSet(sys.ctx.voters)
    && |Faulty(sys)| <= Tolerated(|sys.ctx.voters|)
    && forall s :: s in sys.voters ==> sys.voters[s] == NEW_VOTER
  }
}
