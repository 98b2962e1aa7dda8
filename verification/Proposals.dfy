/**
 * Proposals, certified entries and objective evidence
 * (packages/protocol/src/proposal.ts and packages/protocol/src/control.ts).
 */
module Proposals {
  import opened Results
  import opened Votes

  /** A signed entry. Its hash covers height, parent, payload and state, not `term` or `sequencer`. */
  datatype Entry = Entry(sequencer: Seat, height: nat, term: nat, hash: Hash)

  datatype Proposal = Proposal(entry: Entry, validRound: Option<nat>, prevotes: seq<Vote>)

  datatype CertifiedEntry = CertifiedEntry(entry: Entry, certificate: seq<Vote>)

  datatype Evidence =
    | VoteConflict(firstVote: Vote, secondVote: Vote)
    | ProposalConflict(first: Proposal, second: Proposal)
    | Misconduct(proposal: Proposal)

  /** The payload that excludes a proposer, with its proof. */
  datatype Control = Control(offender: Seat, evidence: Evidence)

  /**
   * One height's certified prefix. `accepts` is the deterministic validation of an entry against
   * that prefix, `controlOf` the control payload a value hash stands for, `extendsParent` whether
   * the hashed value names the certified parent, `provesMisconduct` the classifier of bad command
   * or proof proposals, and `historical` the resolver of accusations about older heights.
   */
  datatype Context = Context(
    voters: seq<Seat>,
    excluded: seq<Seat>,
    head: nat,
    parentHash: Hash,
    binding: nat,
    parentIntact: bool,
    accepts: Entry -> bool,
    controlOf: Hash -> Option<Control>,
    extendsParent: Hash -> bool,
    provesMisconduct: Proposal -> bool,
    historical: Control -> Option<Hash>)
  {
    const height: nat := head + 1

    predicate WellFormed() {
      && OrderedSeats(voters)
      && (forall i, j :: 0 <= i < j < |excluded| ==> excluded[i] != excluded[j])
      && (forall s :: s in excluded ==> s in voters)
      && Eligible() != []
    }

    function Eligible(): seq<Seat> {
      Without(voters, excluded)
    }

    function Quorum(): nat
      requires OrderedSeats(voters)
    {
      QuorumSize(|voters|)
    }
  }

  function Without(seats: seq<Seat>, excluded: seq<Seat>): (r: seq<Seat>)
    ensures forall s :: s in r <==> s in seats && s !in excluded
  {
    Select((s: Seat) => s !in excluded, seats)
  }

  /** The proposer rotates over the eligible voters; a bad height, round or roster has none. */
  function ProposerFor(height: nat, term: nat, ctx: Context): (r: Option<Seat>)
    ensures r.Some? ==> r.value in ctx.voters && r.value !in ctx.excluded
  {
    var eligible := ctx.Eligible();
    if height < 1 || term < 1 || eligible == [] then None
    else
      var index := ((height - 1) % |eligible| + (term - 1) % |eligible|) % |eligible|;
      assert eligible[index] in eligible;
      Some(eligible[index])
  }

  predicate ValidEntry(entry: Entry, ctx: Context) {
    && ProposerFor(entry.height, entry.term, ctx) == Some(entry.sequencer)
    && entry.height == ctx.height
    && ctx.accepts(entry)
  }

  /** Whoever receives it, locked or not, a proposal that names an earlier round must prove that round. */
  predicate ValidProposal(proposal: Proposal, ctx: Context)
    requires OrderedSeats(ctx.voters)
  {
    var entry := proposal.entry;
    && ValidEntry(entry, ctx)
    && match proposal.validRound
       case None => proposal.prevotes == []
       case Some(round) =>
         && 1 <= round < entry.term
         && ValidCertificate(proposal.prevotes, ctx.voters, Ballot(entry.height, round, Prevote, Some(entry.hash)))
  }

  predicate AuthenticCertified(certified: CertifiedEntry, ctx: Context)
    requires OrderedSeats(ctx.voters)
  {
    var entry := certified.entry;
    && ValidCertificate(certified.certificate, ctx.voters,
                        Ballot(entry.height, entry.term, Precommit, Some(entry.hash)))
    && ProposerFor(entry.height, entry.term, ctx) == Some(entry.sequencer)
  }

  predicate ValidCertified(certified: CertifiedEntry, ctx: Context)
    requires OrderedSeats(ctx.voters)
  {
    AuthenticCertified(certified, ctx) && ValidEntry(certified.entry, ctx)
  }

  // ---- objective evidence ----

  function EvidenceHeight(control: Control): nat {
    match control.evidence
    case VoteConflict(first, _) => first.height
    case ProposalConflict(first, _) => first.entry.height
    case Misconduct(proposal) => proposal.entry.height
  }

  /** Evidence proposals need the elected proposer and this parent, not a valid value. */
  predicate AuthenticEvidenceProposal(proposal: Proposal, ctx: Context) {
    var entry := proposal.entry;
    && entry.height == ctx.height
    && ctx.extendsParent(entry.hash)
    && ProposerFor(entry.height, entry.term, ctx) == Some(entry.sequencer)
  }

  function ValidateObjectiveAccusation(control: Control, ctx: Context): Result<()> {
    if control.offender in ctx.excluded then Err("control-duplicate")
    else if control.offender !in ctx.voters then Err("control-seat")
    else if !ctx.parentIntact then Err("control-parent")
    else
      match control.evidence
      case VoteConflict(a, b) =>
        if !ValidVote(a, ctx.voters) || !ValidVote(b, ctx.voters) then Err("control-vote")
        else if && a.seat == control.offender && b.seat == a.seat
                && a.height == ctx.height && b.height == a.height
                && a.term == b.term && a.phase == b.phase && a.value != b.value
        then Ok(()) else Err("control-unproven")
      case ProposalConflict(a, b) =>
        if !AuthenticEvidenceProposal(a, ctx) || !AuthenticEvidenceProposal(b, ctx) then Err("control-proposal")
        else if && a.entry.sequencer == control.offender
                && a.entry.term == b.entry.term && a.entry.hash != b.entry.hash
        then Ok(()) else Err("control-unproven")
      case Misconduct(proposal) =>
        if !AuthenticEvidenceProposal(proposal, ctx) then Err("control-context")
        else if proposal.entry.sequencer == control.offender && ctx.provesMisconduct(proposal)
        then Ok(()) else Err("control-unproven")
  }

  /** The hash of the certified parent an accusation is proven against. */
  function ObjectiveProofParent(control: Control, ctx: Context): Result<Hash> {
    var at := EvidenceHeight(control);
    if at < 1 || at > ctx.height then Err("control-context")
    else if at < ctx.height then
      match ctx.historical(control)
      case Some(hash) => Ok(hash)
      case None => Err("control-history")
    else
      match ValidateObjectiveAccusation(control, ctx)
      case Ok(_) => Ok(ctx.parentHash)
      case Err(code) => Err(code)
  }
}
