/**
 * Shared randomness from one-way chains: operations, reveals, extensions and the state they move
 * (packages/protocol/src/beacon.ts, beacon-extension.ts and beacon-state.ts).
 */
module Beacon {
  import opened Results
  import opened HashChain

  const MAX_SAFE_INTEGER := 9_007_199_254_740_991
  const MAX_PARTICIPANTS := 6

  datatype EntryRef = EntryRef(height: nat, hash: nat)

  /** `index` counts the links consumed; the next link shown has index plus one. */
  datatype Chain = Chain(seat: nat, publicKey: nat, chainEpoch: nat, index: nat, length: nat, tip: Link)

  datatype Participant = Participant(seat: nat, publicKey: nat, chainEpoch: nat, index: nat, length: nat,
                                     previous: Link)

  datatype Operation = Operation(genesis: nat, epoch: nat, anchor: EntryRef, round: nat, pending: nat,
                                 participants: seq<Participant>)

  datatype Frozen = Frozen(genesis: nat, epoch: nat, anchor: EntryRef, round: nat, pending: nat,
                           participants: seq<Chain>)

  datatype Outcome = StealIndex(handSize: nat, index: nat) | OtherOutcome(value: nat)

  datatype Fixed = Fixed(operation: Operation, seed: Link, outcome: Outcome, entry: EntryRef)

  datatype State = State(genesis: nat, chains: seq<Chain>, round: nat, active: Option<Frozen>, fixed: Option<Fixed>)

  /** A signature is the key it verifies under; an operation id is the operation. */
  datatype Shown = Shown(operation: Operation, seat: nat, index: nat, value: Link, signedBy: nat)

  datatype Extension = Extension(operation: Operation, seat: nat, chainEpoch: nat, length: nat, tip: Link,
                                 signedBy: nat)

  datatype Signer = Signer(seat: nat, publicKey: nat)

  datatype SeatValue = SeatValue(seat: nat, value: Link)

  /** The hashes the beacon uses, and the registry that checks requests and derives outcomes. */
  datatype Registry = Registry(hash: LinkHash, seed: (Operation, nat, seq<SeatValue>) -> Link, valid: nat -> bool,
                               derive: (nat, Link, Operation) -> Option<Outcome>)

  // ---- operations ----

  predicate ValidOperation(op: Operation) {
    && op.round >= 1
    && 1 <= |op.participants| <= MAX_PARTICIPANTS
    && (forall i :: 0 <= i < |op.participants| ==>
          var p := op.participants[i]; 1 <= p.index <= p.length <= MAX_LENGTH && IsLink(p.previous))
    && forall i, j :: 0 <= i < j < |op.participants| ==>
         op.participants[i].seat < op.participants[j].seat
           && op.participants[i].publicKey != op.participants[j].publicKey
  }

  function FindParticipant(participants: seq<Participant>, seat: nat): (r: Option<Participant>)
    ensures r.Some? ==> r.value in participants && r.value.seat == seat
    ensures r.None? ==> forall p :: p in participants ==> p.seat != seat
  {
    Find((p: Participant) => p.seat == seat, participants)
  }

  /** The key that must have signed for a participant, after any certified replacement. */
  function SigningKey(p: Participant, signer: Option<Signer>): nat {
    match signer case Some(s) => s.publicKey case None => p.publicKey
  }

  /** One participant's next link, for exactly this operation. */
  predicate VerifyReveal(shown: Shown, op: Operation, signer: Option<Signer>, hash: LinkHash) {
    var p := FindParticipant(op.participants, shown.seat);
    && ValidOperation(op)
    && (signer.Some? ==> signer.value.seat == shown.seat)
    && p.Some? && shown.index == p.value.index && shown.operation == op
    && shown.signedBy == SigningKey(p.value, signer)
    && LinkAdvances(p.value.previous, shown.value, hash)
  }

  predicate RosterMatches(signers: Option<seq<Signer>>, participants: seq<Participant>) {
    signers.Some? ==>
      |signers.value| == |participants| && forall i :: 0 <= i < |participants| ==>
        signers.value[i].seat == participants[i].seat
  }

  function SignerAt(signers: Option<seq<Signer>>, i: nat): Option<Signer>
    requires signers.Some? ==> i < |signers.value|
  {
    match signers case Some(list) => Some(list[i]) case None => None
  }

  function SeatValues(shown: seq<Shown>): (r: seq<SeatValue>)
    ensures |r| == |shown| && forall i :: 0 <= i < |r| ==> r[i] == SeatValue(shown[i].seat, shown[i].value)
  {
    seq(|shown|, i requires 0 <= i < |shown| => SeatValue(shown[i].seat, shown[i].value))
  }

  /** The links shown are valid, one for each participant of the operation, in its order. */
  predicate RevealsComplete(op: Operation, shown: seq<Shown>, signers: Option<seq<Signer>>, hash: LinkHash) {
    && ValidOperation(op) && RosterMatches(signers, op.participants) && |shown| == |op.participants|
    && forall i :: 0 <= i < |shown| ==>
         VerifyReveal(shown[i], op, SignerAt(signers, i), hash) && shown[i].seat == op.participants[i].seat
  }

  method CompleteBeacon(op: Operation, shown: seq<Shown>, signers: Option<seq<Signer>>, registry: Registry)
    returns (r: Result<Link>)
    ensures r.Ok? <==> RevealsComplete(op, shown, signers, registry.hash)
    ensures r.Ok? ==> r.value == registry.seed(op, op.round, SeatValues(shown))
  {
    hide VerifyReveal;
    if !ValidOperation(op) || !RosterMatches(signers, op.participants) || |shown| != |op.participants| {
      return Err("beacon-incomplete");
    }
    var values: seq<SeatValue> := [];
    for index := 0 to |op.participants|
      invariant forall i :: 0 <= i < index ==>
        VerifyReveal(shown[i], op, SignerAt(signers, i), registry.hash) && shown[i].seat == op.participants[i].seat
      invariant values == SeatValues(shown[..index])
    {
      if !VerifyReveal(shown[index], op, SignerAt(signers, index), registry.hash) {
        return Err("beacon-link");
      }
      if shown[index].seat != op.participants[index].seat {
        return Err("beacon-order");
      }
      values := values + [SeatValue(shown[index].seat, shown[index].value)];
    }
    assert shown[..|shown|] == shown;
    return Ok(registry.seed(op, op.round, values));
  }

  // ---- extensions ----

  predicate ValidExtensionOperation(op: Operation) {
    && ValidOperation(op)
    && forall i :: 0 <= i < |op.participants| ==>
         op.participants[i].index == op.participants[i].length && op.participants[i].chainEpoch != MAX_SAFE_INTEGER
  }

  /** A new tip for the next epoch of an exhausted chain. */
  predicate VerifyExtension(e: Extension, op: Operation, signer: Option<Signer>) {
    var p := FindParticipant(op.participants, e.seat);
    && ValidExtensionOperation(op)
    && 1 <= e.chainEpoch && 1 <= e.length <= MAX_LENGTH && IsLink(e.tip)
    && (signer.Some? ==> signer.value.seat == e.seat)
    && p.Some? && e.chainEpoch == p.value.chainEpoch + 1 && e.operation == op && e.tip != p.value.previous
    && e.signedBy == SigningKey(p.value, signer)
  }

  predicate ExtensionsComplete(op: Operation, extensions: seq<Extension>, signers: Option<seq<Signer>>) {
    && ValidExtensionOperation(op) && RosterMatches(signers, op.participants) && |extensions| == |op.participants|
    && forall i :: 0 <= i < |extensions| ==>
         VerifyExtension(extensions[i], op, SignerAt(signers, i)) && extensions[i].seat == op.participants[i].seat
  }

  /** What participant `i` commits to: its key, and the epoch, length and tip of its extension. */
  function Replacement(op: Operation, extensions: seq<Extension>, signers: Option<seq<Signer>>, i: nat): Chain
    requires i < |op.participants| == |extensions| && RosterMatches(signers, op.participants)
  {
    Chain(op.participants[i].seat, SigningKey(op.participants[i], SignerAt(signers, i)), extensions[i].chainEpoch, 0,
          extensions[i].length, extensions[i].tip)
  }

  method CompleteBeaconExtension(op: Operation, extensions: seq<Extension>, signers: Option<seq<Signer>>)
    returns (r: Result<seq<Chain>>)
    ensures r.Ok? <==> ExtensionsComplete(op, extensions, signers)
    ensures r.Ok? ==> |r.value| == |op.participants| && forall i :: 0 <= i < |r.value| ==>
      r.value[i] == Replacement(op, extensions, signers, i)
  {
    hide VerifyExtension;
    if !ValidExtensionOperation(op) || !RosterMatches(signers, op.participants) || |extensions| != |op.participants| {
      return Err("beacon-extension-incomplete");
    }
    var commitments: seq<Chain> := [];
    for index := 0 to |op.participants|
      invariant |commitments| == index
      invariant forall i :: 0 <= i < index ==>
        VerifyExtension(extensions[i], op, SignerAt(signers, i)) && extensions[i].seat == op.participants[i].seat
      invariant forall i :: 0 <= i < index ==> commitments[i] == Replacement(op, extensions, signers, i)
    {
      if !VerifyExtension(extensions[index], op, SignerAt(signers, index))
         || extensions[index].seat != op.participants[index].seat {
        return Err("beacon-extension");
      }
      commitments := commitments + [Replacement(op, extensions, signers, index)];
    }
    return Ok(commitments);
  }

  // ---- state ----

  predicate ChainsOk(chains: seq<Chain>) {
    && 1 <= |chains| <= MAX_PARTICIPANTS
    && (forall i :: 0 <= i < |chains| ==>
        1 <= chains[i].length <= MAX_LENGTH && chains[i].index <= chains[i].length && IsLink(chains[i].tip))
    && forall i, j :: 0 <= i < j < |chains| ==>
         chains[i].seat < chains[j].seat && chains[i].publicKey != chains[j].publicKey
  }

  /** The validating loop: seats rise, keys are new, and no index is past its length. */
  method ValidChains(chains: seq<Chain>) returns (ok: bool)
    requires 1 <= |chains| <= MAX_PARTICIPANTS
    requires forall i :: 0 <= i < |chains| ==> 1 <= chains[i].length <= MAX_LENGTH && IsLink(chains[i].tip)
    ensures ok <==> ChainsOk(chains)
  {
    var previousSeat: int, keys: set<nat> := -1, {};
    for i := 0 to |chains|
      invariant i > 0 ==> previousSeat == chains[i - 1].seat
      invariant i == 0 ==> previousSeat == -1
      invariant keys == set k | 0 <= k < i :: chains[k].publicKey
      invariant forall k :: 0 <= k < i ==> chains[k].index <= chains[k].length && chains[k].seat <= previousSeat
      invariant forall j, k :: 0 <= j < k < i ==>
        chains[j].seat < chains[k].seat && chains[j].publicKey != chains[k].publicKey
    {
      var chain := chains[i];
      if chain.seat <= previousSeat || chain.index > chain.length || chain.publicKey in keys {
        if chain.seat <= previousSeat {
          assert i > 0 && chains[i - 1].seat >= chains[i].seat;
        }
        return false;
      }
      previousSeat := chain.seat;
      keys := keys + {chain.publicKey};
    }
    ok := true;
  }

  predicate ActiveOk(s: State) {
    s.active.Some? ==>
      && s.active.value.genesis == s.genesis && s.active.value.round == s.round + 1
      && s.active.value.participants == s.chains
  }

  predicate FixedOk(s: State) {
    s.fixed.Some? ==>
      var f := s.fixed.value;
      && ValidOperation(f.operation) && f.operation.genesis == s.genesis && f.operation.round == s.round
      && f.outcome.StealIndex? && f.outcome.index < f.outcome.handSize
      && f.entry.height > f.operation.anchor.height
  }

  predicate ValidState(s: State) {
    && ChainsOk(s.chains) && s.round != MAX_SAFE_INTEGER
    && !(s.active.Some? && s.fixed.Some?)
    && ActiveOk(s) && FixedOk(s)
  }

  function Checked(s: State): Result<State> {
    if ValidState(s) then Ok(s) else Err("beacon-state")
  }

  datatype Commitment = Commitment(seat: nat, length: nat, tip: Link)

  datatype Human = Human(seat: nat, publicKey: nat)

  /** One chain per human, from the genesis commitments in roster order. */
  method InitializeBeaconState(genesis: nat, humans: seq<Human>, commitments: seq<Commitment>)
    returns (r: Result<State>)
    requires forall c :: c in commitments ==> 1 <= c.length <= MAX_LENGTH && IsLink(c.tip)
    ensures r.Ok? <==>
      && 1 <= |humans| <= MAX_PARTICIPANTS && |commitments| == |humans|
      && (forall i :: 0 <= i < |humans| ==> commitments[i].seat == humans[i].seat)
      && forall i, j :: 0 <= i < j < |humans| ==>
           humans[i].seat < humans[j].seat && humans[i].publicKey != humans[j].publicKey
    ensures r.Ok? ==>
      && ValidState(r.value) && r.value.round == 0 && r.value.active.None? && r.value.fixed.None?
      && |r.value.chains| == |humans| == |commitments|
      && forall i :: 0 <= i < |humans| ==>
        && commitments[i].seat == humans[i].seat
        && r.value.chains[i] == Chain(humans[i].seat, humans[i].publicKey, 0, 0, commitments[i].length,
                                      commitments[i].tip)
  {
    if |humans| == 0 || |commitments| != |humans| {
      return Err("beacon-roster");
    }
    var chains: seq<Chain> := [];
    for index := 0 to |humans|
      invariant |chains| == index
      invariant forall i :: 0 <= i < index ==>
        && commitments[i].seat == humans[i].seat
        && chains[i] == Chain(humans[i].seat, humans[i].publicKey, 0, 0, commitments[i].length, commitments[i].tip)
    {
      if commitments[index].seat != humans[index].seat {
        return Err("beacon-roster");
      }
      chains := chains
        + [Chain(humans[index].seat, humans[index].publicKey, 0, 0, commitments[index].length, commitments[index].tip)];
    }
    return Checked(State(genesis, chains, 0, None, None));
  }

  function FreezeBeaconRequest(s: State, pending: nat, anchor: EntryRef, epoch: nat,
                               registry: Registry): Result<State> {
    if !ValidState(s) then Err("beacon-state")
    else if s.active.Some? || s.fixed.Some? then Err("beacon-busy")
    else if !registry.valid(pending) then Err("beacon-pending")
    else Checked(s.(active := Some(Frozen(s.genesis, epoch, anchor, s.round + 1, pending, s.chains))))
  }

  function OperationOf(active: Frozen, participants: seq<Participant>): Operation {
    Operation(active.genesis, active.epoch, active.anchor, active.round, active.pending, participants)
  }

  function NextParticipant(c: Chain): Participant {
    Participant(c.seat, c.publicKey, c.chainEpoch, c.index + 1, c.length, c.tip)
  }

  function NextParticipants(chains: seq<Chain>): (r: seq<Participant>)
    ensures |r| == |chains| && forall i :: 0 <= i < |r| ==> r[i] == NextParticipant(chains[i])
  {
    seq(|chains|, i requires 0 <= i < |chains| => NextParticipant(chains[i]))
  }

  predicate Exhausted(c: Chain) {
    c.index == c.length
  }

  predicate SomeExhausted(chains: seq<Chain>) {
    exists c :: c in chains && Exhausted(c)
  }

  function ExhaustedChains(chains: seq<Chain>): (r: seq<Chain>)
    ensures forall c :: c in r <==> c in chains && Exhausted(c)
  {
    Select((c: Chain) => Exhausted(c), chains)
  }

  function SameParticipant(c: Chain): Participant {
    Participant(c.seat, c.publicKey, c.chainEpoch, c.index, c.length, c.tip)
  }

  function SameParticipants(chains: seq<Chain>): (r: seq<Participant>)
    ensures |r| == |chains| && forall i :: 0 <= i < |r| ==> r[i] == SameParticipant(chains[i])
  {
    seq(|chains|, i requires 0 <= i < |chains| => SameParticipant(chains[i]))
  }

  /** The operation that shows links; refused while a frozen chain is exhausted. */
  function GetBeaconOperation(s: State): Result<Operation> {
    if !ValidState(s) then Err("beacon-state")
    else if s.active.None? then Err("beacon-inactive")
    else if SomeExhausted(s.active.value.participants) then Err("beacon-extension-required")
    else
      var op := OperationOf(s.active.value, NextParticipants(s.active.value.participants));
      if ValidOperation(op) then Ok(op) else Err("beacon-operation")
  }

  /** The operation that extends; only exhausted seats take part. */
  function GetBeaconExtensionOperation(s: State): Result<Operation> {
    if !ValidState(s) then Err("beacon-state")
    else if s.active.None? then Err("beacon-inactive")
    else if !SomeExhausted(s.active.value.participants) then Err("beacon-extension-unneeded")
    else
      var op := OperationOf(s.active.value, SameParticipants(ExhaustedChains(s.active.value.participants)));
      if ValidOperation(op) then Ok(op) else Err("beacon-operation")
  }

  function ReplacementFor(chain: Chain, op: Operation, extensions: seq<Extension>, signers: Option<seq<Signer>>,
                          k: nat): (r: Chain)
    requires k <= |op.participants| == |extensions| && RosterMatches(signers, op.participants)
  {
    if k == 0 then chain
    else if op.participants[k - 1].seat == chain.seat then Replacement(op, extensions, signers, k - 1)
    else ReplacementFor(chain, op, extensions, signers, k - 1)
  }

  function Extended(chains: seq<Chain>, op: Operation, extensions: seq<Extension>,
                    signers: Option<seq<Signer>>): (r: seq<Chain>)
    requires |op.participants| == |extensions| && RosterMatches(signers, op.participants)
    ensures |r| == |chains| && forall i :: 0 <= i < |r| ==>
      r[i] == ReplacementFor(chains[i], op, extensions, signers, |extensions|)
  {
    seq(|chains|, i requires 0 <= i < |chains| => ReplacementFor(chains[i], op, extensions, signers, |extensions|))
  }

  function ExtendBeaconState(s: State, extensions: seq<Extension>, signers: Option<seq<Signer>>): Result<State> {
    match GetBeaconExtensionOperation(s)
    case Err(code) => Err(code)
    case Ok(op) =>
      if !ExtensionsComplete(op, extensions, signers) then Err("beacon-extension")
      else
        var chains := Extended(s.chains, op, extensions, signers);
        Checked(s.(chains := chains, active := Some(s.active.value.(participants := chains))))
  }

  function Advanced(chains: seq<Chain>, shown: seq<Shown>): (r: seq<Chain>)
    requires |chains| == |shown|
    ensures |r| == |chains| && forall i :: 0 <= i < |r| ==>
      r[i] == chains[i].(index := chains[i].index + 1, tip := shown[i].value)
  {
    seq(|chains|, i requires 0 <= i < |chains| => chains[i].(index := chains[i].index + 1, tip := shown[i].value))
  }

  datatype Completed = Completed(state: State, outcome: Outcome)

  function CompleteBeaconState(s: State, shown: seq<Shown>, entry: EntryRef, signers: Option<seq<Signer>>,
                               registry: Registry): Result<Completed> {
    match GetBeaconOperation(s)
    case Err(code) => Err(code)
    case Ok(op) =>
      if entry.height <= op.anchor.height then Err("beacon-result-entry")
      else if !RevealsComplete(op, shown, signers, registry.hash) then Err("beacon-incomplete")
      else
        var seed := registry.seed(op, op.round, SeatValues(shown));
        match registry.derive(s.active.value.pending, seed, op)
        case None => Err("beacon-derive")
        case Some(outcome) =>
          var next := s.(chains := Advanced(s.chains, shown), round := s.active.value.round, active := None,
                         fixed := if outcome.StealIndex? then Some(Fixed(op, seed, outcome, entry)) else None);
          if ValidState(next) then Ok(Completed(next, outcome)) else Err("beacon-state")
  }

  /** The completing loop looks every chain's new tip up by seat among the reveals. */
  method CompleteRequest(s: State, shown: seq<Shown>, entry: EntryRef, signers: Option<seq<Signer>>, registry: Registry)
    returns (r: Result<Completed>)
    ensures r.Ok? <==> CompleteBeaconState(s, shown, entry, signers, registry).Ok?
    ensures r.Ok? ==> r == CompleteBeaconState(s, shown, entry, signers, registry)
  {
    hide VerifyReveal, ValidOperation, FixedOk, ChainsOk;
    var found := GetBeaconOperation(s);
    if found.Err? {
      return Err(found.code);
    }
    var op := found.value;
    if entry.height <= op.anchor.height {
      return Err("beacon-result-entry");
    }
    var seed := CompleteBeacon(op, shown, signers, registry);
    if seed.Err? {
      return Err(seed.code);
    }
    var derived := registry.derive(s.active.value.pending, seed.value, op);
    if derived.None? {
      return Err("beacon-derive");
    }
    SeatsAgree(s, shown, signers, registry.hash);
    var revealed: map<nat, Link> := map[];
    for i := 0 to |shown|
      invariant forall seat :: seat in revealed <==> exists k :: 0 <= k < i && shown[k].seat == seat
      invariant forall k :: 0 <= k < i ==> shown[k].seat in revealed && revealed[shown[k].seat] == shown[k].value
    {
      revealed := revealed[shown[i].seat := shown[i].value];
    }
    var chains: seq<Chain> := [];
    for i := 0 to |s.chains|
      invariant chains == Advanced(s.chains, shown)[..i]
    {
      var chain := s.chains[i];
      assert chain.seat == shown[i].seat;
      chains := chains + [chain.(index := chain.index + 1, tip := revealed[chain.seat])];
    }
    assert chains == Advanced(s.chains, shown);
    var outcome := derived.value;
    var next := State(s.genesis, chains, s.active.value.round, None,
                      if outcome.StealIndex? then Some(Fixed(op, seed.value, outcome, entry)) else None);
    if !ValidState(next) {
      return Err("beacon-state");
    }
    return Ok(Completed(next, outcome));
  }

  /** In a complete list, the seats are those of the chains, each once. */
  lemma SeatsAgree(s: State, shown: seq<Shown>, signers: Option<seq<Signer>>, hash: LinkHash)
    requires GetBeaconOperation(s).Ok? && RevealsComplete(GetBeaconOperation(s).value, shown, signers, hash)
    ensures |shown| == |s.chains| && forall i :: 0 <= i < |shown| ==> shown[i].seat == s.chains[i].seat
    ensures forall i, j :: 0 <= i < j < |shown| ==> shown[i].seat != shown[j].seat
  {
    hide VerifyReveal, FixedOk;
    var op := GetBeaconOperation(s).value;
    forall i | 0 <= i < |shown| ensures shown[i].seat == s.chains[i].seat {
      assert shown[i].seat == op.participants[i].seat && op.participants[i] == NextParticipant(s.chains[i]);
    }
  }

  function ConsumeFixedBeacon(s: State, entry: EntryRef): Result<State> {
    if !ValidState(s) then Err("beacon-state")
    else if s.fixed.None? || s.fixed.value.entry != entry then Err("beacon-fixed-entry")
    else Checked(s.(fixed := None))
  }
}
