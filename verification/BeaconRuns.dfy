/**
 * Every run of the beacon: what its links hash back to, how many of them each round uses, when a request
 * can show links and when it must extend, and what decides its seed.
 */
module BeaconRuns {
  import opened Results
  import opened HashChain
  import opened Beacon

  datatype Step =
    | Freeze(pending: nat, anchor: EntryRef, epoch: nat)
    | Extend(extensions: seq<Extension>, signers: Option<seq<Signer>>)
    | Complete(shown: seq<Shown>, entry: EntryRef, signers: Option<seq<Signer>>)
    | Consume(entry: EntryRef)

  function Next(s: State, step: Step, registry: Registry): Result<State> {
    match step
    case Freeze(pending, anchor, epoch) => FreezeBeaconRequest(s, pending, anchor, epoch, registry)
    case Extend(extensions, signers) => ExtendBeaconState(s, extensions, signers)
    case Complete(shown, entry, signers) =>
      (match CompleteBeaconState(s, shown, entry, signers, registry) case Ok(done) => Ok(done.state) case Err(code) =>
       Err(code))
    case Consume(entry) => ConsumeFixedBeacon(s, entry)
  }

  /** A refused step leaves the state as it was. */
  function Stepped(s: State, step: Step, registry: Registry): State {
    match Next(s, step, registry) case Ok(next) => next case Err(_) => s
  }

  function After(start: State, steps: seq<Step>, registry: Registry): State {
    if steps == [] then start else Stepped(After(start, steps[..|steps| - 1], registry), steps[|steps| - 1], registry)
  }

  // ---- what each chain committed to, epoch by epoch ----

  datatype Promise = Promise(length: nat, tip: Link)

  /** For each chain, what it committed to in each of its epochs. */
  type Book = seq<seq<Promise>>

  function Opening(chains: seq<Chain>): (r: Book)
    ensures |r| == |chains| && forall i :: 0 <= i < |r| ==> r[i] == [Promise(chains[i].length, chains[i].tip)]
  {
    seq(|chains|, i requires 0 <= i < |chains| => [Promise(chains[i].length, chains[i].tip)])
  }

  /** A chain that entered a new epoch adds its commitment; no commitment is ever changed. */
  function Noted(book: Book, before: seq<Chain>, after: seq<Chain>): (r: Book)
    requires |book| == |before| == |after|
    ensures |r| == |book|
    ensures forall i :: 0 <= i < |r| ==>
      r[i] == if after[i].chainEpoch == before[i].chainEpoch then book[i]
        else book[i] + [Promise(after[i].length, after[i].tip)]
  {
    seq(|book|, i requires 0 <= i < |book| =>
      if after[i].chainEpoch == before[i].chainEpoch then book[i]
      else book[i] + [Promise(after[i].length, after[i].tip)])
  }

  function BookAfter(start: State, steps: seq<Step>, registry: Registry): (r: Book)
    ensures |r| == |After(start, steps, registry).chains|
  {
    if steps == [] then Opening(start.chains)
    else
      var front := steps[..|steps| - 1];
      var s := After(start, front, registry);
      SteppedChains(s, steps[|steps| - 1], registry);
      Noted(BookAfter(start, front, registry), s.chains, Stepped(s, steps[|steps| - 1], registry).chains)
  }

  function LengthsOf(promises: seq<Promise>): nat {
    if promises == [] then 0 else LengthsOf(promises[..|promises| - 1]) + promises[|promises| - 1].length
  }

  /** One chain's account: its last commitment, the way back to it, and one link shown a round. */
  predicate Kept(c: Chain, promises: seq<Promise>, round: nat, hash: LinkHash) {
    && |promises| == c.chainEpoch + 1
    && promises[c.chainEpoch].length == c.length
    && c.index <= c.length
    && HashTimes(hash, c.tip, c.index) == promises[c.chainEpoch].tip
    && LengthsOf(promises[..c.chainEpoch]) + c.index == round
  }

  predicate BookKept(s: State, book: Book, hash: LinkHash) {
    && |book| == |s.chains|
    && forall i :: 0 <= i < |s.chains| ==> Kept(s.chains[i], book[i], s.round, hash)
  }

  // ---- single steps ----

  lemma SteppedChains(s: State, step: Step, registry: Registry)
    ensures |Stepped(s, step, registry).chains| == |s.chains|
  {
    hide ValidState, ValidOperation, RevealsComplete, ExtensionsComplete;
  }

  /** Every accepted step leads from a valid state to a valid state. */
  lemma StepsAreValid(s: State, step: Step, registry: Registry)
    ensures Next(s, step, registry).Ok? ==> ValidState(s) && ValidState(Next(s, step, registry).value)
  {
    hide ChainsOk, ActiveOk, FixedOk, ValidOperation, RevealsComplete, ExtensionsComplete;
  }

  /** Exhausted chains keep their order, so the extension operation is well formed. */
  lemma {:induction false} ExhaustedAscend(chains: seq<Chain>)
    requires forall i, j :: 0 <= i < j < |chains| ==>
      chains[i].seat < chains[j].seat && chains[i].publicKey != chains[j].publicKey
    ensures var r := ExhaustedChains(chains);
      |r| <= |chains| && forall i, j :: 0 <= i < j < |r| ==> r[i].seat < r[j].seat && r[i].publicKey != r[j].publicKey
  {
    if chains != [] {
      var front, last := chains[..|chains| - 1], chains[|chains| - 1];
      ExhaustedAscend(front);
      ExhaustedSteps(chains);
      var r := ExhaustedChains(front);
      forall k | 0 <= k < |r| ensures r[k].seat < last.seat && r[k].publicKey != last.publicKey {
        assert r[k] in r;
        var i :| 0 <= i < |front| && front[i] == r[k];
        assert chains[i] == r[k];
      }
    }
  }

  lemma ExhaustedSteps(chains: seq<Chain>)
    requires chains != []
    ensures var front, last := chains[..|chains| - 1], chains[|chains| - 1];
      ExhaustedChains(chains) == ExhaustedChains(front) + (if Exhausted(last) then [last] else [])
  {
  }

  /** A request that is active either shows links or must extend, and never both or neither. */
  lemma ExactlyOneOperation(s: State)
    requires ValidState(s)
    ensures s.active.Some? ==> (GetBeaconOperation(s).Ok? <==> !GetBeaconExtensionOperation(s).Ok?)
    ensures s.active.None? ==> GetBeaconOperation(s).Err? && GetBeaconExtensionOperation(s).Err?
    ensures s.active.Some? ==> (GetBeaconOperation(s).Ok? <==> forall c :: c in s.chains ==> c.index < c.length)
  {
    if s.active.Some? {
      var active := s.active.value;
      if SomeExhausted(active.participants) {
        var out := ExhaustedChains(active.participants);
        ExhaustedAscend(active.participants);
        var c :| c in active.participants && Exhausted(c);
        assert c in out;
        var op := OperationOf(active, SameParticipants(out));
        forall i | 0 <= i < |out| ensures 1 <= out[i].index <= out[i].length <= MAX_LENGTH && IsLink(out[i].tip) {
          assert out[i] in out;
        }
        assert ValidOperation(op);
      } else {
        var op := OperationOf(active, NextParticipants(active.participants));
        forall c | c in s.chains ensures c.index < c.length {
          assert !Exhausted(c);
          var i :| 0 <= i < |s.chains| && s.chains[i] == c;
        }
        forall i | 0 <= i < |s.chains| ensures s.chains[i].index + 1 <= s.chains[i].length {
          assert s.chains[i] in s.chains;
        }
        assert ValidOperation(op);
      }
    }
  }

  lemma {:induction false} ReplacementIs(chain: Chain, op: Operation, extensions: seq<Extension>,
                                         signers: Option<seq<Signer>>, k: nat)
    returns (j: nat)
    requires k <= |op.participants| == |extensions| && RosterMatches(signers, op.participants)
    ensures j <= k
    ensures j == k ==> ReplacementFor(chain, op, extensions, signers, k) == chain
    ensures j == k ==> forall i :: 0 <= i < k ==> op.participants[i].seat != chain.seat
    ensures j < k ==> op.participants[j].seat == chain.seat
    ensures j < k ==> ReplacementFor(chain, op, extensions, signers, k) == Replacement(op, extensions, signers, j)
  {
    if k == 0 {
      j := 0;
    } else if op.participants[k - 1].seat == chain.seat {
      j := k - 1;
    } else {
      j := ReplacementIs(chain, op, extensions, signers, k - 1);
      if j == k - 1 {
        j := k;
      }
    }
  }

  /** In an accepted extension, the entry for a participant names its next epoch and a whole new chain. */
  lemma ExtensionAt(op: Operation, extensions: seq<Extension>, signers: Option<seq<Signer>>, j: nat)
    requires ExtensionsComplete(op, extensions, signers) && j < |extensions|
    ensures |op.participants| == |extensions| && RosterMatches(signers, op.participants)
    ensures extensions[j].chainEpoch == op.participants[j].chainEpoch + 1
    ensures 1 <= extensions[j].length <= MAX_LENGTH && extensions[j].operation == op
  {
    var e := extensions[j];
    assert VerifyExtension(e, op, SignerAt(signers, j)) && e.seat == op.participants[j].seat;
    var p := FindParticipant(op.participants, e.seat).value;
    assert p in op.participants && p.seat == e.seat;
    var i :| 0 <= i < |op.participants| && op.participants[i] == p;
  }

  /** Chain by chain, an extension replaces exactly the exhausted chains, each by its next epoch from index zero. */
  lemma ExtendEach(s: State, extensions: seq<Extension>, signers: Option<seq<Signer>>, i: nat)
    requires ExtendBeaconState(s, extensions, signers).Ok? && i < |s.chains|
    ensures ValidState(s) && s.active.Some?
    ensures var next := ExtendBeaconState(s, extensions, signers).value;
      && |next.chains| == |s.chains| && next.round == s.round
      && (if Exhausted(s.chains[i]) then
            && next.chains[i].chainEpoch == s.chains[i].chainEpoch + 1 && next.chains[i].index == 0
            && next.chains[i].seat == s.chains[i].seat && next.chains[i].length >= 1
          else next.chains[i] == s.chains[i])
  {
    hide FixedOk, ValidOperation, VerifyExtension;
    var op := GetBeaconExtensionOperation(s).value;
    var c := s.chains[i];
    var out := ExhaustedChains(s.active.value.participants);
    if Exhausted(c) {
      assert c in out;
      var k :| 0 <= k < |out| && out[k] == c;
      assert op.participants[k].seat == c.seat;
    }
    var j := ReplacementIs(c, op, extensions, signers, |extensions|);
    if j < |extensions| {
      ExtensionAt(op, extensions, signers, j);
      assert out[j] in out;
      SameSeatSameChain(s.chains, i, out[j]);
    }
  }

  lemma SameSeatSameChain(chains: seq<Chain>, i: nat, other: Chain)
    requires ChainsOk(chains) && i < |chains| && other in chains && other.seat == chains[i].seat
    ensures other == chains[i]
  {
    var k :| 0 <= k < |chains| && chains[k] == other;
  }

  lemma ExtendKeepsRequest(s: State, extensions: seq<Extension>, signers: Option<seq<Signer>>)
    requires ExtendBeaconState(s, extensions, signers).Ok?
    ensures var next := ExtendBeaconState(s, extensions, signers).value;
      && s.active.Some? && ValidState(s) && ValidState(next)
      && next == s.(chains := next.chains, active := Some(s.active.value.(participants := next.chains)))
  {
    hide ChainsOk, ActiveOk, FixedOk, ValidOperation, ExtensionsComplete, SomeExhausted;
  }

  lemma NoneExhausted(s: State, extensions: seq<Extension>, signers: Option<seq<Signer>>)
    requires ExtendBeaconState(s, extensions, signers).Ok?
    ensures forall c :: c in ExtendBeaconState(s, extensions, signers).value.chains ==> c.index < c.length
  {
    var next := ExtendBeaconState(s, extensions, signers).value;
    hide ExtendBeaconState, ValidState;
    ExtendKeepsRequest(s, extensions, signers);
    forall c | c in next.chains ensures c.index < c.length {
      var i :| 0 <= i < |next.chains| && next.chains[i] == c;
      ExtendedLength(s, extensions, signers, i);
    }
  }

  lemma ExtendedLength(s: State, extensions: seq<Extension>, signers: Option<seq<Signer>>, i: nat)
    requires ExtendBeaconState(s, extensions, signers).Ok?
      && i < |ExtendBeaconState(s, extensions, signers).value.chains|
    ensures var c := ExtendBeaconState(s, extensions, signers).value.chains[i]; c.index < c.length
  {
    ExtendKeepsRequest(s, extensions, signers);
    SameCount(s, extensions, signers);
    hide ExtendBeaconState;
    ExtendEach(s, extensions, signers, i);
  }

  lemma SameCount(s: State, extensions: seq<Extension>, signers: Option<seq<Signer>>)
    requires ExtendBeaconState(s, extensions, signers).Ok?
    ensures |ExtendBeaconState(s, extensions, signers).value.chains| == |s.chains|
  {
    hide ValidState, ValidOperation, ExtensionsComplete;
  }

  lemma OperationOfRequest(s: State)
    ensures GetBeaconOperation(s).Ok? ==>
      var op := GetBeaconOperation(s).value;
      && s.active.Some? && op == OperationOf(s.active.value, NextParticipants(s.active.value.participants))
      && op.round == s.round + 1
  {
    hide ChainsOk, FixedOk, ValidOperation, SomeExhausted;
  }

  /** After an extension the same request, in the same round, can show its links. */
  lemma ExtensionReenables(s: State, extensions: seq<Extension>, signers: Option<seq<Signer>>)
    requires ExtendBeaconState(s, extensions, signers).Ok?
    ensures var next := ExtendBeaconState(s, extensions, signers).value;
      && GetBeaconOperation(next).Ok? && next.round == s.round
      && GetBeaconOperation(next).value.round == s.round + 1
      && GetBeaconOperation(next).value.pending == s.active.value.pending
      && GetBeaconOperation(next).value.anchor == s.active.value.anchor
  {
    var next := ExtendBeaconState(s, extensions, signers).value;
    hide ExtendBeaconState, ValidState, ChainsOk, GetBeaconOperation, GetBeaconExtensionOperation, Exhausted,
      NextParticipants;
    ExtendKeepsRequest(s, extensions, signers);
    NoneExhausted(s, extensions, signers);
    ExactlyOneOperation(next);
    OperationOfRequest(s);
    OperationOfRequest(next);
  }

  /** A completion moves every chain one link on, to a value that hashes to the tip before it. */
  lemma CompleteEach(s: State, shown: seq<Shown>, entry: EntryRef, signers: Option<seq<Signer>>, registry: Registry,
                     i: nat)
    requires CompleteBeaconState(s, shown, entry, signers, registry).Ok? && i < |s.chains|
    ensures ValidState(s) && |shown| == |s.chains|
    ensures s.chains[i].index < s.chains[i].length
    ensures registry.hash(shown[i].value) == s.chains[i].tip
    ensures var next := CompleteBeaconState(s, shown, entry, signers, registry).value.state;
      && |next.chains| == |s.chains| && next.round == s.round + 1
      && next.chains[i] == s.chains[i].(index := s.chains[i].index + 1, tip := shown[i].value)
  {
    hide VerifyReveal, FixedOk, ValidOperation;
    var op := GetBeaconOperation(s).value;
    assert s.chains[i] in s.chains && !Exhausted(s.chains[i]);
    RevealAt(op, shown, signers, registry.hash, i);
  }

  /** In an accepted list, the value at each place hashes to that participant's last link. */
  lemma RevealAt(op: Operation, shown: seq<Shown>, signers: Option<seq<Signer>>, hash: LinkHash, i: nat)
    requires RevealsComplete(op, shown, signers, hash) && i < |shown|
    ensures |op.participants| == |shown| && shown[i].seat == op.participants[i].seat
    ensures LinkAdvances(op.participants[i].previous, shown[i].value, hash)
  {
    assert VerifyReveal(shown[i], op, SignerAt(signers, i), hash) && shown[i].seat == op.participants[i].seat;
    var p := FindParticipant(op.participants, shown[i].seat).value;
    var k :| 0 <= k < |op.participants| && op.participants[k] == p;
  }

  // ---- runs ----

  lemma ExtendAccount(s: State, extensions: seq<Extension>, signers: Option<seq<Signer>>, hash: LinkHash, book: Book,
                      i: nat)
    requires ExtendBeaconState(s, extensions, signers).Ok? && i < |s.chains| && BookKept(s, book, hash)
    ensures var next := ExtendBeaconState(s, extensions, signers).value;
      && |next.chains| == |s.chains|
      && Kept(next.chains[i], Noted(book, s.chains, next.chains)[i], next.round, hash)
  {
    hide ExtendBeaconState, ValidState;
    ExtendEach(s, extensions, signers, i);
    var c := s.chains[i];
    assert Kept(c, book[i], s.round, hash);
    if Exhausted(c) {
      var next := ExtendBeaconState(s, extensions, signers).value;
      var promises := book[i] + [Promise(next.chains[i].length, next.chains[i].tip)];
      assert promises[..c.chainEpoch + 1] == book[i];
      assert book[i][..|book[i]| - 1] == book[i][..c.chainEpoch];
    }
  }

  lemma CompleteAccount(s: State, shown: seq<Shown>, entry: EntryRef, signers: Option<seq<Signer>>, registry: Registry,
                        book: Book, i: nat)
    requires CompleteBeaconState(s, shown, entry, signers, registry).Ok? && i < |s.chains|
      && BookKept(s, book, registry.hash)
    ensures var next := CompleteBeaconState(s, shown, entry, signers, registry).value.state;
      && |next.chains| == |s.chains|
      && Kept(next.chains[i], Noted(book, s.chains, next.chains)[i], next.round, registry.hash)
  {
    hide CompleteBeaconState, ValidState;
    CompleteEach(s, shown, entry, signers, registry, i);
    assert Kept(s.chains[i], book[i], s.round, registry.hash);
  }

  /** The other two steps, and refused ones, move no chain. */
  lemma StillChains(s: State, step: Step, registry: Registry)
    requires step.Freeze? || step.Consume? || Next(s, step, registry).Err?
    ensures Stepped(s, step, registry).chains == s.chains && Stepped(s, step, registry).round == s.round
  {
    hide ValidState, CompleteBeaconState, ExtendBeaconState;
  }

  /** One step keeps every account, whatever the step and whether or not it is accepted. */
  lemma BookStep(s: State, step: Step, registry: Registry, book: Book)
    requires BookKept(s, book, registry.hash)
    ensures |Stepped(s, step, registry).chains| == |s.chains|
    ensures BookKept(Stepped(s, step, registry), Noted(book, s.chains, Stepped(s, step, registry).chains),
                     registry.hash)
  {
    hide CompleteBeaconState, ExtendBeaconState, FreezeBeaconRequest, ConsumeFixedBeacon, Kept;
    SteppedChains(s, step, registry);
    var next := Stepped(s, step, registry);
    var after := Noted(book, s.chains, next.chains);
    forall i | 0 <= i < |s.chains| ensures Kept(next.chains[i], after[i], next.round, registry.hash) {
      assert Kept(s.chains[i], book[i], s.round, registry.hash);
      if step.Extend? && Next(s, step, registry).Ok? {
        ExtendAccount(s, step.extensions, step.signers, registry.hash, book, i);
      } else if step.Complete? && Next(s, step, registry).Ok? {
        CompleteAccount(s, step.shown, step.entry, step.signers, registry, book, i);
      } else {
        StillChains(s, step, registry);
      }
    }
  }

  predicate Started(s: State) {
    ValidState(s) && s.round == 0 && s.active.None? && s.fixed.None? && forall c :: c in s.chains ==>
      c.chainEpoch == 0 && c.index == 0
  }

  /**
   * In every run: hashing a chain's tip `index` times gives the tip committed for its epoch, and the lengths of
   * the finished epochs plus the index make the number of rounds completed, so no link is skipped or shown twice.
   */
  lemma {:induction false} EveryRunKeepsItsBook(start: State, steps: seq<Step>, registry: Registry)
    requires Started(start)
    ensures BookKept(After(start, steps, registry), BookAfter(start, steps, registry), registry.hash)
    ensures ValidState(After(start, steps, registry))
  {
    if steps == [] {
      forall i | 0 <= i < |start.chains| ensures Kept(start.chains[i], Opening(start.chains)[i], 0, registry.hash) {
        assert start.chains[i] in start.chains;
      }
    } else {
      var front, last := steps[..|steps| - 1], steps[|steps| - 1];
      EveryRunKeepsItsBook(start, front, registry);
      BookStep(After(start, front, registry), last, registry, BookAfter(start, front, registry));
      StepsAreValid(After(start, front, registry), last, registry);
    }
  }

  /** A commitment, once made, stays: running on only adds later epochs. */
  lemma {:induction false} CommitmentsStay(start: State, steps: seq<Step>, more: seq<Step>, registry: Registry, i: nat)
    requires i < |BookAfter(start, steps, registry)|
    ensures i < |BookAfter(start, steps + more, registry)|
    ensures BookAfter(start, steps, registry)[i] <= BookAfter(start, steps + more, registry)[i]
  {
    if more == [] {
      assert steps + more == steps;
    } else {
      var front := more[..|more| - 1];
      CommitmentsStay(start, steps, front, registry, i);
      assert (steps + more)[..|steps + more| - 1] == steps + front;
      assert (steps + more)[|steps + more| - 1] == more[|more| - 1];
    }
  }

  /** The steps of a run that were accepted completions. */
  function Completions(start: State, steps: seq<Step>, registry: Registry): nat {
    if steps == [] then 0
    else
      var s, last := After(start, steps[..|steps| - 1], registry), steps[|steps| - 1];
      Completions(start, steps[..|steps| - 1], registry) + if last.Complete?
        && Next(s, last, registry).Ok? then 1 else 0
  }

  /** Rounds count accepted completions and nothing else; in particular consuming a fixed outcome adds none. */
  lemma {:induction false} RoundsCountCompletions(start: State, steps: seq<Step>, registry: Registry)
    ensures After(start, steps, registry).round == start.round + Completions(start, steps, registry)
  {
    hide ChainsOk, FixedOk, ValidOperation, RevealsComplete, ExtensionsComplete;
    if steps != [] {
      RoundsCountCompletions(start, steps[..|steps| - 1], registry);
    }
  }

  // ---- what decides the seed ----

  ghost predicate CollisionFree(hash: LinkHash) {
    forall a, b :: IsLink(a) && IsLink(b) && hash(a) == hash(b) ==> a == b
  }

  /** The seat and the present tip of every chain, in seat order. */
  function Tips(chains: seq<Chain>): (r: seq<SeatValue>)
    ensures |r| == |chains| && forall i :: 0 <= i < |r| ==> r[i] == SeatValue(chains[i].seat, chains[i].tip)
  {
    seq(|chains|, i requires 0 <= i < |chains| => SeatValue(chains[i].seat, chains[i].tip))
  }

  /** An accepted list shows, for every chain in order, its seat and the tip it has afterwards. */
  lemma ShownAreTips(s: State, shown: seq<Shown>, entry: EntryRef, signers: Option<seq<Signer>>, registry: Registry)
    requires CompleteBeaconState(s, shown, entry, signers, registry).Ok?
    ensures SeatValues(shown) == Tips(CompleteBeaconState(s, shown, entry, signers, registry).value.state.chains)
  {
    hide VerifyReveal, FixedOk, ValidOperation, ChainsOk;
    var op := GetBeaconOperation(s).value;
    forall i | 0 <= i < |shown| ensures shown[i].seat == s.chains[i].seat {
      RevealAt(op, shown, signers, registry.hash, i);
      assert op.participants[i] == NextParticipant(s.chains[i]);
    }
  }

  /**
   * The outcome of a completion is derived from the request and one seed: the hash of the operation, its round and
   * the seat and new link of every chain, each of which hashes to the tip before. A steal index stays marked as such.
   */
  lemma SeedCoversEveryLink(s: State, shown: seq<Shown>, entry: EntryRef, signers: Option<seq<Signer>>,
                            registry: Registry)
    requires CompleteBeaconState(s, shown, entry, signers, registry).Ok?
    ensures s.active.Some? && GetBeaconOperation(s).Ok?
    ensures var done, op := CompleteBeaconState(s, shown, entry, signers, registry).value, GetBeaconOperation(s).value;
      var seed := registry.seed(op, s.active.value.round, Tips(done.state.chains));
      && registry.derive(s.active.value.pending, seed, op) == Some(done.outcome)
      && done.state.fixed == (if done.outcome.StealIndex? then Some(Fixed(op, seed, done.outcome, entry)) else None)
      && done.state.active.None? && done.state.round == s.active.value.round && entry.height > op.anchor.height
    ensures var chains := CompleteBeaconState(s, shown, entry, signers, registry).value.state.chains;
      |chains| == |s.chains| && forall i :: 0 <= i < |chains| ==>
        registry.hash(chains[i].tip) == s.chains[i].tip && chains[i].seat == s.chains[i].seat
  {
    hide VerifyReveal, FixedOk, ValidOperation, ChainsOk, SomeExhausted;
    ShownAreTips(s, shown, entry, signers, registry);
    forall i | 0 <= i < |s.chains|
      ensures registry.hash(shown[i].value) == s.chains[i].tip
    {
      CompleteEach(s, shown, entry, signers, registry, i);
    }
  }

  /** If the seed hash is injective, no single seat decides it: a different link of any seat is a different seed. */
  lemma EveryLinkCounts(s: State, a: seq<Shown>, b: seq<Shown>, entry: EntryRef, sa: Option<seq<Signer>>,
                        sb: Option<seq<Signer>>, registry: Registry, da: Completed, db: Completed, i: nat)
    requires forall op: Operation, round: nat, x, y ::
      registry.seed(op, round, x) == registry.seed(op, round, y) ==> x == y
    requires CompleteBeaconState(s, a, entry, sa, registry) == Ok(da)
    requires CompleteBeaconState(s, b, entry, sb, registry) == Ok(db)
    requires da.state.fixed.Some? && db.state.fixed.Some?
    requires i < |da.state.chains| && i < |db.state.chains| && da.state.chains[i].tip != db.state.chains[i].tip
    ensures da.state.fixed.value.seed != db.state.fixed.value.seed
  {
    hide CompleteBeaconState, GetBeaconOperation;
    SeedCoversEveryLink(s, a, entry, sa, registry);
    SeedCoversEveryLink(s, b, entry, sb, registry);
    assert Tips(da.state.chains)[i] != Tips(db.state.chains)[i];
  }

  /** What a frozen request asks: every chain's next link, for the next round, this request, anchor and epoch. */
  lemma RequestNamesItself(s: State, pending: nat, anchor: EntryRef, epoch: nat, registry: Registry)
    requires FreezeBeaconRequest(s, pending, anchor, epoch, registry).Ok?
    ensures var next := FreezeBeaconRequest(s, pending, anchor, epoch, registry).value;
      && next.chains == s.chains && next.round == s.round
      && (GetBeaconOperation(next).Ok? ==>
            var op := GetBeaconOperation(next).value;
            && op.genesis == s.genesis && op.epoch == epoch && op.anchor == anchor && op.pending == pending
            && op.round == s.round + 1 && |op.participants| == |s.chains|
            && forall i :: 0 <= i < |s.chains| ==>
                 var c, p := s.chains[i], op.participants[i];
                 && p.seat == c.seat && p.publicKey == c.publicKey && p.chainEpoch == c.chainEpoch
                 && p.length == c.length && p.previous == c.tip && p.index == c.index + 1)
  {
    hide ChainsOk, FixedOk, ValidOperation, SomeExhausted;
  }

  /** Two completions of one state, by whatever lists and signers, give the same outcome, chains and seed. */
  lemma SeedIsDetermined(s: State, a: seq<Shown>, b: seq<Shown>, entry: EntryRef, sa: Option<seq<Signer>>,
                         sb: Option<seq<Signer>>, registry: Registry)
    requires CollisionFree(registry.hash)
    requires CompleteBeaconState(s, a, entry, sa, registry).Ok? && CompleteBeaconState(s, b, entry, sb, registry).Ok?
    ensures SeatValues(a) == SeatValues(b)
    ensures CompleteBeaconState(s, a, entry, sa, registry) == CompleteBeaconState(s, b, entry, sb, registry)
  {
    hide VerifyReveal, ValidOperation;
    var op := GetBeaconOperation(s).value;
    forall i | 0 <= i < |a| ensures a[i].seat == b[i].seat && a[i].value == b[i].value {
      RevealAt(op, a, sa, registry.hash, i);
      RevealAt(op, b, sb, registry.hash, i);
    }
    assert SeatValues(a) == SeatValues(b);
    assert Advanced(s.chains, a) == Advanced(s.chains, b);
  }

  lemma {:induction false} HashTimesIsLink(hash: LinkHash, value: Link, times: nat)
    requires HashesLinks(hash) && IsLink(value)
    ensures IsLink(HashTimes(hash, value, times))
    decreases times
  {
    if times > 0 {
      HashTimesIsLink(hash, hash(value), times - 1);
    }
  }

  lemma {:induction false} HashTimesInjective(hash: LinkHash, a: Link, b: Link, times: nat)
    requires CollisionFree(hash) && HashesLinks(hash) && IsLink(a) && IsLink(b)
    requires HashTimes(hash, a, times) == HashTimes(hash, b, times)
    ensures a == b
    decreases times
  {
    if times > 0 {
      HashTimesInjective(hash, hash(a), hash(b), times - 1);
    }
  }

  /** What chain `i` last committed to in a run. */
  predicate LastCommitted(book: Book, i: nat, tip: Link) {
    i < |book| && |book[i]| > 0 && book[i][|book[i]| - 1].tip == tip
  }

  /** A chain made by its owner, and where a run stands on it: its tip is the link of its index. */
  lemma StandsOnLink(c: Chain, promises: seq<Promise>, round: nat, hash: LinkHash, chain: seq<Link>, secret: Link)
    requires CollisionFree(hash) && HashesLinks(hash) && IsLink(secret) && IsLink(c.tip)
    requires IsChain(chain, secret, c.length, hash) && Kept(c, promises, round, hash)
      && promises[|promises| - 1].tip == chain[0]
    ensures c.tip == chain[c.index]
    ensures c.index < c.length ==> IsLink(chain[c.index + 1]) && hash(chain[c.index + 1]) == chain[c.index]
  {
    ChainLinks(chain, secret, c.length, hash, c.index);
    HashTimesIsLink(hash, secret, c.length - c.index);
    HashTimesInjective(hash, c.tip, chain[c.index], c.index);
    if c.index < c.length {
      HashTimesIsLink(hash, secret, c.length - c.index - 1);
    }
  }

  /**
   * In every run, a chain whose current commitment is the tip of a chain its owner made can show exactly one
   * value, that chain's next link, which was fixed when the tip was committed. That link always passes the
   * link check.
   */
  lemma RevealsAreCommitted(start: State, steps: seq<Step>, registry: Registry, i: nat, chain: seq<Link>, secret: Link,
                            value: Link)
    requires Started(start) && CollisionFree(registry.hash) && HashesLinks(registry.hash) && IsLink(secret)
    requires GetBeaconOperation(After(start, steps, registry)).Ok? && i < |After(start, steps, registry).chains|
    requires IsChain(chain, secret, After(start, steps, registry).chains[i].length, registry.hash)
    requires LastCommitted(BookAfter(start, steps, registry), i, chain[0])
    ensures var op := GetBeaconOperation(After(start, steps, registry)).value;
      && i < |op.participants| && op.participants[i].index < |chain|
      && (LinkAdvances(op.participants[i].previous, value, registry.hash) <==> value == chain[op.participants[i].index])
  {
    hide After, BookAfter, ActiveOk, FixedOk, ValidOperation, ValidState;
    var s, hash := After(start, steps, registry), registry.hash;
    EveryRunKeepsItsBook(start, steps, registry);
    NextAt(s, i);
    var c, promises := s.chains[i], BookAfter(start, steps, registry)[i];
    assert Kept(c, promises, s.round, hash);
    StandsOnLink(c, promises, s.round, hash, chain, secret);
  }

  /** Participant `i` of the operation that shows links is chain `i`, one link on. */
  lemma NextAt(s: State, i: nat)
    requires ValidState(s) && GetBeaconOperation(s).Ok? && i < |s.chains|
    ensures var op := GetBeaconOperation(s).value;
      && i < |op.participants| && op.participants[i] == NextParticipant(s.chains[i])
    ensures s.chains[i].index < s.chains[i].length && IsLink(s.chains[i].tip)
  {
    assert s.chains[i] in s.chains && !Exhausted(s.chains[i]);
  }
}
