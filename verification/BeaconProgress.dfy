/** What the beacon accepts, and that a request whose players show their links always completes. */
module BeaconProgress {
  import opened Results
  import opened HashChain
  import opened Beacon
  import opened BeaconRuns

  /** A request is frozen exactly while the beacon is idle and the registry knows it. */
  lemma FreezeIff(s: State, pending: nat, anchor: EntryRef, epoch: nat, registry: Registry)
    requires ValidState(s)
    ensures FreezeBeaconRequest(s, pending, anchor, epoch, registry).Ok?
      <==> s.active.None? && s.fixed.None? && registry.valid(pending)
  {
    hide ChainsOk;
  }

  /** A steal is consumed exactly by the entry that fixed it. */
  lemma ConsumeIff(s: State, entry: EntryRef)
    requires ValidState(s)
    ensures ConsumeFixedBeacon(s, entry).Ok? <==> s.fixed.Some? && s.fixed.value.entry == entry
  {
    hide ChainsOk;
  }

  // ---- completing ----

  lemma ParticipantAt(op: Operation, i: nat)
    requires ValidOperation(op) && i < |op.participants|
    ensures FindParticipant(op.participants, op.participants[i].seat) == Some(op.participants[i])
  {
    var found := FindParticipant(op.participants, op.participants[i].seat);
    assert op.participants[i] in op.participants;
    var k :| 0 <= k < |op.participants| && op.participants[k] == found.value;
  }

  /** The key that must sign for place `i`: a certified replacement, or the chain's own. */
  function KeyAt(chains: seq<Chain>, signers: Option<seq<Signer>>, i: nat): nat
    requires i < |chains| && (signers.Some? ==> |signers.value| == |chains|)
  {
    if signers.Some? then signers.value[i].publicKey else chains[i].publicKey
  }

  /** Each player in turn shows the value behind its tip, for this operation and under its key. */
  predicate LinksShown(s: State, op: Operation, shown: seq<Shown>, signers: Option<seq<Signer>>, hash: LinkHash) {
    && |shown| == |s.chains|
    && (signers.Some? ==>
          |signers.value| == |s.chains| && forall i :: 0 <= i < |s.chains| ==>
            signers.value[i].seat == s.chains[i].seat)
    && forall i :: 0 <= i < |shown| ==>
         && shown[i] == Shown(op, s.chains[i].seat, s.chains[i].index + 1, shown[i].value, KeyAt(s.chains, signers, i))
         && LinkAdvances(s.chains[i].tip, shown[i].value, hash)
  }

  lemma OperationIs(s: State)
    requires ValidState(s)
    ensures GetBeaconOperation(s).Ok? <==> s.active.Some? && forall c :: c in s.chains ==> c.index < c.length
    ensures GetBeaconOperation(s).Ok? ==>
      && ValidOperation(GetBeaconOperation(s).value)
      && GetBeaconOperation(s).value == OperationOf(s.active.value, NextParticipants(s.chains))
  {
    hide FixedOk;
    if s.active.Some? && forall c :: c in s.chains ==> c.index < c.length {
      var op := OperationOf(s.active.value, NextParticipants(s.chains));
      forall i | 0 <= i < |op.participants| ensures op.participants[i] == NextParticipant(s.chains[i])
        && s.chains[i].index < s.chains[i].length
      {
        assert s.chains[i] in s.chains;
      }
      assert ValidOperation(op);
    }
  }

  lemma CompleteIsShown(s: State, shown: seq<Shown>, signers: Option<seq<Signer>>, hash: LinkHash)
    requires ValidState(s) && GetBeaconOperation(s).Ok?
    ensures RevealsComplete(GetBeaconOperation(s).value, shown, signers, hash)
      <==> LinksShown(s, GetBeaconOperation(s).value, shown, signers, hash)
  {
    hide ValidState, ValidOperation, LinkAdvances;
    OperationIs(s);
    var op := GetBeaconOperation(s).value;
    forall i | 0 <= i < |s.chains|
      ensures op.participants[i] == NextParticipant(s.chains[i])
      ensures FindParticipant(op.participants, s.chains[i].seat) == Some(op.participants[i])
    {
      ParticipantAt(op, i);
    }
  }

  /** An outcome that the state can keep. */
  predicate Keepable(outcome: Outcome) {
    outcome.StealIndex? ==> outcome.index < outcome.handSize
  }

  /**
   * A request is completed exactly when no chain is exhausted, the entry comes after its anchor, every player showed
   * the value behind its tip, and their seed derives an outcome, in a round that still counts.
   */
  lemma CompleteIff(s: State, shown: seq<Shown>, entry: EntryRef, signers: Option<seq<Signer>>, registry: Registry)
    requires ValidState(s)
    ensures CompleteBeaconState(s, shown, entry, signers, registry).Ok? <==>
      && s.active.Some? && (forall c :: c in s.chains ==> c.index < c.length)
      && s.round + 1 != MAX_SAFE_INTEGER
      && var op := OperationOf(s.active.value, NextParticipants(s.chains));
         && entry.height > op.anchor.height && LinksShown(s, op, shown, signers, registry.hash)
         && var outcome := registry.derive(s.active.value.pending, registry.seed(op, op.round, SeatValues(shown)), op);
            outcome.Some? && Keepable(outcome.value)
  {
    hide RevealsComplete, LinksShown, ValidOperation;
    OperationIs(s);
    if GetBeaconOperation(s).Ok? {
      var op := GetBeaconOperation(s).value;
      CompleteIsShown(s, shown, signers, registry.hash);
      if LinksShown(s, op, shown, signers, registry.hash) {
        AdvancedOk(s, op, shown, signers, registry.hash);
      }
    }
  }

  lemma AdvancedOk(s: State, op: Operation, shown: seq<Shown>, signers: Option<seq<Signer>>, hash: LinkHash)
    requires ValidState(s) && LinksShown(s, op, shown, signers, hash) && forall c :: c in s.chains ==>
      c.index < c.length
    ensures ChainsOk(Advanced(s.chains, shown))
  {
    var next := Advanced(s.chains, shown);
    forall i | 0 <= i < |next|
      ensures 1 <= next[i].length <= MAX_LENGTH && next[i].index <= next[i].length && IsLink(next[i].tip)
    {
      assert s.chains[i] in s.chains;
    }
  }

  /** Players that hold the values behind their tips complete the request. */
  lemma HonestCompletion(s: State, links: seq<Link>, entry: EntryRef, registry: Registry) returns (shown: seq<Shown>)
    requires ValidState(s) && s.active.Some? && |links| == |s.chains| && s.round + 1 != MAX_SAFE_INTEGER
    requires forall i :: 0 <= i < |links| ==>
      s.chains[i].index < s.chains[i].length && LinkAdvances(s.chains[i].tip, links[i], registry.hash)
    requires entry.height > s.active.value.anchor.height
    requires forall seed, op :: var outcome := registry.derive(s.active.value.pending, seed, op);
      outcome.Some? && Keepable(outcome.value)
    ensures CompleteBeaconState(s, shown, entry, None, registry).Ok?
    ensures |shown| == |links| && forall i :: 0 <= i < |links| ==> shown[i].value == links[i]
  {
    hide ValidState, LinkAdvances, CompleteBeaconState;
    var op := OperationOf(s.active.value, NextParticipants(s.chains));
    shown := seq(|links|, i requires 0 <= i < |links| =>
      Shown(op, s.chains[i].seat, s.chains[i].index + 1, links[i], s.chains[i].publicKey));
    forall c | c in s.chains ensures c.index < c.length {
      var i :| 0 <= i < |s.chains| && s.chains[i] == c;
    }
    CompleteIff(s, shown, entry, None, registry);
  }

  // ---- extending ----

  /**
   * An exhausted request is extended exactly by one valid extension for each exhausted chain, as long as no two chains
   * end up under one key.
   */
  lemma ExtendIff(s: State, extensions: seq<Extension>, signers: Option<seq<Signer>>)
    requires ValidState(s)
    ensures ExtendBeaconState(s, extensions, signers).Ok? <==>
      && GetBeaconExtensionOperation(s).Ok?
      && var op := GetBeaconExtensionOperation(s).value;
         && ExtensionsComplete(op, extensions, signers)
         && var next := Extended(s.chains, op, extensions, signers);
            forall i, j :: 0 <= i < j < |next| ==> next[i].publicKey != next[j].publicKey
  {
    hide VerifyExtension, ReplacementFor;
    if GetBeaconExtensionOperation(s).Ok? {
      var op := GetBeaconExtensionOperation(s).value;
      if ExtensionsComplete(op, extensions, signers) {
        forall i | 0 <= i < |s.chains|
          ensures var c := ReplacementFor(s.chains[i], op, extensions, signers, |extensions|);
            c.seat == s.chains[i].seat && 1 <= c.length <= MAX_LENGTH && c.index <= c.length && IsLink(c.tip)
        {
          ReplacedOk(s.chains[i], op, extensions, signers, |extensions|);
        }
      }
    }
  }

  lemma {:induction false} ReplacedOk(c: Chain, op: Operation, extensions: seq<Extension>, signers: Option<seq<Signer>>,
                                      k: nat)
    requires ExtensionsComplete(op, extensions, signers) && k <= |extensions|
    requires 1 <= c.length <= MAX_LENGTH && c.index <= c.length && IsLink(c.tip)
    ensures var r := ReplacementFor(c, op, extensions, signers, k);
      r.seat == c.seat && 1 <= r.length <= MAX_LENGTH && r.index <= r.length && IsLink(r.tip)
  {
    hide ValidExtensionOperation;
    if k > 0 {
      assert VerifyExtension(extensions[k - 1], op, SignerAt(signers, k - 1));
      if op.participants[k - 1].seat != c.seat {
        ReplacedOk(c, op, extensions, signers, k - 1);
      }
    }
  }

  /** Each exhausted chain is replaced by what its own extension commits to, under the key that signed it. */
  lemma ExtensionInstalls(s: State, extensions: seq<Extension>, signers: Option<seq<Signer>>, i: nat)
    returns (e: Extension)
    requires ExtendBeaconState(s, extensions, signers).Ok? && i < |s.chains| && s.chains[i].index == s.chains[i].length
    ensures e in extensions && e.seat == s.chains[i].seat && e.operation == GetBeaconExtensionOperation(s).value
    ensures var next := ExtendBeaconState(s, extensions, signers).value;
      |next.chains| == |s.chains|
      && next.chains[i] == Chain(s.chains[i].seat, e.signedBy, s.chains[i].chainEpoch + 1, 0, e.length, e.tip)
      && e.tip != s.chains[i].tip
  {
    hide ValidState, ValidOperation, VerifyExtension, ReplacementFor, ExtensionsComplete;
    var op := GetBeaconExtensionOperation(s).value;
    var j := ExtensionOf(s, extensions, signers, i);
    e := extensions[j];
    InstalledFrom(op, extensions, signers, j);
    SameCount(s, extensions, signers);
  }

  /** The place of an exhausted chain's extension, and what it replaces the chain by. */
  lemma ExtensionOf(s: State, extensions: seq<Extension>, signers: Option<seq<Signer>>, i: nat) returns (j: nat)
    requires ExtendBeaconState(s, extensions, signers).Ok? && i < |s.chains| && s.chains[i].index == s.chains[i].length
    ensures var op, c := GetBeaconExtensionOperation(s).value, s.chains[i];
      && ExtensionsComplete(op, extensions, signers) && j < |extensions|
      && op.participants[j].seat == c.seat && op.participants[j].chainEpoch == c.chainEpoch
      && op.participants[j].previous == c.tip
      && ReplacementFor(c, op, extensions, signers, |extensions|) == Replacement(op, extensions, signers, j)
  {
    hide FixedOk, ValidOperation, VerifyExtension;
    var op := GetBeaconExtensionOperation(s).value;
    var c := s.chains[i];
    var out := ExhaustedChains(s.active.value.participants);
    assert c in out;
    var k :| 0 <= k < |out| && out[k] == c;
    assert op.participants[k].seat == c.seat;
    j := ReplacementIs(c, op, extensions, signers, |extensions|);
    assert out[j] in out;
    SameSeatSameChain(s.chains, i, out[j]);
  }

  lemma InstalledFrom(op: Operation, extensions: seq<Extension>, signers: Option<seq<Signer>>, j: nat)
    requires ExtensionsComplete(op, extensions, signers) && j < |extensions|
    ensures var e := extensions[j];
      && Replacement(op, extensions, signers, j)
           == Chain(e.seat, e.signedBy, op.participants[j].chainEpoch + 1, 0, e.length, e.tip)
      && e.operation == op && e.tip != op.participants[j].previous
  {
    assert VerifyExtension(extensions[j], op, SignerAt(signers, j)) && extensions[j].seat == op.participants[j].seat;
    ParticipantAt(op, j);
  }
}
