/** That an honest game goes on: whatever the next player makes at any step of a deck is accepted. */
module DeckProgress {
  import opened Results
  import opened Group
  import opened Permutations
  import opened DeckSetup
  import opened DeckConservation
  import opened DeckDraw
  import opened DeckReveal

  // ---- starting ----

  /** A deck can be set up exactly when its cards and players are in order and no two cards share a point. */
  lemma SetupStartsIff(d: Definition, v: Crypto)
    ensures InitDeckSetup(d, v).Ok? <==>
      && ValidDefinition(d)
      && (forall i :: 0 <= i < |d.cards| ==> NonIdentity(v.cardPoint(d, d.cards[i].identity)))
      && forall i, j :: 0 <= i < j < |d.cards| ==>
           v.cardPoint(d, d.cards[i].identity) != v.cardPoint(d, d.cards[j].identity)
  {
    var points := CardPoints(d, v);
    forall i | 0 <= i < |d.cards| ensures points[i] == v.cardPoint(d, d.cards[i].identity) {
    }
  }

  /** A draw is frozen exactly for a position of a fully locked deck, by one of its players, after its creation. */
  lemma FreezeIff(s: DeckState, request: DrawRequest, v: Crypto)
    ensures FreezeDeckDraw(s, request, v).Ok? <==>
      && ValidState(s, v) && |s.lockKeys| == |s.definition.participants|
      && AfterCreation(s.definition.creation, request)
      && request.position < |s.definition.cards|
      && exists p :: p in s.definition.participants && p.seat == request.seat
  {
    if ValidState(s, v) && |s.lockKeys| == |s.definition.participants| && request.position < |s.definition.cards| {
      var players, locked := s.definition.participants, LockedParticipants(s, request.position);
      if p :| p in players && p.seat == request.seat {
        var i :| 0 <= i < |players| && players[i] == p;
        assert locked[i].seat == request.seat;
      }
      if p :| p in locked && p.seat == request.seat {
        var i :| 0 <= i < |locked| && locked[i] == p;
        assert players[i].seat == request.seat;
      }
    }
  }

  // ---- unlocking ----

  /** What the next seat signs: the point without its lock, proved with the lock as the witness. */
  function NextUnlock(op: DrawOperation, prefix: seq<SignedUnlock>, point: int, lock: int, signer: nat,
                      signers: Option<seq<Signer>>, provers: Provers, v: Crypto): SignedUnlock
    requires PrefixAccepted(op, prefix, signers, v) && |prefix| < |Unlockers(op)|
  {
    var step, expected := |prefix|, Unlockers(op)[|prefix|];
    var statement := UnlockStatement(PrefixPoint(op, prefix, signers, v).value, point, expected.lockKey);
    var proof := provers.dleq(statement, lock, UnlockContext(op, step, expected.seat));
    SignedUnlock(UnlockBody(op, step, expected.seat, point, proof), signer)
  }

  lemma PrefixIsPoint(op: DrawOperation, unlocks: seq<SignedUnlock>, signers: Option<seq<Signer>>, v: Crypto)
    requires ValidOperation(op) && RosterMatches(signers, Unlockers(op)) && PrefixPoint(op, unlocks, signers, v).Some?
    ensures NonIdentity(PrefixPoint(op, unlocks, signers, v).value)
  {
  }

  lemma InverseIsSecret(lock: int)
    requires SecretScalar(lock)
    ensures InvertScalar(lock).Ok? && SecretScalar(InvertScalar(lock).value)
  {
    hide ModScalar;
    OneIsCanonical();
    assert lock * 0 == 0;
  }

  lemma BaseIsPoint()
    ensures NonIdentity(1)
  {
    OneIsCanonical();
  }

  lemma UnlockWitness(previous: int, lock: int, lockKey: int)
    requires NonIdentity(previous) && SecretScalar(lock) && ScalePoint(1, lock) == lockKey && NonIdentity(lockKey)
    ensures InvertScalar(lock).Ok?
    ensures DleqWitness(UnlockStatement(previous, ScalePoint(previous, InvertScalar(lock).value), lockKey), lock)
  {
    hide ScalePoint, ModScalar;
    BaseIsPoint();
    InverseIsSecret(lock);
    ScaleKeepsPoint(previous, InvertScalar(lock).value);
    OpensBack(previous, lock, InvertScalar(lock).value);
  }

  /** The unlock that the next seat signs with its own lock is accepted after its prefix. */
  lemma UnlockAccepted(op: DrawOperation, prefix: seq<SignedUnlock>, lock: int, signer: nat,
                       signers: Option<seq<Signer>>, provers: Provers, v: Crypto)
    requires Complete(provers, v) && SecretScalar(lock)
    requires PrefixAccepted(op, prefix, signers, v) && |prefix| < |Unlockers(op)|
    requires signer == (if signers.Some? then signers.value[|prefix|].publicKey else Unlockers(op)[|prefix|].publicKey)
    requires ScalePoint(1, lock) == Unlockers(op)[|prefix|].lockKey
    ensures var signed := SignDeckUnlock(op, prefix, lock, signer, signers, v);
      && signed.Ok?
      && var more := prefix + [NextUnlock(op, prefix, signed.value, lock, signer, signers, provers, v)];
         PrefixAccepted(op, more, signers, v) && PrefixPoint(op, more, signers, v) == Some(signed.value)
  {
    hide InvertScalar, Unlockers, Complete, DleqWitness, ScalePoint;
    var expected, previous := Unlockers(op)[|prefix|], PrefixPoint(op, prefix, signers, v).value;
    PrefixIsPoint(op, prefix, signers, v);
    LockKeyIsPoint(op, |prefix|);
    UnlockWitness(previous, lock, expected.lockKey);
    InverseIsSecret(lock);
    ScaleKeepsPoint(previous, InvertScalar(lock).value);
    var point := SignDeckUnlock(op, prefix, lock, signer, signers, v).value;
    var next := NextUnlock(op, prefix, point, lock, signer, signers, provers, v);
    WitnessProves(UnlockStatement(previous, point, expected.lockKey), lock, UnlockContext(op, |prefix|, expected.seat),
           provers, v);
    var more := prefix + [next];
    assert more[..|prefix|] == prefix;
  }

  lemma WitnessProves(st: DleqStatement, exponent: int, context: ProofContext, provers: Provers, v: Crypto)
    requires Complete(provers, v) && DleqWitness(st, exponent)
    ensures v.dleq(st, provers.dleq(st, exponent, context), context)
  {
  }

  lemma LockKeyIsPoint(op: DrawOperation, i: nat)
    requires ValidOperation(op) && i < |Unlockers(op)|
    ensures NonIdentity(Unlockers(op)[i].lockKey)
  {
    assert Unlockers(op)[i] in op.participants;
  }

  /** Every player of the draw can open its own lock. */
  predicate LocksKnown(op: DrawOperation, locks: nat -> int) {
    forall p :: p in op.participants ==> SecretScalar(locks(p.seat)) && ScalePoint(1, locks(p.seat)) == p.lockKey
  }

  lemma {:induction false} HonestPrefix(op: DrawOperation, locks: nat -> int, provers: Provers, v: Crypto, n: nat)
    returns (unlocks: seq<SignedUnlock>)
    requires Complete(provers, v) && ValidOperation(op) && LocksKnown(op, locks)
    requires n <= |Unlockers(op)|
    ensures |unlocks| == n && PrefixAccepted(op, unlocks, None, v)
  {
    hide Unlockers, ScalePoint, Complete, UnlockFollows, SignDeckUnlock, NextUnlock;
    if n == 0 {
      unlocks := [];
    } else {
      var prefix := HonestPrefix(op, locks, provers, v, n - 1);
      var expected := Unlockers(op)[n - 1];
      UnlockerPlays(op, n - 1);
      var lock := locks(expected.seat);
      UnlockAccepted(op, prefix, lock, expected.publicKey, None, provers, v);
      var point := SignDeckUnlock(op, prefix, lock, expected.publicKey, None, v).value;
      unlocks := prefix + [NextUnlock(op, prefix, point, lock, expected.publicKey, None, provers, v)];
    }
  }

  lemma UnlockerPlays(op: DrawOperation, i: nat)
    requires i < |Unlockers(op)|
    ensures Unlockers(op)[i] in op.participants
  {
  }

  /**
   * A draw that a locked deck can freeze is completed by its players' unlocks, each made from its own lock. The drawer
   * of a private one, or everyone for a public one, then decodes the card that the passes put at its position.
   */
  lemma HonestDraw(s: DeckState, sigma: seq<int>, request: DrawRequest, locks: nat -> int, provers: Provers, v: Crypto)
    returns (receipt: Receipt)
    requires Sound(v) && Complete(provers, v)
    requires Holds(s, sigma, v) && InitDeckSetup(s.definition, v).Ok? && FreezeDeckDraw(s, request, v).Ok?
    requires LocksKnown(FreezeDeckDraw(s, request, v).value, locks)
    ensures receipt.operation.request == request && VerifiedReceipt(s, receipt, None, v)
    ensures request.position < |sigma| && 0 <= sigma[request.position] < |s.definition.cards|
    ensures (if request.shown then DecodePublicDeckCard(s, receipt, None, v)
             else DecodeDeckCard(s, receipt, locks(request.seat), None, None, v))
      == Ok(s.definition.cards[sigma[request.position]])
  {
    hide Holds, Sound, Complete, InitDeckSetup, PrefixPoint, Unlockers, ScalePoint, ValidOperation, ValidState;
    var op := FreezeDeckDraw(s, request, v).value;
    FrozenIsValid(s, request, v);
    var unlocks := HonestPrefix(op, locks, provers, v, |Unlockers(op)|);
    receipt := Receipt(op, PrefixPoint(op, unlocks, None, v).value, unlocks);
    if request.shown {
      PublicDrawDecodes(s, sigma, receipt, None, v);
    } else {
      ReceiptIsFrozen(s, sigma, receipt, None, v);
      var owner :| owner in op.participants && owner.seat == request.seat;
      PrivateDrawDecodes(s, sigma, receipt, locks(request.seat), owner, None, v);
    }
  }

  lemma FrozenIsValid(s: DeckState, request: DrawRequest, v: Crypto)
    requires FreezeDeckDraw(s, request, v).Ok?
    ensures ValidOperation(FreezeDeckDraw(s, request, v).value)
      && FreezeDeckDraw(s, request, v).value.request == request
  {
    hide ValidState, ValidOperation;
  }

  // ---- showing ----

  lemma RevealWitness(point: int, lock: int, lockKey: int, card: int)
    requires NonIdentity(card) && NonIdentity(point) && SecretScalar(lock)
    requires ScalePoint(1, lock) == lockKey && NonIdentity(lockKey) && Same(point, lockKey * card)
    ensures DleqWitness(DleqStatement(card, point, 1, lockKey), lock)
  {
    hide ModScalar;
    BaseIsPoint();
    assert 1 * lock == lock;
    MulSame(lockKey, lock, card, card);
    assert lockKey * card == card * lockKey && lock * card == card * lock;
    CanonicalSame(point, ScalePoint(card, lock));
  }

  /** The owner of a private card shows it with its own lock, in any later context of the game, and is believed. */
  lemma HonestReveal(s: DeckState, sigma: seq<int>, receipt: Receipt, lock: int, owner: DrawParticipant,
                     context: RevealContext, signers: Option<seq<Signer>>, provers: Provers, v: Crypto)
    returns (proof: Proof)
    requires Sound(v) && Complete(provers, v)
    requires Holds(s, sigma, v) && InitDeckSetup(s.definition, v).Ok? && VerifiedReceipt(s, receipt, signers, v)
    requires !receipt.operation.request.shown
    requires owner in receipt.operation.participants && owner.seat == receipt.operation.request.seat
    requires SecretScalar(lock) && ScalePoint(1, lock) == owner.lockKey
    requires context.genesis == receipt.operation.request.genesis && context.seat == owner.seat
      && context.epoch >= receipt.operation.request.epoch
      && context.anchor.height > receipt.operation.request.anchor.height
    ensures var position := receipt.operation.request.position;
      && position < |sigma| && 0 <= sigma[position] < |s.definition.cards|
      && var card := s.definition.cards[sigma[position]];
         VerifyDeckReveal(s, receipt, card.identity, proof, context, signers, None, v) == Ok(card)
  {
    hide Holds, Sound, Complete, InitDeckSetup, VerifiedReceipt, ScalePoint, Same, DleqWitness, NonIdentity;
    var position := receipt.operation.request.position;
    ReceiptIsFrozen(s, sigma, receipt, signers, v);
    DealtHolderIsOwner(receipt, owner);
    DealtPoint(s, sigma, receipt, signers, owner, v);
    var d, holder := s.definition, Holder(owner.seat, receipt.point, owner.lockKey);
    var card := d.cards[sigma[position]];
    ReceiptPoints(s, receipt, owner, signers, v);
    CardPointIs(d, v, sigma[position]);
    RevealWitness(receipt.point, lock, owner.lockKey, v.cardPoint(d, card.identity));
    var statement := RevealStatement(d, card.identity, holder, v);
    proof := provers.dleq(statement, lock, ShowContext(receipt.operation, card.identity, context));
    WitnessProves(statement, lock, ShowContext(receipt.operation, card.identity, context), provers, v);
    FoundByIdentity(d, v, sigma[position]);
  }

  lemma CardPointIs(d: Definition, v: Crypto, i: nat)
    requires InitDeckSetup(d, v).Ok? && i < |d.cards|
    ensures NonIdentity(v.cardPoint(d, d.cards[i].identity))
  {
    SetupStartsIff(d, v);
  }

  lemma ReceiptPoints(s: DeckState, receipt: Receipt, owner: DrawParticipant, signers: Option<seq<Signer>>, v: Crypto)
    requires VerifiedReceipt(s, receipt, signers, v) && owner in receipt.operation.participants
    ensures NonIdentity(receipt.point) && NonIdentity(owner.lockKey)
  {
    hide Unlockers, UnlockFollows;
    FrozenIsValid(s, receipt.operation.request, v);
    PrefixIsPoint(receipt.operation, receipt.unlocks, signers, v);
  }

  lemma FoundByIdentity(d: Definition, v: Crypto, i: nat)
    requires InitDeckSetup(d, v).Ok? && i < |d.cards|
    ensures FindIdentity(d.cards, d.cards[i].identity) == Some(d.cards[i])
  {
    SetupStartsIff(d, v);
    var found := FindIdentity(d.cards, d.cards[i].identity);
    assert d.cards[i] in d.cards;
    var j :| 0 <= j < |d.cards| && d.cards[j] == found.value;
  }

  // ---- whose turn, and when ----

  /** In an accepted transcript the players take turns in seat order, first to shuffle and then to lock. */
  lemma {:induction false} TranscriptOrder(d: Definition, passes: seq<SignedPass>, k: nat, v: Crypto)
    requires InitDeckSetup(d, v).Ok? && Replayed(InitDeckSetup(d, v).value, passes, v).Ok? && k < |passes|
    ensures |passes| <= 2 * |d.participants|
    ensures var n := |d.participants|;
      if k < n then
        && passes[k].body.ShuffleBody? && passes[k].body.seat == d.participants[k].seat
        && passes[k].signedBy == d.participants[k].publicKey
      else
        && passes[k].body.LockBody? && passes[k].body.seat == d.participants[k - n].seat
        && passes[k].signedBy == d.participants[k - n].publicKey
    decreases |passes|
  {
    hide ApplyDeckPass, InitDeckSetup;
    var front := passes[..|passes| - 1];
    var s := Replayed(InitDeckSetup(d, v).value, front, v).value;
    PassCount(d, front, v);
    SameDefinition(d, front, v);
    PassInTurn(s, passes[|passes| - 1], v);
    if k < |front| {
      TranscriptOrder(d, front, k, v);
    }
  }

  lemma {:induction false} PassCount(d: Definition, passes: seq<SignedPass>, v: Crypto)
    requires InitDeckSetup(d, v).Ok? && Replayed(InitDeckSetup(d, v).value, passes, v).Ok?
    ensures var s := Replayed(InitDeckSetup(d, v).value, passes, v).value;
      |s.shuffleKeys| + |s.lockKeys| == |passes| && |s.shuffleKeys| <= |s.definition.participants|
      && (|s.lockKeys| > 0 ==> |s.shuffleKeys| == |s.definition.participants|)
    decreases |passes|
  {
    hide ApplyDeckPass;
    if passes != [] {
      PassCount(d, passes[..|passes| - 1], v);
      AppliedShape(Replayed(InitDeckSetup(d, v).value, passes[..|passes| - 1], v).value, passes[|passes| - 1], v);
    }
  }

  lemma PassInTurn(s: DeckState, pass: SignedPass, v: Crypto)
    requires ApplyDeckPass(s, pass, true, v).Ok?
    ensures var n, done := |s.definition.participants|, |s.shuffleKeys| + |s.lockKeys|;
      if |s.shuffleKeys| < n then
        && pass.body.ShuffleBody? && pass.body.seat == s.definition.participants[|s.shuffleKeys|].seat
        && pass.signedBy == s.definition.participants[|s.shuffleKeys|].publicKey
      else
        && |s.lockKeys| < n && pass.body.LockBody? && pass.body.seat == s.definition.participants[|s.lockKeys|].seat
        && pass.signedBy == s.definition.participants[|s.lockKeys|].publicKey
  {
    hide CheckedPoints, ValidDefinition;
  }

  /** No draw of a certified deck belongs to another game or comes before the entry that created the deck. */
  lemma FrozenAfterCreation(s: DeckState, request: DrawRequest, v: Crypto)
    requires FreezeDeckDraw(s, request, v).Ok? && s.definition.creation.Certified?
    ensures var c := s.definition.creation;
      && request.genesis == c.genesis && request.epoch >= c.epoch && request.anchor.height >= c.anchor.height
      && (request.anchor.height == c.anchor.height ==> request.anchor.hash == c.anchor.hash)
  {
    hide ValidState, ValidOperation;
  }

  /** A reveal is by the holder itself, in the same game and after the draw. */
  lemma RevealIsLater(s: DeckState, receipt: Receipt, identity: nat, proof: Proof, context: RevealContext,
                      signers: Option<seq<Signer>>, v: Crypto)
    requires VerifyDeckReveal(s, receipt, identity, proof, context, signers, None, v).Ok?
    ensures var request := receipt.operation.request;
      && context.genesis == request.genesis && context.seat == request.seat && context.epoch >= request.epoch
      && context.anchor.height > request.anchor.height
  {
    hide VerifiedReceipt, FindIdentity;
  }
}
