/** Drawing a card by peeling its locks off one by one (packages/protocol/src/deck-draw.ts). */
module DeckDraw {
  import opened Results
  import opened Group
  import opened Permutations
  import opened DeckSetup
  import opened DeckConservation

  datatype UnlockBody = UnlockBody(operation: DrawOperation, step: nat, seat: nat, point: int, proof: Proof)

  datatype SignedUnlock = SignedUnlock(body: UnlockBody, signedBy: nat)

  datatype Receipt = Receipt(operation: DrawOperation, point: int, unlocks: seq<SignedUnlock>)

  /** Who signs an unlock after a certified replacement of keys. */
  datatype Signer = Signer(seat: nat, publicKey: nat)

  /** The seat holding a dealt card, with the point only its own lock still covers. */
  datatype Holder = Holder(seat: nat, point: int, lockKey: int)

  predicate ValidOperation(op: DrawOperation) {
    && op.request.position < MAX_CARDS
    && NonIdentity(op.initialPoint)
    && 1 <= |op.participants| <= MAX_PARTICIPANTS
    && (forall i, j :: 0 <= i < j < |op.participants| ==>
          op.participants[i].seat < op.participants[j].seat
            && op.participants[i].publicKey != op.participants[j].publicKey)
    && (forall p :: p in op.participants ==> NonIdentity(p.lockKey))
    && exists p :: p in op.participants && p.seat == op.request.seat
  }

  function OtherSeats(participants: seq<DrawParticipant>, seat: nat): (r: seq<DrawParticipant>)
    ensures forall p :: p in r <==> p in participants && p.seat != seat
  {
    Select((p: DrawParticipant) => p.seat != seat, participants)
  }

  /** Everyone but the drawer unlocks a private draw; everyone unlocks a public one. */
  function Unlockers(op: DrawOperation): seq<DrawParticipant> {
    if op.request.shown then op.participants else OtherSeats(op.participants, op.request.seat)
  }

  function LockedParticipants(s: DeckState, position: nat): (r: seq<DrawParticipant>)
    requires |s.lockKeys| == |s.definition.participants|
    requires forall i :: 0 <= i < |s.lockKeys| ==> position < |s.lockKeys[i]|
    ensures |r| == |s.lockKeys|
    ensures forall i :: 0 <= i < |r| ==>
      r[i] == DrawParticipant(s.definition.participants[i].seat, s.definition.participants[i].publicKey,
                              s.lockKeys[i][position])
  {
    seq(|s.lockKeys|, i requires 0 <= i < |s.lockKeys| =>
      DrawParticipant(s.definition.participants[i].seat, s.definition.participants[i].publicKey,
                      s.lockKeys[i][position]))
  }

  /** A draw may not precede the certified creation of its deck. */
  predicate AfterCreation(creation: Creation, request: DrawRequest) {
    match creation
    case Ceremony => true
    case Certified(genesis, epoch, anchor) =>
      && genesis == request.genesis
      && epoch <= request.epoch
      && anchor.height <= request.anchor.height
      && (anchor.height == request.anchor.height ==> anchor.hash == request.anchor.hash)
  }

  function FreezeDeckDraw(s: DeckState, request: DrawRequest, v: Crypto): Result<DrawOperation> {
    if !ValidState(s, v) then Err("deck-state")
    else if request.position >= MAX_CARDS then Err("schema")
    else if |s.lockKeys| != |s.definition.participants| then Err("deck-incomplete")
    else if !AfterCreation(s.definition.creation, request) then Err("deck-creation-order")
    else if request.position >= |s.points| then Err("deck-position")
    else
      var op := DrawOperation(request, s, s.definition.deckId, s.definition.deckEpoch, s.points[request.position],
                              LockedParticipants(s, request.position));
      if ValidOperation(op) then Ok(op) else Err("deck-drawer")
  }

  // ---- unlocking ----

  /** Removing a lock: the old point is the new one times the lock, whose key is the lock times the base. */
  function UnlockStatement(previous: int, point: int, lockKey: int): DleqStatement {
    DleqStatement(point, previous, 1, lockKey)
  }

  predicate RosterMatches(signers: Option<seq<Signer>>, expected: seq<DrawParticipant>) {
    signers.Some? ==>
      |signers.value| == |expected| && forall i :: 0 <= i < |expected| ==> signers.value[i].seat == expected[i].seat
  }

  predicate UnlockFollows(op: DrawOperation, point: int, step: nat, unlock: SignedUnlock, signers: Option<seq<Signer>>,
                          v: Crypto)
    requires RosterMatches(signers, Unlockers(op))
  {
    var expected, body := Unlockers(op), unlock.body;
    && step < |expected| && body.step == step && body.seat == expected[step].seat && body.operation == op
    && unlock.signedBy == (if signers.Some? then signers.value[step].publicKey else expected[step].publicKey)
    && NonIdentity(body.point)
    && v.dleq(UnlockStatement(point, body.point, expected[step].lockKey), body.proof,
              UnlockContext(op, step, expected[step].seat))
  }

  /** The point left by a prefix of unlocks, when each follows the frozen order and proves its step. */
  function PrefixPoint(op: DrawOperation, unlocks: seq<SignedUnlock>, signers: Option<seq<Signer>>,
                       v: Crypto): Option<int>
    requires RosterMatches(signers, Unlockers(op))
  {
    if unlocks == [] then Some(op.initialPoint)
    else
      var step := |unlocks| - 1;
      match PrefixPoint(op, unlocks[..step], signers, v)
      case None => None
      case Some(point) => if UnlockFollows(op, point, step, unlocks[step], signers,
                                           v) then Some(unlocks[step].body.point) else None
  }

  lemma {:induction false} FailedUnlockFails(op: DrawOperation, unlocks: seq<SignedUnlock>, count: nat,
                                             signers: Option<seq<Signer>>, v: Crypto)
    requires RosterMatches(signers, Unlockers(op)) && count <= |unlocks|
      && PrefixPoint(op, unlocks[..count], signers, v).None?
    ensures PrefixPoint(op, unlocks, signers, v).None?
    decreases |unlocks|
  {
    if count == |unlocks| {
      assert unlocks[..count] == unlocks;
    } else {
      assert unlocks[..|unlocks| - 1][..count] == unlocks[..count];
      FailedUnlockFails(op, unlocks[..|unlocks| - 1], count, signers, v);
    }
  }

  predicate PrefixAccepted(op: DrawOperation, unlocks: seq<SignedUnlock>, signers: Option<seq<Signer>>, v: Crypto) {
    && ValidOperation(op) && RosterMatches(signers, Unlockers(op)) && |unlocks| <= |Unlockers(op)|
    && PrefixPoint(op, unlocks, signers, v).Some?
  }

  /** The checking loop, which carries the point from one unlock to the next. */
  method VerifyDeckUnlockPrefix(op: DrawOperation, unlocks: seq<SignedUnlock>, signers: Option<seq<Signer>>, v: Crypto)
    returns (r: Result<int>)
    ensures r.Ok? <==> PrefixAccepted(op, unlocks, signers, v)
    ensures r.Ok? ==> PrefixPoint(op, unlocks, signers, v) == Some(r.value)
  {
    hide UnlockFollows;
    if !ValidOperation(op) {
      return Err("deck-operation");
    }
    if !RosterMatches(signers, Unlockers(op)) {
      return Err("deck-unlock-authority");
    }
    if |unlocks| > |Unlockers(op)| {
      return Err("schema");
    }
    var point := op.initialPoint;
    for step := 0 to |unlocks|
      invariant PrefixPoint(op, unlocks[..step], signers, v) == Some(point)
    {
      assert unlocks[..step + 1][..step] == unlocks[..step];
      if !UnlockFollows(op, point, step, unlocks[step], signers, v) {
        FailedUnlockFails(op, unlocks, step + 1, signers, v);
        return Err("deck-unlock");
      }
      point := unlocks[step].body.point;
    }
    assert unlocks[..|unlocks|] == unlocks;
    return Ok(point);
  }

  /** The next unlock divides the point by this seat's lock, and its statement is true. */
  function SignDeckUnlock(op: DrawOperation, prefix: seq<SignedUnlock>, lock: int, signer: nat,
                          signers: Option<seq<Signer>>, v: Crypto): Result<int> {
    if !PrefixAccepted(op, prefix, signers, v) then Err("deck-unlock")
    else if |prefix| >= |Unlockers(op)| then Err("range")
    else
      var participant := Unlockers(op)[|prefix|];
      if signer != (if signers.Some? then signers.value[|prefix|].publicKey else participant.publicKey)
      then Err("range")
      else if ScalePoint(1, lock) != participant.lockKey then Err("range")
      else
        match InvertScalar(lock)
        case Err(code) => Err(code)
        case Ok(inverse) => Ok(ScalePoint(PrefixPoint(op, prefix, signers, v).value, inverse))
  }

  // ---- decoding ----

  predicate CompleteDraw(op: DrawOperation, unlocks: seq<SignedUnlock>, signers: Option<seq<Signer>>, v: Crypto) {
    PrefixAccepted(op, unlocks, signers, v) && |unlocks| == |Unlockers(op)|
  }

  /** A receipt counts only for the draw that this deck freezes for its request. */
  predicate VerifiedReceipt(s: DeckState, receipt: Receipt, signers: Option<seq<Signer>>, v: Crypto) {
    var expected := FreezeDeckDraw(s, receipt.operation.request, v);
    && expected.Ok? && expected.value == receipt.operation
    && CompleteDraw(expected.value, receipt.unlocks, signers, v)
    && PrefixPoint(expected.value, receipt.unlocks, signers, v) == Some(receipt.point)
  }

  function DealtHolder(receipt: Receipt): Option<Holder> {
    match Find((p: DrawParticipant) => p.seat == receipt.operation.request.seat, receipt.operation.participants)
    case Some(owner) => Some(Holder(owner.seat, receipt.point, owner.lockKey))
    case None => None
  }

  function FindCard(d: Definition, cards: seq<Card>, point: int, v: Crypto): (r: Option<Card>)
    ensures r.Some? ==> r.value in cards && v.cardPoint(d, r.value.identity) == point
    ensures r.None? ==> forall c :: c in cards ==> v.cardPoint(d, c.identity) != point
  {
    Find((c: Card) => v.cardPoint(d, c.identity) == point, cards)
  }

  function DecodePoint(s: DeckState, point: int, v: Crypto): Result<Card> {
    match FindCard(s.definition, s.definition.cards, point, v)
    case Some(card) => Ok(card)
    case None => Err("deck-decode")
  }

  /** The holder opens its own card; a certified re-lock may name another holder. */
  function DecodeDeckCard(s: DeckState, receipt: Receipt, lock: int, signers: Option<seq<Signer>>,
                          held: Option<Holder>, v: Crypto): Result<Card> {
    if !VerifiedReceipt(s, receipt, signers, v) then Err("deck-receipt")
    else
      var owner := if held.Some? then held else DealtHolder(receipt);
      if owner.None? || ScalePoint(1, lock) != owner.value.lockKey then Err("deck-owner-lock")
      else
        match InvertScalar(lock)
        case Err(_) => Err("deck-owner-lock")
        case Ok(inverse) => DecodePoint(s, ScalePoint(owner.value.point, inverse), v)
  }

  function DecodePublicDeckCard(s: DeckState, receipt: Receipt, signers: Option<seq<Signer>>, v: Crypto): Result<Card> {
    if !receipt.operation.request.shown then Err("deck-public-mode")
    else if !VerifiedReceipt(s, receipt, signers, v) then Err("deck-receipt")
    else DecodePoint(s, receipt.point, v)
  }

  // ---- why decoding finds the dealt card ----

  function LockKeys(participants: seq<DrawParticipant>): (r: seq<int>)
    ensures |r| == |participants| && forall i :: 0 <= i < |r| ==> r[i] == participants[i].lockKey
  {
    seq(|participants|, i requires 0 <= i < |participants| => participants[i].lockKey)
  }

  lemma UnlockRemoves(previous: int, point: int, lockKey: int, rest: int)
    requires DleqRelation(UnlockStatement(previous, point, lockKey))
    ensures Same(previous * rest, point * (rest * lockKey))
  {
    hide Same, ScalePoint;
    var e :| previous == ScalePoint(point, e) && lockKey == ScalePoint(1, e);
    assert 1 * e == e;
    MulSame(previous, point * e, rest, rest);
    MulSame(lockKey, e, point * rest, point * rest);
    assert point * e * rest == e * (point * rest) && point * (rest * lockKey) == lockKey * (point * rest);
    SameChain(previous * rest, e * (point * rest), e * (point * rest), point * (rest * lockKey));
  }

  lemma MulChain(a: int, b: int, c: int)
    requires Same(a, b) && Same(b, c)
    ensures Same(a, c)
  {
  }

  /** The initial point is what a prefix leaves, times the locks it removed. */
  lemma {:induction false} PrefixRemoves(op: DrawOperation, unlocks: seq<SignedUnlock>, signers: Option<seq<Signer>>,
                                         v: Crypto)
    requires Sound(v) && RosterMatches(signers, Unlockers(op)) && |unlocks| <= |Unlockers(op)|
    requires PrefixPoint(op, unlocks, signers, v).Some?
    ensures Same(op.initialPoint, PrefixPoint(op, unlocks, signers,
                                              v).value * Prod(LockKeys(Unlockers(op)[..|unlocks|])))
    decreases |unlocks|
  {
    hide Same, Unlockers, DleqRelation;
    var expected := Unlockers(op);
    if unlocks == [] {
      NoLocks(op.initialPoint);
      assert LockKeys(expected[..0]) == [];
    } else {
      var step := |unlocks| - 1;
      var front := unlocks[..step];
      var previous, point := PrefixPoint(op, front, signers, v).value, unlocks[step].body.point;
      PrefixRemoves(op, front, signers, v);
      var rest := Prod(LockKeys(expected[..step]));
      UnlockRemoves(previous, point, expected[step].lockKey, rest);
      var keys := LockKeys(expected[..|unlocks|]);
      assert keys[..step] == LockKeys(expected[..step]);
      MulChain(op.initialPoint, previous * rest, point * (rest * expected[step].lockKey));
    }
  }

  lemma NoLocks(point: int)
    ensures Same(point, point * Prod([]))
  {
  }

  predicate OrderedParticipants(participants: seq<DrawParticipant>) {
    && (forall i, j :: 0 <= i < j < |participants| ==> participants[i].seat < participants[j].seat)
    && forall p :: p in participants ==> NonIdentity(p.lockKey)
  }

  lemma {:induction false} ProdNonzero(participants: seq<DrawParticipant>)
    requires OrderedParticipants(participants)
    ensures !Same(Prod(LockKeys(participants)), 0)
  {
    hide Same;
    if participants == [] {
      OneIsCanonical();
    } else {
      var front, last := participants[..|participants| - 1], participants[|participants| - 1];
      assert participants == front + [last];
      ProdNonzero(front);
      KeysPush(front, last);
      assert last in participants;
      IdentityOnly(last.lockKey);
      ProductNonzero(Prod(LockKeys(front)), last.lockKey);
    }
  }

  lemma IdentityOnly(point: int)
    requires NonIdentity(point)
    ensures !Same(point, 0)
  {
  }

  lemma {:induction false} NobodyLeft(participants: seq<DrawParticipant>, seat: nat)
    requires forall p :: p in participants ==> p.seat != seat
    ensures OtherSeats(participants, seat) == participants
  {
    if participants != [] {
      NobodyLeft(participants[..|participants| - 1], seat);
    }
  }

  lemma OtherSeatsPush(front: seq<DrawParticipant>, last: DrawParticipant, seat: nat)
    ensures OtherSeats(front + [last], seat) == OtherSeats(front, seat) + (if last.seat != seat then [last] else [])
  {
    assert (front + [last])[..|front|] == front;
  }

  /** Leaving one seat out divides the product of all locks by that seat's lock. */
  lemma {:induction false} ProdWithout(participants: seq<DrawParticipant>, owner: DrawParticipant)
    requires OrderedParticipants(participants) && owner in participants
    ensures Prod(LockKeys(participants)) == Prod(LockKeys(OtherSeats(participants, owner.seat))) * owner.lockKey
  {
    hide Prod, OtherSeats;
    var front, last := participants[..|participants| - 1], participants[|participants| - 1];
    assert participants == front + [last];
    OtherSeatsPush(front, last, owner.seat);
    KeysPush(front, last);
    if last.seat == owner.seat {
      assert last == owner;
      forall p | p in front ensures p.seat != owner.seat {
        var i :| 0 <= i < |front| && front[i] == p;
        assert participants[i].seat < participants[|front|].seat;
      }
      NobodyLeft(front, owner.seat);
      assert OtherSeats(participants, owner.seat) == front;
    } else {
      ProdWithout(front, owner);
      KeysPush(OtherSeats(front, owner.seat), last);
      var rest := Prod(LockKeys(OtherSeats(front, owner.seat)));
      assert rest * owner.lockKey * last.lockKey == rest * last.lockKey * owner.lockKey;
    }
  }

  lemma KeysPush(front: seq<DrawParticipant>, last: DrawParticipant)
    ensures Prod(LockKeys(front + [last])) == Prod(LockKeys(front)) * last.lockKey
  {
    assert LockKeys(front + [last])[..|front|] == LockKeys(front);
  }

  /** A frozen draw starts from the position's card under every participant's lock. */
  lemma FrozenPoint(s: DeckState, sigma: seq<int>, request: DrawRequest, v: Crypto)
    requires Holds(s, sigma, v) && FreezeDeckDraw(s, request, v).Ok?
    ensures var op := FreezeDeckDraw(s, request, v).value;
      && request.position < |sigma| == |s.definition.cards| && 0 <= sigma[request.position] < |s.definition.cards|
      && OrderedParticipants(op.participants)
      && Same(op.initialPoint, Prod(LockKeys(op.participants)) * v.cardPoint(s.definition,
          s.definition.cards[sigma[request.position]].identity))
  {
    hide Same, Prod, CheckedPoints;
    var op := FreezeDeckDraw(s, request, v).value;
    assert s.shuffleKeys[|s.lockKeys|..] == [];
    assert Layers(s, request.position) == LockKeys(op.participants);
  }

  lemma CardIsCanonical(d: Definition, v: Crypto, i: nat)
    requires InitDeckSetup(d, v).Ok? && i < |d.cards|
    ensures Canonical(v.cardPoint(d, d.cards[i].identity))
    ensures forall j ::
      0 <= j < |d.cards| && v.cardPoint(d, d.cards[j].identity) == v.cardPoint(d, d.cards[i].identity) ==> j == i
  {
    var points := CardPoints(d, v);
    assert CheckedPoints(points, |d.cards|);
    assert points[i] == v.cardPoint(d, d.cards[i].identity);
    forall j | 0 <= j < |d.cards| && v.cardPoint(d, d.cards[j].identity) == v.cardPoint(d, d.cards[i].identity)
      ensures j == i
    {
      assert points[j] == points[i];
    }
  }

  lemma DecodedCard(s: DeckState, point: int, v: Crypto, i: nat)
    requires InitDeckSetup(s.definition, v).Ok? && i < |s.definition.cards|
    requires Canonical(point) && Same(point, v.cardPoint(s.definition, s.definition.cards[i].identity))
    ensures DecodePoint(s, point, v) == Ok(s.definition.cards[i])
  {
    hide InitDeckSetup;
    var d := s.definition;
    CardIsCanonical(d, v, i);
    CanonicalSame(point, v.cardPoint(d, d.cards[i].identity));
    var found := FindCard(d, d.cards, point, v);
    assert d.cards[i] in d.cards;
    var j :| 0 <= j < |d.cards| && d.cards[j] == found.value;
  }

  lemma Cancelled(start: int, locks: int, card: int, point: int, removed: int, left: int)
    requires Same(start, locks * card) && Same(start, point * removed) && locks == removed * left && !Same(removed, 0)
    ensures Same(point, left * card)
  {
    hide Same;
    assert removed * left * card == removed * (left * card) && point * removed == removed * point;
    MulChain2(start, removed * point, removed * (left * card));
    CancelFactor(removed, point, left * card);
  }

  lemma MulChain2(a: int, b: int, c: int)
    requires Same(a, b) && Same(a, c)
    ensures Same(b, c)
  {
  }

  lemma {:induction false} OthersOrdered(participants: seq<DrawParticipant>, seat: nat)
    requires OrderedParticipants(participants)
    ensures OrderedParticipants(OtherSeats(participants, seat))
  {
    if participants != [] {
      var front, last := participants[..|participants| - 1], participants[|participants| - 1];
      assert participants == front + [last];
      OthersOrdered(front, seat);
      OtherSeatsPush(front, last, seat);
    }
  }

  /** After a complete public draw nothing covers the card; after a private one only the drawer's lock. */
  lemma DealtPoint(s: DeckState, sigma: seq<int>, receipt: Receipt, signers: Option<seq<Signer>>,
                   owner: DrawParticipant, v: Crypto)
    requires Sound(v) && Holds(s, sigma, v) && VerifiedReceipt(s, receipt, signers, v)
    requires owner in receipt.operation.participants && owner.seat == receipt.operation.request.seat
    ensures var position := receipt.operation.request.position;
      && position < |sigma| == |s.definition.cards| && 0 <= sigma[position] < |s.definition.cards|
      && Same(receipt.point, (if receipt.operation.request.shown then 1 else owner.lockKey)
                             * v.cardPoint(s.definition, s.definition.cards[sigma[position]].identity))
  {
    hide Same, Prod, Holds, ValidState, ValidOperation, OtherSeats, FreezeDeckDraw;
    var op := receipt.operation;
    FrozenPoint(s, sigma, op.request, v);
    PrefixRemoves(op, receipt.unlocks, signers, v);
    var unlockers := Unlockers(op);
    assert unlockers[..|receipt.unlocks|] == unlockers;
    OthersOrdered(op.participants, owner.seat);
    ProdNonzero(unlockers);
    ProdWithout(op.participants, owner);
    var removed := Prod(LockKeys(unlockers));
    assert removed * 1 == removed;
    Cancelled(op.initialPoint, Prod(LockKeys(op.participants)),
              v.cardPoint(s.definition, s.definition.cards[sigma[op.request.position]].identity),
              receipt.point, removed, if op.request.shown then 1 else owner.lockKey);
  }

  lemma OpensLock(point: int, lock: int, lockKey: int, card: int)
    requires ScalePoint(1, lock) == lockKey && InvertScalar(lock).Ok? && Same(point, lockKey * card)
    ensures Same(ScalePoint(point, InvertScalar(lock).value), card)
  {
    hide Same, InvertScalar;
    var inverse := InvertScalar(lock).value;
    assert lockKey == lock;
    InverseIsOne(lock, inverse);
    MulSame(point, lock * card, inverse, inverse);
    MulSame(lock * inverse, 1, card, card);
    assert lock * card * inverse == lock * inverse * card;
    SameChain(ScalePoint(point, inverse), point * inverse, lock * inverse * card, lock * inverse * card);
    MulChain(ScalePoint(point, inverse), lock * inverse * card, 1 * card);
  }

  lemma InverseIsOne(lock: int, inverse: int)
    requires ModScalar(lock * inverse) == 1
    ensures Same(lock * inverse, 1)
  {
    OneIsCanonical();
  }

  lemma DealtHolderIsOwner(receipt: Receipt, owner: DrawParticipant)
    requires OrderedParticipants(receipt.operation.participants)
    requires owner in receipt.operation.participants && owner.seat == receipt.operation.request.seat
    ensures DealtHolder(receipt) == Some(Holder(owner.seat, receipt.point, owner.lockKey))
  {
    var ps := receipt.operation.participants;
    var found := Find((p: DrawParticipant) => p.seat == receipt.operation.request.seat, ps);
    var i :| 0 <= i < |ps| && ps[i] == owner;
    var j :| 0 <= j < |ps| && ps[j] == found.value;
  }

  /** Every private draw decodes to the one card of its position, whoever draws it. */
  lemma PrivateDrawDecodes(s: DeckState, sigma: seq<int>, receipt: Receipt, lock: int, owner: DrawParticipant,
                           signers: Option<seq<Signer>>, v: Crypto)
    requires Sound(v) && Holds(s, sigma, v) && InitDeckSetup(s.definition, v).Ok?
    requires VerifiedReceipt(s, receipt, signers, v) && !receipt.operation.request.shown
    requires owner in receipt.operation.participants && owner.seat == receipt.operation.request.seat
    requires 0 < lock < SCALAR_ORDER && ScalePoint(1, lock) == owner.lockKey
    ensures var position := receipt.operation.request.position;
      && position < |sigma| && 0 <= sigma[position] < |s.definition.cards|
      && DecodeDeckCard(s, receipt, lock, signers, None, v) == Ok(s.definition.cards[sigma[position]])
  {
    hide Same, Holds, VerifiedReceipt, InitDeckSetup, ScalePoint, DecodePoint;
    DealtPoint(s, sigma, receipt, signers, owner, v);
    ReceiptIsFrozen(s, sigma, receipt, signers, v);
    DealtHolderIsOwner(receipt, owner);
    var index := sigma[receipt.operation.request.position];
    OpensLock(receipt.point, lock, owner.lockKey, v.cardPoint(s.definition, s.definition.cards[index].identity));
    DecodedCard(s, ScalePoint(receipt.point, InvertScalar(lock).value), v, index);
  }

  lemma ReceiptIsFrozen(s: DeckState, sigma: seq<int>, receipt: Receipt, signers: Option<seq<Signer>>, v: Crypto)
    requires Holds(s, sigma, v) && VerifiedReceipt(s, receipt, signers, v)
    ensures OrderedParticipants(receipt.operation.participants) && Canonical(receipt.point)
    ensures exists owner :: owner in receipt.operation.participants && owner.seat == receipt.operation.request.seat
  {
    hide Holds, CheckedPoints;
    FrozenPoint(s, sigma, receipt.operation.request, v);
  }

  /** Every public draw shows the one card of its position. */
  lemma PublicDrawDecodes(s: DeckState, sigma: seq<int>, receipt: Receipt, signers: Option<seq<Signer>>, v: Crypto)
    requires Sound(v) && Holds(s, sigma, v) && InitDeckSetup(s.definition, v).Ok?
    requires VerifiedReceipt(s, receipt, signers, v) && receipt.operation.request.shown
    ensures var position := receipt.operation.request.position;
      && position < |sigma| && 0 <= sigma[position] < |s.definition.cards|
      && DecodePublicDeckCard(s, receipt, signers, v) == Ok(s.definition.cards[sigma[position]])
  {
    hide Same, Holds, VerifiedReceipt, InitDeckSetup, DecodePoint;
    ReceiptIsFrozen(s, sigma, receipt, signers, v);
    var owner :| owner in receipt.operation.participants && owner.seat == receipt.operation.request.seat;
    DealtPoint(s, sigma, receipt, signers, owner, v);
    DecodedCard(s, receipt.point, v, sigma[receipt.operation.request.position]);
  }

  lemma PrivateDecodeIsDealt(s: DeckState, sigma: seq<int>, receipt: Receipt, lock: int, signers: Option<seq<Signer>>,
                             v: Crypto)
    requires Sound(v) && Holds(s, sigma, v) && InitDeckSetup(s.definition, v).Ok?
    requires DecodeDeckCard(s, receipt, lock, signers, None, v).Ok? && !receipt.operation.request.shown
    ensures var position := receipt.operation.request.position;
      && position < |sigma| && 0 <= sigma[position] < |s.definition.cards|
      && DecodeDeckCard(s, receipt, lock, signers, None, v) == Ok(s.definition.cards[sigma[position]])
  {
    hide Same, Holds, VerifiedReceipt, InitDeckSetup, ScalePoint, DecodePoint;
    ReceiptIsFrozen(s, sigma, receipt, signers, v);
    var owner :| owner in receipt.operation.participants && owner.seat == receipt.operation.request.seat;
    DealtHolderIsOwner(receipt, owner);
    PrivateDrawDecodes(s, sigma, receipt, lock, owner, signers, v);
  }

  /**
   * One deal for everyone: an accepted transcript fixes one bijection from positions to cards, and
   * whatever any private or public draw of a position decodes to is the card of that position.
   */
  lemma OneDealForEveryone(d: Definition, passes: seq<SignedPass>, v: Crypto) returns (sigma: seq<int>)
    requires Sound(v) && InitDeckSetup(d, v).Ok? && Replayed(InitDeckSetup(d, v).value, passes, v).Ok?
    ensures IsPermutation(sigma, |d.cards|)
    ensures var s := Replayed(InitDeckSetup(d, v).value, passes, v).value;
      && (forall receipt, lock, signers | DecodeDeckCard(s, receipt, lock, signers, None, v).Ok?
          && !receipt.operation.request.shown ::
            receipt.operation.request.position < |d.cards|
            && DecodeDeckCard(s, receipt, lock, signers, None, v).value
                 == d.cards[sigma[receipt.operation.request.position]])
      && (forall receipt, signers | DecodePublicDeckCard(s, receipt, signers, v).Ok? ::
            receipt.operation.request.position < |d.cards|
            && DecodePublicDeckCard(s, receipt, signers, v).value == d.cards[sigma[receipt.operation.request.position]])
  {
    hide DecodeDeckCard, Sound, Holds;
    sigma := TranscriptHolds(d, passes, v);
    SameDefinition(d, passes, v);
    var s := Replayed(InitDeckSetup(d, v).value, passes, v).value;
    HoldsBijection(s, sigma, v);
    forall receipt, lock, signers | DecodeDeckCard(s, receipt, lock, signers, None, v).Ok?
      && !receipt.operation.request.shown
      ensures receipt.operation.request.position < |d.cards|
        && DecodeDeckCard(s, receipt, lock, signers, None, v).value
             == d.cards[sigma[receipt.operation.request.position]]
    {
      PrivateDecodeIsDealt(s, sigma, receipt, lock, signers, v);
    }
    forall receipt, signers | DecodePublicDeckCard(s, receipt, signers, v).Ok?
      ensures receipt.operation.request.position < |d.cards|
        && DecodePublicDeckCard(s, receipt, signers, v).value == d.cards[sigma[receipt.operation.request.position]]
    {
      PublicDrawDecodes(s, sigma, receipt, signers, v);
    }
  }

  lemma HoldsBijection(s: DeckState, sigma: seq<int>, v: Crypto)
    requires Holds(s, sigma, v)
    ensures |s.points| == |s.definition.cards| && IsPermutation(sigma, |s.definition.cards|)
  {
  }

  lemma {:induction false} SameDefinition(d: Definition, passes: seq<SignedPass>, v: Crypto)
    requires InitDeckSetup(d, v).Ok? && Replayed(InitDeckSetup(d, v).value, passes, v).Ok?
    ensures Replayed(InitDeckSetup(d, v).value, passes, v).value.definition == d
    decreases |passes|
  {
    hide ApplyDeckPass;
    if passes != [] {
      SameDefinition(d, passes[..|passes| - 1], v);
      AppliedShape(Replayed(InitDeckSetup(d, v).value, passes[..|passes| - 1], v).value, passes[|passes| - 1], v);
    }
  }

  /** Signing the next unlock divides out exactly this seat's lock: its statement is true. */
  lemma SignedUnlockHolds(op: DrawOperation, prefix: seq<SignedUnlock>, lock: int, signer: nat,
                          signers: Option<seq<Signer>>, v: Crypto)
    requires SignDeckUnlock(op, prefix, lock, signer, signers, v).Ok?
    requires Canonical(PrefixPoint(op, prefix, signers, v).value)
    ensures DleqRelation(UnlockStatement(PrefixPoint(op, prefix, signers, v).value,
                                         SignDeckUnlock(op, prefix, lock, signer, signers, v).value,
                                         Unlockers(op)[|prefix|].lockKey))
  {
    hide PrefixPoint, InvertScalar, Unlockers, ValidOperation, RosterMatches;
    var previous := PrefixPoint(op, prefix, signers, v).value;
    var inverse := InvertScalar(lock).value;
    OpensBack(previous, lock, inverse);
  }

  lemma OpensBack(previous: int, lock: int, inverse: int)
    requires Canonical(previous) && ModScalar(lock * inverse) == 1
    ensures previous == ScalePoint(ScalePoint(previous, inverse), lock)
  {
    hide ModScalar;
    InverseIsOne(lock, inverse);
    var point := ScalePoint(previous, inverse);
    MulSame(point, previous * inverse, lock, lock);
    MulSame(lock * inverse, 1, previous, previous);
    assert previous * inverse * lock == lock * inverse * previous;
    SameChain(ScalePoint(point, lock), point * lock, lock * inverse * previous, lock * inverse * previous);
    MulChain(ScalePoint(point, lock), lock * inverse * previous, 1 * previous);
    CanonicalSame(previous, ScalePoint(point, lock));
  }
}
