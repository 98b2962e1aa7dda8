/**
 * Shuffling and locking a deck without a dealer (packages/protocol/src/deck-setup.ts). A point is
 * its discrete logarithm, an operation id is the object it hashes, and a signature is the key it
 * verifies under.
 */
module DeckSetup {
  import opened Results
  import opened Group
  import opened Permutations

  type Proof = nat

  datatype Card = Card(identity: nat, card: nat)

  datatype Participant = Participant(seat: nat, publicKey: nat)

  datatype Anchor = Anchor(height: nat, hash: nat)

  datatype Creation = Ceremony | Certified(genesis: nat, epoch: nat, anchor: Anchor)

  datatype Definition = Definition(ceremonyId: nat, deckId: nat, deckEpoch: nat, creation: Creation, cards: seq<Card>,
                                   participants: seq<Participant>)

  datatype DeckState = DeckState(definition: Definition, points: seq<int>, shuffleKeys: seq<int>,
                                 lockKeys: seq<seq<int>>)

  datatype PassBody =
    | ShuffleBody(operation: DeckState, seat: nat, output: seq<int>, publicKey: int, proof: Proof)
    | LockBody(operation: DeckState, seat: nat, output: seq<int>, lockKeys: seq<int>, proofs: seq<Proof>)

  datatype SignedPass = SignedPass(body: PassBody, signedBy: nat)

  datatype ShuffleStatement = ShuffleStatement(input: seq<int>, output: seq<int>, publicKey: int)

  datatype DleqStatement = DleqStatement(base1: int, point1: int, base2: int, point2: int)

  datatype DrawRequest = DrawRequest(genesis: nat, epoch: nat, anchor: Anchor, position: nat, seat: nat, slotId: nat,
                                     shown: bool)

  datatype DrawParticipant = DrawParticipant(seat: nat, publicKey: nat, lockKey: int)

  /** A frozen draw; `setup` stands for the hash of the locked deck. */
  datatype DrawOperation = DrawOperation(request: DrawRequest, setup: DeckState, deckId: nat, deckEpoch: nat,
                                         initialPoint: int,
                                         participants: seq<DrawParticipant>)

  /** The command a reveal or a denial belongs to. */
  datatype RevealContext = RevealContext(genesis: nat, epoch: nat, anchor: Anchor, seat: nat, nonce: nat, command: nat)

  /** What a proof is bound to. */
  datatype ProofContext =
    | PassContext(operation: DeckState, seat: nat, position: Option<nat>)
    | UnlockContext(draw: DrawOperation, step: nat, unlocker: nat)
    | ShowContext(draw: DrawOperation, identity: nat, action: RevealContext)

  /** The proof verifiers a deck relies on, and the hash of a deck's card identity to its point. */
  datatype Crypto = Crypto(shuffle: (ShuffleStatement, Proof, ProofContext) -> bool,
                           dleq: (DleqStatement, Proof, ProofContext) -> bool,
                           cardPoint: (Definition, nat) -> int)

  const MAX_CARDS := 128
  const MAX_PARTICIPANTS := 6

  predicate NonIdentity(point: int) {
    Canonical(point) && point != 0
  }

  predicate CheckedPoints(points: seq<int>, size: nat) {
    && |points| == size
    && (forall i :: 0 <= i < size ==> NonIdentity(points[i]))
    && forall i, j :: 0 <= i < j < size ==> points[i] != points[j]
  }

  // ---- what the proofs mean ----

  /** The output is the input multiplied by the key's secret and moved by some permutation. */
  ghost predicate ShuffleRelation(st: ShuffleStatement) {
    exists pi, secret ::
      && IsPermutation(pi, |st.input|) && |st.output| == |st.input|
      && st.publicKey == ScalePoint(1, secret)
      && forall i :: 0 <= i < |st.input| ==> st.output[pi[i]] == ScalePoint(st.input[i], secret)
  }

  ghost predicate DleqRelation(st: DleqStatement) {
    exists e :: st.point1 == ScalePoint(st.base1, e) && st.point2 == ScalePoint(st.base2, e)
  }

  ghost predicate Sound(v: Crypto) {
    && (forall st, proof, context :: v.shuffle(st, proof, context) ==> ShuffleRelation(st))
    && (forall st, proof, context :: v.dleq(st, proof, context) ==> DleqRelation(st))
  }

  // ---- validation ----

  predicate ValidDefinition(d: Definition) {
    && 1 <= |d.cards| <= MAX_CARDS
    && (forall i, j :: 0 <= i < j < |d.cards| ==> d.cards[i].identity != d.cards[j].identity)
    && 1 <= |d.participants| <= MAX_PARTICIPANTS
    && (forall i, j :: 0 <= i < j < |d.participants| ==>
          d.participants[i].seat < d.participants[j].seat && d.participants[i].publicKey != d.participants[j].publicKey)
  }

  function CardPoints(d: Definition, v: Crypto): (r: seq<int>)
    ensures |r| == |d.cards| && forall i :: 0 <= i < |r| ==> r[i] == v.cardPoint(d, d.cards[i].identity)
  {
    seq(|d.cards|, i requires 0 <= i < |d.cards| => v.cardPoint(d, d.cards[i].identity))
  }

  predicate ValidState(s: DeckState, v: Crypto) {
    var size, players := |s.definition.cards|, |s.definition.participants|;
    && ValidDefinition(s.definition)
    && CheckedPoints(s.points, size)
    && |s.shuffleKeys| <= players && |s.lockKeys| <= players
    && (|s.lockKeys| > 0 ==> |s.shuffleKeys| == players)
    && (forall i :: 0 <= i < |s.shuffleKeys| ==> NonIdentity(s.shuffleKeys[i]))
    && (forall i :: 0 <= i < |s.lockKeys| ==> CheckedPoints(s.lockKeys[i], size))
    && (s.shuffleKeys == [] && s.lockKeys == [] ==> s.points == CardPoints(s.definition, v))
  }

  function CheckState(s: DeckState, v: Crypto): Result<DeckState> {
    if ValidState(s, v) then Ok(s) else Err("deck-state")
  }

  function InitDeckSetup(d: Definition, v: Crypto): Result<DeckState> {
    if !ValidDefinition(d) then Err("deck-definition")
    else CheckState(DeckState(d, CardPoints(d, v), [], []), v)
  }

  datatype Actor = Shuffler(participant: Participant) | Locker(participant: Participant) | Nobody

  function NextActor(s: DeckState): Actor {
    var participants := s.definition.participants;
    if |s.shuffleKeys| < |participants| then Shuffler(participants[|s.shuffleKeys|])
    else if |s.lockKeys| < |participants| then Locker(participants[|s.lockKeys|])
    else Nobody
  }

  predicate IsTurn(s: DeckState, body: PassBody) {
    match NextActor(s)
    case Shuffler(p) => body.ShuffleBody? && body.seat == p.seat
    case Locker(p) => body.LockBody? && body.seat == p.seat
    case Nobody => false
  }

  function LockStatement(s: DeckState, body: PassBody, position: nat): DleqStatement
    requires body.LockBody? && position < |s.points| == |body.output| == |body.lockKeys|
    requires |s.lockKeys| < |s.shuffleKeys|
  {
    DleqStatement(s.points[position], body.output[position], s.shuffleKeys[|s.lockKeys|], body.lockKeys[position])
  }

  /** One signed pass. `verify` is off only for progress checks before certification. */
  function ApplyDeckPass(s: DeckState, pass: SignedPass, verify: bool, v: Crypto): Result<DeckState> {
    var body := pass.body;
    if !ValidState(s, v) then Err("deck-state")
    else if !IsTurn(s, body) then Err("deck-order")
    else if body.operation != s then Err("deck-operation")
    else if |body.output| != |s.points|
      || (body.LockBody? && (|body.lockKeys| != |s.points| || |body.proofs| != |s.points|))
      then Err("deck-dimensions")
    else if pass.signedBy != NextActor(s).participant.publicKey then Err("deck-signature")
    else if !CheckedPoints(body.output, |s.points|) then Err("deck-points")
    else
      match body
      case ShuffleBody(_, seat, output, publicKey, proof) =>
        if !NonIdentity(publicKey) then Err("deck-key")
        else if verify && !v.shuffle(ShuffleStatement(s.points, output, publicKey), proof, PassContext(s, seat, None))
          then Err("deck-shuffle-proof")
        else CheckState(s.(points := output, shuffleKeys := s.shuffleKeys + [publicKey]), v)
      case LockBody(_, seat, output, lockKeys, proofs) =>
        if !CheckedPoints(lockKeys, |s.points|) then Err("deck-key")
        else if |s.lockKeys| >= |s.shuffleKeys| then Err("deck-state")
        else if verify && !LockProofsHold(s, body, v) then Err("deck-lock-proof")
        else CheckState(s.(points := output, lockKeys := s.lockKeys + [lockKeys]), v)
  }

  predicate LockProofsHold(s: DeckState, body: PassBody, v: Crypto)
    requires body.LockBody? && |s.points| == |body.output| == |body.lockKeys| == |body.proofs|
    requires |s.lockKeys| < |s.shuffleKeys|
  {
    forall position: nat :: position < |s.points| ==>
      v.dleq(LockStatement(s, body, position), body.proofs[position], PassContext(s, body.seat, Some(position)))
  }

  // ---- replay ----

  /** The state after some passes, if every one applies. */
  function Replayed(s: DeckState, passes: seq<SignedPass>, v: Crypto): Result<DeckState> {
    if passes == [] then Ok(s)
    else
      match Replayed(s, passes[..|passes| - 1], v)
      case Err(code) => Err(code)
      case Ok(mid) => ApplyDeckPass(mid, passes[|passes| - 1], true, v)
  }

  lemma {:induction false} FailedPrefixFails(s: DeckState, passes: seq<SignedPass>, count: nat, v: Crypto)
    requires count <= |passes| && Replayed(s, passes[..count], v).Err?
    ensures Replayed(s, passes, v).Err?
    decreases |passes|
  {
    if count == |passes| {
      assert passes[..count] == passes;
    } else {
      assert passes[..|passes| - 1][..count] == passes[..count];
      FailedPrefixFails(s, passes[..|passes| - 1], count, v);
    }
  }

  /** The whole transcript: one shuffle and one lock by every participant, folded in order. */
  method ReplayDeckSetup(d: Definition, passes: seq<SignedPass>, v: Crypto) returns (r: Result<DeckState>)
    ensures r.Ok? <==>
      InitDeckSetup(d, v).Ok? && |passes| == 2 * |d.participants| && Replayed(InitDeckSetup(d, v).value, passes, v).Ok?
    ensures r.Ok? ==> r == Replayed(InitDeckSetup(d, v).value, passes, v)
  {
    hide ApplyDeckPass;
    var initial := InitDeckSetup(d, v);
    if initial.Err? {
      return Err(initial.code);
    }
    if |passes| != 2 * |d.participants| {
      return Err("deck-pass-count");
    }
    var current := initial.value;
    for i := 0 to |passes|
      invariant Replayed(initial.value, passes[..i], v) == Ok(current)
    {
      var applied := ApplyDeckPass(current, passes[i], true, v);
      assert passes[..i + 1][..i] == passes[..i];
      if applied.Err? {
        FailedPrefixFails(initial.value, passes, i + 1, v);
        return Err(applied.code);
      }
      current := applied.value;
    }
    assert passes[..|passes|] == passes;
    return Ok(current);
  }

  // ---- signing ----

  /** How a pass's proofs are made, each from a witness of its statement. */
  datatype Provers = Provers(shuffle: (ShuffleStatement, int, seq<int>, ProofContext) -> Proof,
                             dleq: (DleqStatement, int, ProofContext) -> Proof)

  predicate SecretScalar(s: int) {
    0 < s < SCALAR_ORDER
  }

  predicate ShuffleWitness(st: ShuffleStatement, secret: int, pi: seq<int>) {
    && 1 <= |st.input| <= MAX_CARDS && CheckedPoints(st.input, |st.input|) && CheckedPoints(st.output, |st.input|)
    && SecretScalar(secret) && IsPermutation(pi, |st.input|)
    && NonIdentity(st.publicKey) && st.publicKey == ScalePoint(1, secret)
    && forall i :: 0 <= i < |st.input| ==> st.output[pi[i]] == ScalePoint(st.input[i], secret)
  }

  predicate DleqWitness(st: DleqStatement, exponent: int) {
    && SecretScalar(exponent)
    && NonIdentity(st.base1) && NonIdentity(st.point1) && NonIdentity(st.base2) && NonIdentity(st.point2)
    && st.point1 == ScalePoint(st.base1, exponent) && st.point2 == ScalePoint(st.base2, exponent)
  }

  /** A proof made from a witness verifies; `ShuffleProof` and `Sigma` prove this of the provers themselves. */
  ghost predicate Complete(provers: Provers, v: Crypto) {
    && (forall st, secret, pi, context :: ShuffleWitness(st, secret, pi) ==>
          v.shuffle(st, provers.shuffle(st, secret, pi, context), context))
    && (forall st, exponent, context :: DleqWitness(st, exponent) ==>
          v.dleq(st, provers.dleq(st, exponent, context), context))
  }

  lemma ScaleKeepsPoint(point: int, scalar: int)
    requires NonIdentity(point) && SecretScalar(scalar)
    ensures NonIdentity(ScalePoint(point, scalar))
  {
    hide ScalePoint;
    ProductNonzero(point, scalar);
  }

  lemma ScaleDistinct(a: int, b: int, scalar: int)
    requires Canonical(a) && Canonical(b) && a != b && SecretScalar(scalar)
    ensures ScalePoint(a, scalar) != ScalePoint(b, scalar)
  {
    hide ScalePoint;
    if ScalePoint(a, scalar) == ScalePoint(b, scalar) {
      assert a * scalar == scalar * a && b * scalar == scalar * b;
      CancelFactor(scalar, a, b);
      CanonicalSame(a, b);
    }
  }

  /** One key for every card keeps a deck's points distinct and nonzero, wherever they move. */
  lemma ShuffledPoints(input: seq<int>, output: seq<int>, secret: int, pi: seq<int>)
    requires CheckedPoints(input, |input|) && SecretScalar(secret) && IsPermutation(pi, |input|) && |output| == |input|
    requires forall i :: 0 <= i < |input| ==> output[pi[i]] == ScalePoint(input[i], secret)
    ensures CheckedPoints(output, |input|)
  {
    hide ScalePoint;
    forall k | 0 <= k < |output| ensures NonIdentity(output[k]) {
      var i := PlaceReached(pi, |input|, k);
      ScaleKeepsPoint(input[i], secret);
    }
    forall k, l | 0 <= k < l < |output| ensures output[k] != output[l] {
      var i := PlaceReached(pi, |input|, k);
      var j := PlaceReached(pi, |input|, l);
      ScaleDistinct(input[i], input[j], secret);
    }
  }

  /** What the next shuffler signs, and when; with provers that are complete everyone accepts it. */
  method SignDeckShuffle(s: DeckState, secret: int, permutation: seq<int>, signer: nat, provers: Provers, v: Crypto)
    returns (r: Result<SignedPass>)
    ensures r.Ok? <==>
      && ValidState(s, v) && NextActor(s).Shuffler? && NextActor(s).participant.publicKey == signer
      && SecretScalar(secret) && IsPermutation(permutation, |s.points|)
    ensures r.Ok? ==>
      var body := r.value.body;
      && body.ShuffleBody? && |body.output| == |s.points| && body.publicKey == ScalePoint(1, secret)
      && (forall i :: 0 <= i < |s.points| ==> body.output[permutation[i]] == ScalePoint(s.points[i], secret))
      && ShuffleRelation(ShuffleStatement(s.points, body.output, body.publicKey))
    ensures r.Ok? && Complete(provers, v) ==> ApplyDeckPass(s, r.value, true, v).Ok?
  {
    hide ScalePoint, Complete;
    if !ValidState(s, v) || !NextActor(s).Shuffler? || NextActor(s).participant.publicKey != signer {
      return Err("deck-order");
    }
    if !SecretScalar(secret) || !IsPermutation(permutation, |s.points|) {
      return Err("range");
    }
    var output := s.points;
    for index := 0 to |s.points|
      invariant |output| == |s.points|
      invariant forall k :: 0 <= k < index ==> output[permutation[k]] == ScalePoint(s.points[k], secret)
    {
      output := output[permutation[index] := ScalePoint(s.points[index], secret)];
    }
    var publicKey, seat := ScalePoint(1, secret), NextActor(s).participant.seat;
    var statement, context := ShuffleStatement(s.points, output, publicKey), PassContext(s, seat, None);
    var proof := provers.shuffle(statement, secret, permutation, context);
    var pass := SignedPass(ShuffleBody(s, seat, output, publicKey, proof), signer);
    ShuffleAccepted(s, pass, secret, permutation, provers, v);
    return Ok(pass);
  }

  lemma ShuffleAccepted(s: DeckState, pass: SignedPass, secret: int, pi: seq<int>, provers: Provers, v: Crypto)
    requires ValidState(s, v) && NextActor(s).Shuffler? && SecretScalar(secret) && IsPermutation(pi, |s.points|)
    requires pass.signedBy == NextActor(s).participant.publicKey && pass.body.ShuffleBody?
    requires pass.body.operation == s && pass.body.seat == NextActor(s).participant.seat
    requires pass.body.publicKey == ScalePoint(1, secret) && |pass.body.output| == |s.points|
    requires forall i :: 0 <= i < |s.points| ==> pass.body.output[pi[i]] == ScalePoint(s.points[i], secret)
    requires pass.body.proof == provers.shuffle(ShuffleStatement(s.points, pass.body.output, pass.body.publicKey),
                                                secret,
                                                pi, PassContext(s, pass.body.seat, None))
    ensures Complete(provers, v) ==> ApplyDeckPass(s, pass, true, v).Ok?
  {
    hide ScalePoint;
    OneIsCanonical();
    ScaleKeepsPoint(1, secret);
    ShuffledPoints(s.points, pass.body.output, secret, pi);
    assert ShuffleWitness(ShuffleStatement(s.points, pass.body.output, pass.body.publicKey), secret, pi);
  }

  /** The exponent that takes the shuffle key off a point and puts a lock on it. */
  function LockExponentOf(shuffleSecret: int, lock: int): (r: int)
    requires SecretScalar(shuffleSecret)
    ensures Canonical(r)
  {
    ModScalar(lock * InvertScalar(shuffleSecret).value)
  }

  function LockedPoints(points: seq<int>, shuffleSecret: int, locks: seq<int>): (r: seq<int>)
    requires SecretScalar(shuffleSecret) && |locks| == |points|
    ensures |r| == |points|
    ensures forall j :: 0 <= j < |r| ==> r[j] == ScalePoint(points[j], LockExponentOf(shuffleSecret, locks[j]))
  {
    seq(|points|, j requires 0 <= j < |points| => ScalePoint(points[j], LockExponentOf(shuffleSecret, locks[j])))
  }

  /** Every lock is a secret of its own, and no two positions end at one point. */
  predicate LocksFit(points: seq<int>, shuffleSecret: int, locks: seq<int>)
    requires SecretScalar(shuffleSecret) && |locks| == |points|
  {
    && (forall j :: 0 <= j < |locks| ==> SecretScalar(locks[j]))
    && (forall i, j :: 0 <= i < j < |locks| ==> locks[i] != locks[j])
    && forall i, j :: 0 <= i < j < |points| ==>
         LockedPoints(points, shuffleSecret, locks)[i] != LockedPoints(points, shuffleSecret, locks)[j]
  }

  /** A lock pass multiplies by `lock / shuffleSecret`, so the shuffle key goes and the locks stay. */
  method SignDeckLock(s: DeckState, shuffleSecret: int, lockSecrets: seq<int>, signer: nat, provers: Provers, v: Crypto)
    returns (r: Result<SignedPass>)
    ensures r.Ok? <==>
      && ValidState(s, v) && NextActor(s).Locker? && NextActor(s).participant.publicKey == signer
      && SecretScalar(shuffleSecret) && |s.lockKeys| < |s.shuffleKeys|
      && ScalePoint(1, shuffleSecret) == s.shuffleKeys[|s.lockKeys|]
      && |lockSecrets| == |s.points| && LocksFit(s.points, shuffleSecret, lockSecrets)
    ensures r.Ok? ==>
      var body := r.value.body;
      && body.LockBody? && |body.output| == |s.points| && |body.lockKeys| == |s.points|
      && (forall j :: 0 <= j < |s.points| ==> body.lockKeys[j] == ScalePoint(1, lockSecrets[j]))
      && (forall j :: 0 <= j < |s.points| ==> DleqRelation(LockStatement(s, body, j)))
    ensures r.Ok? && Complete(provers, v) ==> ApplyDeckPass(s, r.value, true, v).Ok?
  {
    hide ScalePoint, ModScalar, InvertScalar, DleqRelation, LockExponentOf, Complete, ApplyDeckPass;
    if !ValidState(s, v) || !NextActor(s).Locker? || NextActor(s).participant.publicKey != signer {
      return Err("deck-order");
    }
    if !SecretScalar(shuffleSecret) {
      return Err("range");
    }
    var shuffleKey := s.shuffleKeys[|s.lockKeys|];
    if ScalePoint(1, shuffleSecret) != shuffleKey || |lockSecrets| != |s.points| {
      return Err("range");
    }
    var seat := NextActor(s).participant.seat;
    var output: seq<int>, lockKeys: seq<int>, proofs: seq<Proof> := [], [], [];
    for position := 0 to |s.points|
      invariant |output| == |lockKeys| == |proofs| == position
      invariant forall j :: 0 <= j < position ==> SecretScalar(lockSecrets[j])
      invariant output == LockedPoints(s.points, shuffleSecret, lockSecrets)[..position]
      invariant forall j :: 0 <= j < position ==> lockKeys[j] == ScalePoint(1, lockSecrets[j])
      invariant forall j: nat :: j < position ==>
        proofs[j] == provers.dleq(DleqStatement(s.points[j], output[j], shuffleKey, lockKeys[j]),
                                  LockExponentOf(shuffleSecret, lockSecrets[j]), PassContext(s, seat, Some(j)))
    {
      var lock := lockSecrets[position];
      if !SecretScalar(lock) {
        return Err("range");
      }
      var exponent := LockExponentOf(shuffleSecret, lock);
      var result, lockKey := ScalePoint(s.points[position], exponent), ScalePoint(1, lock);
      output := output + [result];
      lockKeys := lockKeys + [lockKey];
      proofs := proofs + [provers.dleq(DleqStatement(s.points[position], result, shuffleKey, lockKey), exponent,
                                       PassContext(s, seat, Some(position)))];
    }
    assert output == LockedPoints(s.points, shuffleSecret, lockSecrets);
    LocksChecked(s.points, shuffleSecret, lockSecrets, lockKeys);
    if !CheckedPoints(output, |s.points|) || !CheckedPoints(lockKeys, |s.points|) {
      return Err("range");
    }
    var pass := SignedPass(LockBody(s, seat, output, lockKeys, proofs), signer);
    LockAccepted(s, pass, shuffleSecret, lockSecrets, provers, v);
    return Ok(pass);
  }

  /** The points of a lock pass are checked exactly when its locks fit. */
  lemma LocksChecked(points: seq<int>, shuffleSecret: int, locks: seq<int>, lockKeys: seq<int>)
    requires SecretScalar(shuffleSecret) && |locks| == |points| == |lockKeys| && CheckedPoints(points, |points|)
    requires forall j :: 0 <= j < |locks| ==> SecretScalar(locks[j]) && lockKeys[j] == ScalePoint(1, locks[j])
    ensures CheckedPoints(LockedPoints(points, shuffleSecret, locks), |points|) && CheckedPoints(lockKeys, |points|)
      <==> LocksFit(points, shuffleSecret, locks)
  {
    hide ScalePoint, LockExponentOf;
    OneIsCanonical();
    forall j | 0 <= j < |points|
      ensures NonIdentity(LockedPoints(points, shuffleSecret, locks)[j]) && lockKeys[j] == locks[j]
    {
      LockExponentIs(shuffleSecret, locks[j]);
      ScaleKeepsPoint(points[j], LockExponentOf(shuffleSecret, locks[j]));
      BaseTimes(locks[j]);
    }
  }

  /** The exponent is a secret, and multiplying the shuffle key by it gives the lock key. */
  lemma LockExponentIs(shuffleSecret: int, lock: int)
    requires SecretScalar(shuffleSecret) && SecretScalar(lock)
    ensures SecretScalar(LockExponentOf(shuffleSecret, lock))
    ensures ScalePoint(ScalePoint(1, shuffleSecret), LockExponentOf(shuffleSecret, lock)) == ScalePoint(1, lock)
  {
    hide InvertScalar, ScalePoint, ModScalar;
    var inverse := InvertScalar(shuffleSecret).value;
    BaseTimes(shuffleSecret);
    BaseTimes(lock);
    ExponentTimesKey(shuffleSecret, lock, inverse);
    var exponent := LockExponentOf(shuffleSecret, lock);
    if exponent == 0 {
      assert shuffleSecret * 0 == 0;
      ZeroIsNoLock(shuffleSecret, lock);
    }
  }

  lemma ZeroIsNoLock(key: int, lock: int)
    requires SecretScalar(lock)
    ensures ScalePoint(key, 0) != lock
  {
    assert key * 0 == 0;
  }

  lemma BaseTimes(secret: int)
    requires Canonical(secret)
    ensures ScalePoint(1, secret) == secret
  {
  }

  lemma ExponentTimesKey(secret: int, lock: int, inverse: int)
    requires Canonical(lock) && ModScalar(secret * inverse) == 1
    ensures ScalePoint(secret, ModScalar(lock * inverse)) == lock
  {
    hide ModScalar;
    OneIsCanonical();
    ModIsSame(lock * inverse);
    MulSame(ModScalar(lock * inverse), lock * inverse, secret, secret);
    MulSame(secret * inverse, 1, lock, lock);
    assert lock * inverse * secret == secret * inverse * lock;
    assert secret * ModScalar(lock * inverse) == ModScalar(lock * inverse) * secret;
    CanonicalSame(ScalePoint(secret, ModScalar(lock * inverse)), lock);
  }

  lemma LockAccepted(s: DeckState, pass: SignedPass, shuffleSecret: int, locks: seq<int>, provers: Provers, v: Crypto)
    requires ValidState(s, v) && NextActor(s).Locker? && SecretScalar(shuffleSecret) && |locks| == |s.points|
    requires |s.lockKeys| < |s.shuffleKeys| && ScalePoint(1, shuffleSecret) == s.shuffleKeys[|s.lockKeys|]
    requires pass.signedBy == NextActor(s).participant.publicKey && pass.body.LockBody?
    requires pass.body.operation == s && pass.body.seat == NextActor(s).participant.seat
    requires |pass.body.lockKeys| == |pass.body.proofs| == |s.points|
    requires pass.body.output == LockedPoints(s.points, shuffleSecret, locks)
    requires CheckedPoints(pass.body.output, |s.points|) && CheckedPoints(pass.body.lockKeys, |s.points|)
    requires forall j :: 0 <= j < |locks| ==> SecretScalar(locks[j]) && pass.body.lockKeys[j] == ScalePoint(1, locks[j])
    requires forall j: nat :: j < |s.points| ==>
      pass.body.proofs[j] == provers.dleq(LockStatement(s, pass.body, j), LockExponentOf(shuffleSecret, locks[j]),
                                          PassContext(s, pass.body.seat, Some(j)))
    ensures forall j :: 0 <= j < |s.points| ==> DleqRelation(LockStatement(s, pass.body, j))
    ensures Complete(provers, v) ==> ApplyDeckPass(s, pass, true, v).Ok?
  {
    hide ScalePoint, LockExponentOf;
    forall j: nat | j < |s.points|
      ensures DleqWitness(LockStatement(s, pass.body, j), LockExponentOf(shuffleSecret, locks[j]))
      ensures DleqRelation(LockStatement(s, pass.body, j))
    {
      LockExponentIs(shuffleSecret, locks[j]);
    }
    if Complete(provers, v) {
      assert LockProofsHold(s, pass.body, v);
    }
  }
}
