/**
 * The public ledger of every deck: committed passes, the draw in progress, and the slots still hidden
 * (packages/protocol/src/deck-ledger.ts). A hash stands for the object it hashes.
 */
module DeckLedger {
  import opened Results
  import opened DeckSetup
  import opened DeckDraw
  import opened DeckReveal

  const MAX_DECKS := 32
  const MAX_SEAT := 5

  /** Who signed an unlock at a certified deal, and the entry that made it the seat's signer. */
  datatype Authority = Authority(seat: nat, publicKey: nat, generation: Anchor)

  datatype Commitment = Commitment(definition: Definition, passes: seq<SignedPass>, finalState: DeckState)

  datatype Slot = Slot(slotId: nat, seat: nat, receipt: Receipt, deal: Anchor, unlockSigners: seq<Authority>)

  datatype LedgerDeck = LedgerDeck(commitment: Commitment, setup: DeckState, nextPass: nat, nextPosition: nat,
                                   slots: seq<Slot>)

  datatype Ledger = Ledger(genesis: nat, decks: seq<LedgerDeck>, active: Option<DrawOperation>)

  /** A draw request; `pending` is everything else it carries, which a public answer echoes. */
  datatype DrawPending = DrawPending(deck: nat, seat: nat, slotId: nat, remaining: nat, shown: bool, pending: nat)

  datatype Pending = Draw(request: DrawPending) | OtherRequest

  datatype Input = CardDealt(deck: nat, seat: nat, slotId: nat) | CardShown(request: DrawPending, card: nat)

  datatype Drawn = Drawn(slotId: nat, seat: nat)

  datatype PublicDeck = PublicDeck(remaining: nat, drawn: seq<Drawn>)

  datatype PublicSlot = PublicSlot(slotId: nat, deck: nat, revealed: bool, known: bool)

  /** What the ledger reads of the public game state: deck counters, declared modes, and card slots by seat. */
  datatype PublicState = PublicState(decks: map<nat, PublicDeck>, shown: map<nat, bool>, cardSlots: map<nat,
                                     seq<PublicSlot>>)

  datatype Wanted = Wanted(seat: nat, deck: nat, slotId: nat, card: nat)

  datatype Proved = Proved(slotId: nat, identity: nat, proof: Proof)

  function Keys(list: seq<Authority>): (r: seq<Signer>)
    ensures |r| == |list| && forall i :: 0 <= i < |r| ==> r[i] == Signer(list[i].seat, list[i].publicKey)
  {
    seq(|list|, i requires 0 <= i < |list| => Signer(list[i].seat, list[i].publicKey))
  }

  predicate Ready(deck: LedgerDeck) {
    deck.nextPass == |deck.commitment.passes|
  }

  function IdOf(deck: LedgerDeck): nat {
    deck.commitment.definition.deckId
  }

  function Position(slot: Slot): nat {
    slot.receipt.operation.request.position
  }

  predicate CheckedOperation(setup: DeckState, op: DrawOperation, v: Crypto) {
    FreezeDeckDraw(setup, op.request, v) == Ok(op)
  }

  // ---- what a valid ledger is ----

  predicate CursorsOk(deck: LedgerDeck, v: Crypto) {
    var definition, passes := deck.setup.definition, deck.commitment.passes;
    && ValidState(deck.setup, v)
    && deck.commitment.definition == definition
    && |passes| == 2 * |definition.participants|
    && (forall i, j :: 0 <= i < j < |passes| ==> passes[i] != passes[j])
    && deck.nextPass == |deck.setup.shuffleKeys| + |deck.setup.lockKeys| <= |passes|
    && deck.nextPosition <= |definition.cards|
    && (Ready(deck) ==> deck.setup == deck.commitment.finalState)
  }

  predicate SignersOk(slot: Slot) {
    var unlockers, signers := Unlockers(slot.receipt.operation), slot.unlockSigners;
    && |signers| == |unlockers|
    && (forall i :: 0 <= i < |signers| ==>
        signers[i].seat == unlockers[i].seat && signers[i].generation.height < slot.deal.height)
    && forall i, j :: 0 <= i < j < |signers| ==> signers[i].publicKey != signers[j].publicKey
  }

  predicate SlotOk(slot: Slot, deck: LedgerDeck, genesis: nat, v: Crypto) {
    var op := slot.receipt.operation;
    && ValidOperation(op) && !op.request.shown && Ready(deck)
    && op.deckId == IdOf(deck) && op.request.genesis == genesis
    && op.request.slotId == slot.slotId && op.request.seat == slot.seat
    && op.request.position < deck.nextPosition
    && slot.deal.height > op.request.anchor.height
    && SignersOk(slot) && CheckedOperation(deck.setup, op, v)
  }

  function IdsOf(slots: seq<Slot>): (r: set<nat>)
    ensures forall s :: s in slots ==> s.slotId in r
  {
    set s | s in slots :: s.slotId
  }

  function AllIds(decks: seq<LedgerDeck>): set<nat> {
    if decks == [] then {} else AllIds(decks[..|decks| - 1]) + IdsOf(decks[|decks| - 1].slots)
  }

  /** The first `n` slots stand in increasing order of position, under ids not used before them. */
  predicate SlotsRise(deck: LedgerDeck, genesis: nat, earlier: set<nat>, n: nat, v: Crypto)
    requires n <= |deck.slots|
  {
    && (forall i :: 0 <= i < n ==> SlotOk(deck.slots[i], deck, genesis, v) && deck.slots[i].slotId !in earlier)
    && forall i, j :: 0 <= i < j < n ==>
         Position(deck.slots[i]) < Position(deck.slots[j]) && deck.slots[i].slotId != deck.slots[j].slotId
  }

  predicate SlotsOk(deck: LedgerDeck, genesis: nat, earlier: set<nat>, v: Crypto) {
    |deck.slots| <= MAX_CARDS && SlotsRise(deck, genesis, earlier, |deck.slots|, v)
  }

  /** One more slot fits exactly when it is past the last position and its id is new. */
  lemma OneMoreSlot(deck: LedgerDeck, genesis: nat, earlier: set<nat>, n: nat, v: Crypto)
    requires n < |deck.slots| && SlotsRise(deck, genesis, earlier, n, v)
    ensures var slot := deck.slots[n];
      SlotsRise(deck, genesis, earlier, n + 1, v) <==>
        SlotOk(slot, deck, genesis, v) && (n > 0 ==> Position(deck.slots[n - 1]) < Position(slot))
        && slot.slotId !in earlier + IdsOf(deck.slots[..n])
  {
    hide SlotOk, Position;
    var slot := deck.slots[n];
    if slot.slotId in IdsOf(deck.slots[..n]) {
      var s :| s in deck.slots[..n] && s.slotId == slot.slotId;
      var k :| 0 <= k < n && deck.slots[k] == s;
    } else {
      forall k | 0 <= k < n ensures deck.slots[k].slotId != slot.slotId {
        assert deck.slots[k] in deck.slots[..n];
      }
    }
  }

  lemma EarlierFails(deck: LedgerDeck, genesis: nat, earlier: set<nat>, n: nat, v: Crypto)
    requires n <= |deck.slots| && SlotsOk(deck, genesis, earlier, v)
    ensures SlotsRise(deck, genesis, earlier, n, v)
  {
    hide SlotOk, Position;
  }

  predicate DeckOk(decks: seq<LedgerDeck>, i: nat, genesis: nat, v: Crypto)
    requires i < |decks|
  {
    && CursorsOk(decks[i], v) && SlotsOk(decks[i], genesis, AllIds(decks[..i]), v)
    && (i > 0 ==> IdOf(decks[i - 1]) < IdOf(decks[i]))
  }

  /** The first deck with an id. */
  function DeckIndex(decks: seq<LedgerDeck>, id: nat): (r: Option<nat>)
    ensures r.Some? ==> r.value < |decks| && IdOf(decks[r.value]) == id
    ensures r.None? ==> forall d :: d in decks ==> IdOf(d) != id
  {
    if decks == [] then None
    else
      match DeckIndex(decks[..|decks| - 1], id)
      case Some(i) => Some(i)
      case None => if IdOf(decks[|decks| - 1]) == id then Some(|decks| - 1) else None
  }

  predicate ActiveOk(l: Ledger, v: Crypto) {
    l.active.Some? ==>
      var op := l.active.value;
      var at := DeckIndex(l.decks, op.deckId);
      && ValidOperation(op) && at.Some? && Ready(l.decks[at.value])
      && op.request.genesis == l.genesis
      && op.request.position == l.decks[at.value].nextPosition
      && op.request.slotId !in AllIds(l.decks)
      && CheckedOperation(l.decks[at.value].setup, op, v)
  }

  predicate ValidLedger(l: Ledger, v: Crypto) {
    && |l.decks| <= MAX_DECKS
    && (forall i :: 0 <= i < |l.decks| ==> DeckOk(l.decks, i, l.genesis, v))
    && ActiveOk(l, v)
  }

  function Checked(l: Ledger, v: Crypto): Result<Ledger> {
    if ValidLedger(l, v) then Ok(l) else Err("deck-ledger")
  }

  /** The loop over one deck's slots: positions rise, and ids are added to those already seen. */
  method CheckSlots(deck: LedgerDeck, genesis: nat, earlier: set<nat>, v: Crypto) returns (ok: bool, ids: set<nat>)
    requires |deck.slots| <= MAX_CARDS
    ensures ok <==> SlotsOk(deck, genesis, earlier, v)
    ensures ok ==> ids == earlier + IdsOf(deck.slots)
  {
    hide SlotOk, SlotsRise, IdsOf;
    ids := earlier;
    var previousPosition: int := -1;
    assert deck.slots[..0] == [];
    NoIds(deck, genesis, earlier, v);
    for i := 0 to |deck.slots|
      invariant ids == earlier + IdsOf(deck.slots[..i])
      invariant previousPosition == if i == 0 then -1 else Position(deck.slots[i - 1])
      invariant SlotsRise(deck, genesis, earlier, i, v)
    {
      var slot := deck.slots[i];
      OneMoreSlot(deck, genesis, earlier, i, v);
      if !SlotOk(slot, deck, genesis, v) || Position(slot) <= previousPosition || slot.slotId in ids {
        if SlotsOk(deck, genesis, earlier, v) {
          EarlierFails(deck, genesis, earlier, i + 1, v);
        }
        ok := false;
        return;
      }
      OneMoreId(deck.slots, i);
      previousPosition := Position(slot);
      ids := ids + {slot.slotId};
    }
    assert deck.slots[..|deck.slots|] == deck.slots;
    ok := true;
  }

  lemma NoIds(deck: LedgerDeck, genesis: nat, earlier: set<nat>, v: Crypto)
    ensures IdsOf([]) == {} && SlotsRise(deck, genesis, earlier, 0, v)
  {
  }

  lemma OneMoreId(slots: seq<Slot>, n: nat)
    requires n < |slots|
    ensures IdsOf(slots[..n + 1]) == IdsOf(slots[..n]) + {slots[n].slotId}
  {
    assert slots[..n + 1] == slots[..n] + [slots[n]];
  }

  /** The whole check, deck by deck, with one set of slot ids for all of them. */
  method ValidateDeckLedger(l: Ledger, v: Crypto) returns (ok: bool)
    requires |l.decks| <= MAX_DECKS && forall d :: d in l.decks ==> |d.slots| <= MAX_CARDS
    ensures ok <==> ValidLedger(l, v)
  {
    hide CursorsOk, SlotsOk, ActiveOk;
    var allSlots: set<nat> := {};
    for i := 0 to |l.decks|
      invariant allSlots == AllIds(l.decks[..i])
      invariant forall k :: 0 <= k < i ==> DeckOk(l.decks, k, l.genesis, v)
    {
      var slotsOk, ids := CheckSlots(l.decks[i], l.genesis, allSlots, v);
      if !CursorsOk(l.decks[i], v) || !slotsOk || (i > 0 && IdOf(l.decks[i]) <= IdOf(l.decks[i - 1])) {
        assert !DeckOk(l.decks, i, l.genesis, v);
        ok := false;
        return;
      }
      assert l.decks[..i + 1][..i] == l.decks[..i];
      allSlots := ids;
    }
    ok := ActiveOk(l, v);
  }

  // ---- genesis and passes ----

  predicate AtGenesis(state: PublicState, commitment: Commitment) {
    var id := commitment.definition.deckId;
    id in state.decks && state.decks[id].remaining == |commitment.definition.cards| && |state.decks[id].drawn| == 0
  }

  predicate Unopened(deck: LedgerDeck, v: Crypto) {
    deck.nextPass == 0 && deck.nextPosition == 0 && deck.slots == []
      && InitDeckSetup(deck.commitment.definition, v) == Ok(deck.setup)
  }

  predicate Opened(l: Ledger, v: Crypto) {
    ValidLedger(l, v) && l.active.None? && forall i :: 0 <= i < |l.decks| ==> Unopened(l.decks[i], v)
  }

  /** A commitment that can open a ledger: its deck can be set up, and it lists one pass for every turn, none twice. */
  predicate Opens(c: Commitment, v: Crypto) {
    && InitDeckSetup(c.definition, v).Ok?
    && |c.passes| == 2 * |c.definition.participants|
    && forall i, j :: 0 <= i < j < |c.passes| ==> c.passes[i] != c.passes[j]
  }

  /**
   * Every committed deck starts unshuffled and undealt. The decks of a ceremony that the engine holds must be as many
   * as the commitments, and each committed deck must stand at its start in the engine.
   */
  method InitializeDeckLedger(genesis: nat, commitments: seq<Commitment>, ceremony: set<nat>, state: PublicState,
                              v: Crypto)
    returns (r: Result<Ledger>)
    ensures r.Ok? <==>
      && |state.decks.Keys * ceremony| == |commitments| <= MAX_DECKS
      && (forall i :: 0 <= i < |commitments| ==> AtGenesis(state, commitments[i]) && Opens(commitments[i], v))
      && forall i :: 0 < i < |commitments| ==> commitments[i - 1].definition.deckId < commitments[i].definition.deckId
    ensures r.Ok? ==> Opened(r.value, v) && r.value.genesis == genesis && |r.value.decks| == |commitments|
    ensures r.Ok? ==> forall i :: 0 <= i < |commitments| ==> r.value.decks[i].commitment == commitments[i]
  {
    hide InitDeckSetup, DeckOk, ActiveOk;
    if |state.decks.Keys * ceremony| != |commitments| {
      return Err("deck-genesis-state");
    }
    if exists i :: 0 <= i < |commitments| && commitments[i].definition.deckId !in state.decks {
      return Err("deck-genesis-state");
    }
    var decks: seq<LedgerDeck> := [];
    for i := 0 to |commitments|
      invariant |decks| == i
      invariant forall k :: 0 <= k < i ==> AtGenesis(state, commitments[k])
      invariant forall k :: 0 <= k < i ==> Unopened(decks[k], v) && decks[k].commitment == commitments[k]
    {
      if !AtGenesis(state, commitments[i]) {
        return Err("deck-genesis-state");
      }
      var initial := InitDeckSetup(commitments[i].definition, v);
      if initial.Err? {
        return Err(initial.code);
      }
      decks := decks + [LedgerDeck(commitments[i], initial.value, 0, 0, [])];
    }
    var ledger := Ledger(genesis, decks, None);
    InitialValid(ledger, commitments, v);
    return Checked(ledger, v);
  }

  /** A ledger that was just opened is valid exactly when its commitments can open one and its decks rise. */
  lemma InitialValid(l: Ledger, commitments: seq<Commitment>, v: Crypto)
    requires |l.decks| == |commitments| && l.active.None?
    requires forall i :: 0 <= i < |commitments| ==> Unopened(l.decks[i], v) && l.decks[i].commitment == commitments[i]
    ensures ValidLedger(l, v) <==>
      && |commitments| <= MAX_DECKS && (forall i :: 0 <= i < |commitments| ==> Opens(commitments[i], v))
      && forall i :: 0 < i < |commitments| ==> commitments[i - 1].definition.deckId < commitments[i].definition.deckId
  {
    hide InitDeckSetup, DeckOk, ActiveOk, Opens, Unopened;
    NoneActive(l, v);
    if ValidLedger(l, v) {
      forall i | 0 <= i < |commitments|
        ensures Opens(commitments[i], v)
        ensures i > 0 ==> commitments[i - 1].definition.deckId < commitments[i].definition.deckId
      {
        UnopenedOk(l.decks, i, l.genesis, v);
      }
    } else if |commitments| <= MAX_DECKS {
      var i :| 0 <= i < |l.decks| && !DeckOk(l.decks, i, l.genesis, v);
      UnopenedOk(l.decks, i, l.genesis, v);
    }
  }

  lemma UnopenedOk(decks: seq<LedgerDeck>, i: nat, genesis: nat, v: Crypto)
    requires i < |decks| && Unopened(decks[i], v)
    ensures DeckOk(decks, i, genesis, v) <==>
      Opens(decks[i].commitment, v) && (i > 0 ==> IdOf(decks[i - 1]) < IdOf(decks[i]))
  {
    hide ValidState;
  }

  lemma NoneActive(l: Ledger, v: Crypto)
    requires l.active.None?
    ensures ActiveOk(l, v)
  {
  }

  predicate DecksReady(decks: seq<LedgerDeck>) {
    forall i :: 0 <= i < |decks| ==> Ready(decks[i])
  }

  function FirstUnready(decks: seq<LedgerDeck>): (r: Option<nat>)
    ensures r.Some? ==> r.value < |decks| && !Ready(decks[r.value]) && forall i :: 0 <= i < r.value ==> Ready(decks[i])
    ensures r.None? ==> DecksReady(decks)
  {
    if decks == [] then None
    else
      match FirstUnready(decks[..|decks| - 1])
      case Some(i) => Some(i)
      case None => if !Ready(decks[|decks| - 1]) then Some(|decks| - 1) else None
  }

  /** One certified pass, and only the next committed pass of the first incomplete deck. */
  function ApplyDeckSetupEntry(l: Ledger, deckId: nat, pass: SignedPass, v: Crypto): Result<Ledger> {
    if !ValidLedger(l, v) then Err("deck-ledger")
    else if l.active.Some? then Err("deck-pass-draw")
    else
      match FirstUnready(l.decks)
      case None => Err("deck-pass-order")
      case Some(index) =>
        var deck := l.decks[index];
        if IdOf(deck) != deckId then Err("deck-pass-order")
        else if deck.nextPass >= |deck.commitment.passes|
          || pass != deck.commitment.passes[deck.nextPass] then Err("deck-pass-commitment")
        else
          match ApplyDeckPass(deck.setup, pass, true, v)
          case Err(code) => Err(code)
          case Ok(setup) =>
            if deck.nextPass + 1 == |deck.commitment.passes|
               && setup != deck.commitment.finalState then Err("deck-pass-final")
            else Checked(l.(decks := l.decks[index := deck.(setup := setup, nextPass := deck.nextPass + 1)]), v)
  }

  // ---- draws ----

  predicate PublicDeckMatches(deck: LedgerDeck, state: PublicState) {
    && IdOf(deck) in state.decks
    && var shared := state.decks[IdOf(deck)];
       && shared.remaining == |deck.commitment.definition.cards| - deck.nextPosition
       && |shared.drawn| == deck.nextPosition
       && (forall i :: 0 <= i < |shared.drawn| ==> shared.drawn[i].seat <= MAX_SEAT)
       && forall i, j :: 0 <= i < j < |shared.drawn| ==> shared.drawn[i].slotId != shared.drawn[j].slotId
  }

  predicate AlreadyDealt(state: PublicState, deckId: nat, slotId: nat) {
    deckId in state.decks && exists d :: d in state.decks[deckId].drawn && d.slotId == slotId
  }

  predicate SameRequest(op: DrawOperation, request: DrawPending) {
    op.deckId == request.deck && op.request.seat == request.seat && op.request.slotId == request.slotId
      && op.request.shown == request.shown
  }

  /** Freezes the engine's draw request once, at the deck's next position; asking again changes nothing. */
  function CaptureDeckPending(l: Ledger, state: PublicState, pending: Pending, anchor: Anchor, epoch: nat,
                              v: Crypto): Result<Ledger> {
    if !ValidLedger(l, v) then Err("deck-ledger")
    else if pending.OtherRequest? then (if l.active.Some? then Err("deck-request-changed") else Ok(l))
    else
      var request := pending.request;
      match DeckIndex(l.decks, request.deck)
      case None => Err("deck-request-state")
      case Some(index) =>
        var deck := l.decks[index];
        if !DecksReady(l.decks) || !PublicDeckMatches(deck, state)
           || request.remaining != |deck.commitment.definition.cards| - deck.nextPosition then Err("deck-request-state")
        else if request.deck !in state.shown || state.shown[request.deck] != request.shown then Err("deck-reveal-mode")
        else if AlreadyDealt(state, request.deck, request.slotId) then Err("deck-slot-reused")
        else if l.active.Some? then
          if SameRequest(l.active.value, request) && l.active.value.request.position == deck.nextPosition then Ok(l)
          else Err("deck-request-changed")
        else
          match FreezeDeckDraw(deck.setup, DrawRequest(l.genesis, epoch, anchor, deck.nextPosition, request.seat,
                                                       request.slotId, request.shown), v)
          case Err(code) => Err(code)
          case Ok(op) => Checked(l.(active := Some(op)), v)
  }

  /** A complete ordered chain of unlocks, and the point it leaves. */
  function CompleteDeckDraw(op: DrawOperation, unlocks: seq<SignedUnlock>, signers: seq<Authority>,
                            v: Crypto): Result<Receipt> {
    if CompleteDraw(op, unlocks, Some(Keys(signers)), v)
    then Ok(Receipt(op, PrefixPoint(op, unlocks, Some(Keys(signers)), v).value, unlocks))
    else Err("deck-unlock-incomplete")
  }

  /** The certified input must name the frozen slot, or for a public draw the card everyone decodes. */
  function CheckInput(deck: LedgerDeck, op: DrawOperation, request: DrawPending, input: Input, receipt: Receipt,
                      signers: seq<Authority>,
                      v: Crypto): Result<()> {
    if op.request.shown then
      match DecodePublicDeckCard(deck.setup, receipt, Some(Keys(signers)), v)
      case Err(code) => Err(code)
      case Ok(card) => if input == CardShown(request, card.card) then Ok(()) else Err("deck-reveal-input")
    else if input == CardDealt(op.deckId, op.request.seat, op.request.slotId) then Ok(())
    else Err("deck-deal-context")
  }

  /** The deck after a deal: the next position is used, and a private card leaves a hidden slot. */
  function DealtDeck(deck: LedgerDeck, op: DrawOperation, receipt: Receipt, deal: Anchor,
                     signers: seq<Authority>): LedgerDeck {
    deck.(nextPosition := deck.nextPosition + 1,
          slots := if op.request.shown then deck.slots
                   else deck.slots + [Slot(op.request.slotId, op.request.seat, receipt, deal, signers)])
  }

  function CompleteDeckDeal(l: Ledger, state: PublicState, pending: Pending, input: Input, unlocks: seq<SignedUnlock>,
                            deal: Anchor,
                            signers: seq<Authority>, v: Crypto): Result<Ledger> {
    if !ValidLedger(l, v) then Err("deck-ledger")
    else if l.active.None? then Err("deck-draw-absent")
    else if pending.OtherRequest? then Err("schema")
    else
      var op, request := l.active.value, pending.request;
      match DeckIndex(l.decks, op.deckId)
      case None => Err("deck-deal-context")
      case Some(index) =>
        var deck := l.decks[index];
        if !PublicDeckMatches(deck, state) || !SameRequest(op, request)
           || request.remaining != |deck.commitment.definition.cards| - deck.nextPosition
           || op.request.position != deck.nextPosition
           || deal.height <= op.request.anchor.height then Err("deck-deal-context")
        else
          match CompleteDeckDraw(op, unlocks, signers, v)
          case Err(code) => Err(code)
          case Ok(receipt) =>
            match CheckInput(deck, op, request, input, receipt, signers, v)
            case Err(code) => Err(code)
            case Ok(_) =>
              Checked(l.(decks := l.decks[index := DealtDeck(deck, op, receipt, deal, signers)], active := None), v)
  }

  // ---- reveals ----

  function FindSlot(slots: seq<Slot>, slotId: nat): (r: Option<Slot>)
    ensures r.Some? ==> r.value in slots && r.value.slotId == slotId
    ensures r.None? ==> slotId !in IdsOf(slots)
  {
    Find((s: Slot) => s.slotId == slotId, slots)
  }

  /** The first deck with a hidden slot of that id. */
  function HeldAt(decks: seq<LedgerDeck>, slotId: nat): (r: Option<nat>)
    ensures r.Some? ==> r.value < |decks| && FindSlot(decks[r.value].slots, slotId).Some?
    ensures r.Some? ==> forall i :: 0 <= i < r.value ==> FindSlot(decks[i].slots, slotId).None?
    ensures r.None? ==> forall i :: 0 <= i < |decks| ==> FindSlot(decks[i].slots, slotId).None?
  {
    if decks == [] then None
    else
      match HeldAt(decks[..|decks| - 1], slotId)
      case Some(i) => Some(i)
      case None => if FindSlot(decks[|decks| - 1].slots, slotId).Some? then Some(|decks| - 1) else None
  }

  /** The slot is the signer's, still hidden in public, at its dealt place, and dealt before the command's parent. */
  predicate OwnedHidden(deck: LedgerDeck, slot: Slot, state: PublicState, context: RevealContext, seat: nat) {
    && slot.seat == context.seat == seat
    && context.seat in state.cardSlots
    && (exists p :: p in state.cardSlots[context.seat] && p.slotId == slot.slotId)
    && (var p := Find((p: PublicSlot) => p.slotId == slot.slotId, state.cardSlots[context.seat]).value;
        !p.revealed && !p.known && p.deck == IdOf(deck))
    && IdOf(deck) in state.decks && Position(slot) < |state.decks[IdOf(deck)].drawn|
    && state.decks[IdOf(deck)].drawn[Position(slot)] == Drawn(slot.slotId, context.seat)
    && context.anchor.height >= slot.deal.height
    && (context.anchor.height == slot.deal.height ==> context.anchor.hash == slot.deal.hash)
  }

  /** One entry of the evidence shows exactly the card the command's effects name. */
  predicate Shows(l: Ledger, state: PublicState, context: RevealContext, wanted: Wanted, proved: Proved, v: Crypto) {
    && wanted.slotId == proved.slotId
    && var at := HeldAt(l.decks, proved.slotId);
       && at.Some?
       && var deck := l.decks[at.value];
          var slot := FindSlot(deck.slots, proved.slotId).value;
          && OwnedHidden(deck, slot, state, context, wanted.seat) && IdOf(deck) == wanted.deck
          && var shown := VerifyDeckReveal(deck.setup, slot.receipt, proved.identity, proved.proof, context,
                                           Some(Keys(slot.unlockSigners)), None, v);
             shown.Ok? && shown.value.card == wanted.card
  }

  predicate RevealsFit(context: RevealContext, l: Ledger, wants: seq<Wanted>, evidence: seq<Proved>) {
    && context.genesis == l.genesis && |wants| == |evidence| && |wants| <= MAX_CARDS
    && forall i, j :: 0 <= i < j < |wants| ==> wants[i].slotId != wants[j].slotId
  }

  function SlotIds(evidence: seq<Proved>): set<nat> {
    set p | p in evidence :: p.slotId
  }

  function Keeping(slots: seq<Slot>, removed: set<nat>): seq<Slot> {
    if slots == [] then []
    else
      var last := slots[|slots| - 1];
      Keeping(slots[..|slots| - 1], removed) + if last.slotId in removed then [] else [last]
  }

  function KeepingAll(decks: seq<LedgerDeck>, removed: set<nat>): (r: seq<LedgerDeck>)
    ensures |r| == |decks| && forall i :: 0 <= i < |r| ==> r[i] == decks[i].(slots := Keeping(decks[i].slots, removed))
  {
    seq(|decks|, i requires 0 <= i < |decks| => decks[i].(slots := Keeping(decks[i].slots, removed)))
  }

  predicate AllShow(l: Ledger, state: PublicState, context: RevealContext, wants: seq<Wanted>, evidence: seq<Proved>,
                    v: Crypto)
    requires |wants| == |evidence|
  {
    forall i :: 0 <= i < |wants| ==> Shows(l, state, context, wants[i], evidence[i], v)
  }

  /** What a command's reveals make of the ledger: exactly the shown slots go. */
  function Revealed(l: Ledger, state: PublicState, context: RevealContext, wants: seq<Wanted>, evidence: seq<Proved>,
                    v: Crypto): Result<Ledger> {
    if !ValidLedger(l, v) then Err("deck-ledger")
    else if wants == [] then Ok(l)
    else if !RevealsFit(context, l, wants, evidence) then Err("deck-reveal-slots")
    else if !AllShow(l, state, context, wants, evidence, v) then Err("deck-reveal")
    else Checked(l.(decks := KeepingAll(l.decks, SlotIds(evidence))), v)
  }

  /** The loop over the evidence, which collects the slots to remove. */
  method RevealDeckCards(l: Ledger, state: PublicState, context: RevealContext, wants: seq<Wanted>,
                         evidence: seq<Proved>, v: Crypto)
    returns (r: Result<Ledger>)
    ensures r.Ok? <==> Revealed(l, state, context, wants, evidence, v).Ok?
    ensures r.Ok? ==> r == Revealed(l, state, context, wants, evidence, v)
  {
    hide ValidLedger, Shows, Keeping;
    if !ValidLedger(l, v) {
      return Err("deck-ledger");
    }
    if wants == [] {
      return Ok(l);
    }
    if !RevealsFit(context, l, wants, evidence) {
      return Err("deck-reveal-slots");
    }
    var removed: set<nat> := {};
    for index := 0 to |evidence|
      invariant removed == SlotIds(evidence[..index])
      invariant forall i :: 0 <= i < index ==> Shows(l, state, context, wants[i], evidence[i], v)
    {
      if !Shows(l, state, context, wants[index], evidence[index], v) {
        return Err("deck-reveal");
      }
      assert evidence[..index + 1] == evidence[..index] + [evidence[index]];
      removed := removed + {evidence[index].slotId};
    }
    assert evidence[..|evidence|] == evidence;
    return Checked(l.(decks := KeepingAll(l.decks, removed)), v);
  }
}
