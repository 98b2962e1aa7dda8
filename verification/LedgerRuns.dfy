/**
 * Every run of the deck ledger: when draws may start, which positions they take, which slots stay hidden,
 * and that every card ever shown is the one the committed passes put there.
 */
module LedgerRuns {
  import opened Results
  import opened DeckSetup
  import opened DeckConservation
  import opened DeckDraw
  import opened DeckReveal
  import opened DeckLedger

  datatype Entry =
    | Pass(deckId: nat, pass: SignedPass)
    | Capture(state: PublicState, pending: Pending, anchor: Anchor, epoch: nat)
    | Deal(state: PublicState, pending: Pending, input: Input, unlocks: seq<SignedUnlock>, deal: Anchor,
           signers: seq<Authority>)
    | Show(state: PublicState, context: RevealContext, wants: seq<Wanted>, evidence: seq<Proved>)

  function Next(l: Ledger, entry: Entry, v: Crypto): Result<Ledger> {
    match entry
    case Pass(deckId, pass) => ApplyDeckSetupEntry(l, deckId, pass, v)
    case Capture(state, pending, anchor, epoch) => CaptureDeckPending(l, state, pending, anchor, epoch, v)
    case Deal(state, pending, input, unlocks, deal, signers) =>
      CompleteDeckDeal(l, state, pending, input, unlocks, deal, signers, v)
    case Show(state, context, wants, evidence) => Revealed(l, state, context, wants, evidence, v)
  }

  /** A refused entry leaves the ledger as it was. */
  function Stepped(l: Ledger, entry: Entry, v: Crypto): Ledger {
    match Next(l, entry, v) case Ok(next) => next case Err(_) => l
  }

  function After(start: Ledger, entries: seq<Entry>, v: Crypto): Ledger {
    if entries == [] then start else Stepped(After(start, entries[..|entries| - 1], v), entries[|entries| - 1], v)
  }

  // ---- what happened to each deck ----

  /** A completed deal, with the kind of card its input named when it was public. */
  datatype Dealt = Dealt(position: nat, seat: nat, slotId: nat, card: Option<nat>)

  /** A hidden position that was shown: the identity proved, and the seat and kind of card the command named. */
  datatype Opening = Opening(position: nat, identity: nat, seat: nat, card: nat)

  datatype History = History(deals: seq<Dealt>, openings: seq<Opening>)

  /** What the input of a deal says: whose card it is, its slot, and in public also its kind. */
  function DealNote(op: DrawOperation, input: Input): Dealt {
    match input
    case CardDealt(_, seat, slotId) => Dealt(op.request.position, seat, slotId, None)
    case CardShown(request, card) => Dealt(op.request.position, request.seat, request.slotId, Some(card))
  }

  /** What each item shows of these slots: its evidence is the item of the same place. */
  function OpeningsIn(slots: seq<Slot>, wants: seq<Wanted>, evidence: seq<Proved>): seq<Opening>
    requires |wants| == |evidence|
  {
    if evidence == [] then []
    else
      var wanted, last := wants[|wants| - 1], evidence[|evidence| - 1];
      var slot := FindSlot(slots, last.slotId);
      OpeningsIn(slots, wants[..|wants| - 1], evidence[..|evidence| - 1])
        + if slot.Some? then [Opening(Position(slot.value), last.identity, wanted.seat, wanted.card)] else []
  }

  /** What an accepted entry adds to the history of deck `i`. */
  function Noted(h: History, l: Ledger, i: nat, entry: Entry): History
    requires i < |l.decks|
  {
    match entry
    case Deal(_, _, input, _, _, _) =>
      if l.active.Some? && DeckIndex(l.decks, l.active.value.deckId) == Some(i)
      then h.(deals := h.deals + [DealNote(l.active.value, input)])
      else h
    case Show(_, _, wants, evidence) =>
      if wants == [] || |wants| != |evidence| then h
      else h.(openings := h.openings + OpeningsIn(l.decks[i].slots, wants, evidence))
    case _ => h
  }

  function HistoryAfter(start: Ledger, entries: seq<Entry>, i: nat, v: Crypto): History
    requires i < |start.decks|
  {
    if entries == [] then History([], [])
    else
      var front, last := entries[..|entries| - 1], entries[|entries| - 1];
      var l := After(start, front, v);
      var h := HistoryAfter(start, front, i, v);
      if i < |l.decks| && Next(l, last, v).Ok? then Noted(h, l, i, last) else h
  }

  /** The privately dealt positions among the first `n` that nobody has shown, in increasing order. */
  function Hidden(h: History, n: nat): seq<nat>
    requires n <= |h.deals|
  {
    if n == 0 then []
    else Hidden(h, n - 1) + if h.deals[n - 1].card.Some? || Shown(h.openings, n - 1) then [] else [n - 1]
  }

  predicate Shown(openings: seq<Opening>, position: nat) {
    exists o :: o in openings && o.position == position
  }

  function Places(slots: seq<Slot>): (r: seq<nat>)
    ensures |r| == |slots| && forall i :: 0 <= i < |r| ==> r[i] == Position(slots[i])
  {
    if slots == [] then [] else Places(slots[..|slots| - 1]) + [Position(slots[|slots| - 1])]
  }

  // ---- the invariant ----

  /** A slot is what its deal made: its position, owner and id, dealt in private. */
  predicate SlotsDealt(slots: seq<Slot>, h: History) {
    forall s :: s in slots ==>
      Position(s) < |h.deals| && h.deals[Position(s)] == Dealt(Position(s), s.seat, s.slotId, None)
  }

  /** Deals take positions 0, 1, 2, … with none left out or repeated, and the slots are the hidden ones. */
  predicate DealsKept(deck: LedgerDeck, h: History) {
    && |h.deals| == deck.nextPosition
    && (forall k :: 0 <= k < |h.deals| ==> h.deals[k].position == k)
    && (forall o :: o in h.openings ==>
          o.position < |h.deals| && h.deals[o.position].seat == o.seat && h.deals[o.position].card.None?)
    && SlotsDealt(deck.slots, h)
    && Places(deck.slots) == Hidden(h, |h.deals|)
  }

  /** The deck is what its committed passes make of its definition. */
  predicate SetupKept(deck: LedgerDeck, v: Crypto) {
    var definition := deck.commitment.definition;
    && InitDeckSetup(definition, v).Ok? && deck.setup.definition == definition
    && deck.nextPass <= |deck.commitment.passes|
    && Replayed(InitDeckSetup(definition, v).value, deck.commitment.passes[..deck.nextPass], v) == Ok(deck.setup)
  }

  /** Every card a deal or a reveal has shown is the card at its position. */
  predicate FacesMatch(d: Definition, h: History, sigma: seq<int>) {
    && (forall k :: 0 <= k < |h.deals| && h.deals[k].card.Some? ==>
          k < |sigma| && 0 <= sigma[k] < |d.cards| && h.deals[k].card.value == d.cards[sigma[k]].card)
    && forall o :: o in h.openings ==>
         o.position < |sigma| && 0 <= sigma[o.position] < |d.cards|
           && d.cards[sigma[o.position]] == Card(o.identity, o.card)
  }

  ghost predicate FacesKept(deck: LedgerDeck, h: History, v: Crypto) {
    forall sigma :: Holds(deck.setup, sigma, v) ==> FacesMatch(deck.commitment.definition, h, sigma)
  }

  ghost predicate DeckKept(deck: LedgerDeck, h: History, v: Crypto) {
    DealsKept(deck, h) && SetupKept(deck, v) && FacesKept(deck, h, v)
  }

  /** A draw is frozen, or a position used, only once every deck has all its passes. */
  predicate SetupFirst(l: Ledger) {
    (l.active.Some? || exists i :: 0 <= i < |l.decks| && l.decks[i].nextPosition > 0) ==> DecksReady(l.decks)
  }

  ghost predicate LedgerKept(l: Ledger, hs: seq<History>, v: Crypto) {
    && |hs| == |l.decks| && ValidLedger(l, v) && SetupFirst(l)
    && forall i :: 0 <= i < |l.decks| ==> DeckKept(l.decks[i], hs[i], v)
  }

  function NotedAll(hs: seq<History>, l: Ledger, entry: Entry): (r: seq<History>)
    requires |hs| == |l.decks|
    ensures |r| == |hs| && forall i :: 0 <= i < |r| ==> r[i] == Noted(hs[i], l, i, entry)
  {
    seq(|hs|, i requires 0 <= i < |hs| => Noted(hs[i], l, i, entry))
  }

  // ---- passes ----

  /** A pass changes one deck only: the first incomplete one, by its next committed pass. */
  lemma PassEffect(l: Ledger, deckId: nat, pass: SignedPass, v: Crypto) returns (index: nat)
    requires ApplyDeckSetupEntry(l, deckId, pass, v).Ok?
    ensures index < |l.decks| && l.active.None? && !Ready(l.decks[index])
      && l.decks[index].nextPass < |l.decks[index].commitment.passes|
    ensures var deck := l.decks[index];
      && deck.commitment.passes[deck.nextPass] == pass && ApplyDeckPass(deck.setup, pass, true, v).Ok?
      && var next := ApplyDeckSetupEntry(l, deckId, pass, v).value;
         && ValidLedger(next, v)
         && next == l.(decks := l.decks[index :=
                                        deck.(setup := ApplyDeckPass(deck.setup, pass, true, v).value,
                                              nextPass := deck.nextPass + 1)])
  {
    hide ValidLedger, ApplyDeckPass;
    index := FirstUnready(l.decks).value;
  }

  lemma PassSetup(deck: LedgerDeck, pass: SignedPass, v: Crypto)
    requires SetupKept(deck, v) && deck.nextPass < |deck.commitment.passes|
      && deck.commitment.passes[deck.nextPass] == pass
    requires ApplyDeckPass(deck.setup, pass, true, v).Ok?
    ensures SetupKept(deck.(setup := ApplyDeckPass(deck.setup, pass, true, v).value, nextPass := deck.nextPass + 1), v)
  {
    hide ApplyDeckPass, InitDeckSetup;
    AppliedShape(deck.setup, pass, v);
    var passes := deck.commitment.passes;
    assert passes[..deck.nextPass + 1][..deck.nextPass] == passes[..deck.nextPass];
  }

  lemma PassKeeps(l: Ledger, deckId: nat, pass: SignedPass, hs: seq<History>, v: Crypto)
    requires LedgerKept(l, hs, v) && ApplyDeckSetupEntry(l, deckId, pass, v).Ok?
    ensures LedgerKept(ApplyDeckSetupEntry(l, deckId, pass, v).value, hs, v)
  {
    hide ApplyDeckSetupEntry, ValidLedger, ApplyDeckPass, SetupKept, FacesMatch, Holds;
    var index := PassEffect(l, deckId, pass, v);
    var next := ApplyDeckSetupEntry(l, deckId, pass, v).value;
    var deck := l.decks[index];
    assert forall i :: 0 <= i < |l.decks| ==> next.decks[i].nextPosition == l.decks[i].nextPosition == 0;
    PassSetup(deck, pass, v);
    NothingShown(next.decks[index], hs[index], v);
  }

  lemma NothingShown(deck: LedgerDeck, h: History, v: Crypto)
    requires |h.deals| == 0 && forall o :: o in h.openings ==> o.position < |h.deals|
    ensures FacesKept(deck, h, v)
  {
  }

  // ---- draws ----

  lemma CaptureKeeps(l: Ledger, state: PublicState, pending: Pending, anchor: Anchor, epoch: nat, hs: seq<History>,
                     v: Crypto)
    requires LedgerKept(l, hs, v) && CaptureDeckPending(l, state, pending, anchor, epoch, v).Ok?
    ensures LedgerKept(CaptureDeckPending(l, state, pending, anchor, epoch, v).value, hs, v)
  {
    hide ValidLedger, DeckKept, FreezeDeckDraw;
  }

  /** A deal's input is private or public as was asked, and names the deck, seat and slot that were asked for. */
  predicate InputNames(op: DrawOperation, input: Input) {
    match input
    case CardDealt(deck, seat, slotId) =>
      !op.request.shown && deck == op.deckId && seat == op.request.seat && slotId == op.request.slotId
    case CardShown(request, _) => op.request.shown && SameRequest(op, request)
  }

  /** A draw that is frozen is the one the engine asked for, at the deck's next position, and asking again keeps it. */
  lemma CaptureFreezes(l: Ledger, state: PublicState, request: DrawPending, anchor: Anchor, epoch: nat, v: Crypto)
    requires CaptureDeckPending(l, state, Draw(request), anchor, epoch, v).Ok?
    ensures var next := CaptureDeckPending(l, state, Draw(request), anchor, epoch, v).value;
      && next.decks == l.decks && next.genesis == l.genesis && next.active.Some?
      && (l.active.Some? ==> next == l)
      && var op, at := next.active.value, DeckIndex(l.decks, request.deck);
         && at.Some? && op.deckId == request.deck && op.request.seat == request.seat
         && op.request.slotId == request.slotId && op.request.shown == request.shown
         && op.request.position == l.decks[at.value].nextPosition
         && request.remaining == |l.decks[at.value].commitment.definition.cards| - l.decks[at.value].nextPosition
         && (l.active.None? ==>
               op.request.genesis == l.genesis && op.request.epoch == epoch && op.request.anchor == anchor
               && op.setup == l.decks[at.value].setup)
  {
    hide ValidLedger, DecksReady, PublicDeckMatches, AlreadyDealt;
    IndexedDefinition(l, request.deck, v);
  }

  lemma IndexedDefinition(l: Ledger, id: nat, v: Crypto)
    requires ValidLedger(l, v) && DeckIndex(l.decks, id).Some?
    ensures l.decks[DeckIndex(l.decks, id).value].setup.definition.deckId == id
  {
    hide SlotsOk, ActiveOk, DeckIndex;
    assert DeckOk(l.decks, DeckIndex(l.decks, id).value, l.genesis, v);
  }

  /** A deal changes one deck only: the active draw's, at its next position. */
  lemma DealEffect(l: Ledger, state: PublicState, pending: Pending, input: Input, unlocks: seq<SignedUnlock>,
                   deal: Anchor,
                   signers: seq<Authority>, v: Crypto) returns (index: nat, receipt: Receipt)
    requires CompleteDeckDeal(l, state, pending, input, unlocks, deal, signers, v).Ok?
    ensures index < |l.decks| && ValidLedger(l, v) && l.active.Some?
      && DeckIndex(l.decks, l.active.value.deckId) == Some(index)
    ensures var op, deck := l.active.value, l.decks[index];
      && op.request.position == deck.nextPosition
      && receipt.operation == op
      && InputNames(op, input) && deal.height > op.request.anchor.height
      && (op.request.shown ==>
            && DecodePublicDeckCard(deck.setup, receipt, Some(Keys(signers)), v).Ok?
            && DecodePublicDeckCard(deck.setup, receipt, Some(Keys(signers)), v).value.card == input.card)
      && var next := CompleteDeckDeal(l, state, pending, input, unlocks, deal, signers, v).value;
         && ValidLedger(next, v)
         && next == l.(decks := l.decks[index := DealtDeck(deck, op, receipt, deal, signers)], active := None)
  {
    hide ValidLedger, DecodePublicDeckCard, CompleteDraw, PrefixPoint, PublicDeckMatches, DealtDeck;
    index := DeckIndex(l.decks, l.active.value.deckId).value;
    receipt := CompleteDeckDraw(l.active.value, unlocks, signers, v).value;
  }

  lemma {:induction false} HiddenGrows(h: History, deal: Dealt, n: nat)
    requires n <= |h.deals|
    ensures Hidden(h.(deals := h.deals + [deal]), n) == Hidden(h, n)
    decreases n
  {
    if n > 0 {
      HiddenGrows(h, deal, n - 1);
    }
  }

  lemma PlacesPush(slots: seq<Slot>, slot: Slot)
    ensures Places(slots + [slot]) == Places(slots) + [Position(slot)]
  {
    assert (slots + [slot])[..|slots|] == slots;
  }

  lemma DealtSlots(slots: seq<Slot>, h: History, op: DrawOperation, receipt: Receipt, deal: Anchor,
                   signers: seq<Authority>, input: Input)
    requires SlotsDealt(slots, h) && op.request.position == |h.deals| && receipt.operation == op
    requires InputNames(op, input)
    ensures var after := h.(deals := h.deals + [DealNote(op, input)]);
      && SlotsDealt(slots, after)
      && (!op.request.shown ==>
            SlotsDealt(slots + [Slot(op.request.slotId, op.request.seat, receipt, deal, signers)], after))
  {
  }

  lemma DealtDeals(deck: LedgerDeck, h: History, op: DrawOperation, receipt: Receipt, deal: Anchor,
                   signers: seq<Authority>, input: Input)
    requires DealsKept(deck, h) && op.request.position == deck.nextPosition && receipt.operation == op
    requires InputNames(op, input)
    ensures DealsKept(DealtDeck(deck, op, receipt, deal, signers), h.(deals := h.deals + [DealNote(op, input)]))
  {
    hide SlotsDealt, Places;
    var note, n := DealNote(op, input), |h.deals|;
    var after := h.(deals := h.deals + [note]);
    HiddenGrows(h, note, n);
    DealtSlots(deck.slots, h, op, receipt, deal, signers, input);
    if !op.request.shown {
      PlacesPush(deck.slots, Slot(op.request.slotId, op.request.seat, receipt, deal, signers));
    }
    assert !Shown(h.openings, n);
  }

  lemma DealtFaces(deck: LedgerDeck, h: History, op: DrawOperation, receipt: Receipt, deal: Anchor,
                   signers: seq<Authority>, input: Input, v: Crypto)
    requires Sound(v) && DeckKept(deck, h, v) && op.request.position == deck.nextPosition && receipt.operation == op
    requires InputNames(op, input)
    requires op.request.shown ==>
      && DecodePublicDeckCard(deck.setup, receipt, Some(Keys(signers)), v).Ok?
      && DecodePublicDeckCard(deck.setup, receipt, Some(Keys(signers)), v).value.card == input.card
    ensures FacesKept(DealtDeck(deck, op, receipt, deal, signers), h.(deals := h.deals + [DealNote(op, input)]), v)
  {
    hide Sound, Holds, InitDeckSetup, VerifiedReceipt, DecodePoint;
    var next, after := DealtDeck(deck, op, receipt, deal, signers), h.(deals := h.deals + [DealNote(op, input)]);
    forall sigma | Holds(next.setup, sigma, v) ensures FacesMatch(next.commitment.definition, after, sigma) {
      assert FacesMatch(deck.commitment.definition, h, sigma);
      if op.request.shown {
        PublicDrawDecodes(deck.setup, sigma, receipt, Some(Keys(signers)), v);
      }
    }
  }

  lemma DealKeeps(l: Ledger, state: PublicState, pending: Pending, input: Input, unlocks: seq<SignedUnlock>,
                  deal: Anchor,
                  signers: seq<Authority>, hs: seq<History>, v: Crypto)
    requires Sound(v) && LedgerKept(l, hs, v)
      && CompleteDeckDeal(l, state, pending, input, unlocks, deal, signers, v).Ok?
    ensures LedgerKept(CompleteDeckDeal(l, state, pending, input, unlocks, deal, signers, v).value,
                       NotedAll(hs, l, Deal(state, pending, input, unlocks, deal, signers)), v)
  {
    hide CompleteDeckDeal, ValidLedger, DealsKept, SetupKept, FacesKept, DecodePublicDeckCard, Sound;
    var index, receipt := DealEffect(l, state, pending, input, unlocks, deal, signers, v);
    var deck, op := l.decks[index], l.active.value;
    DealtDeals(deck, hs[index], op, receipt, deal, signers, input);
    DealtFaces(deck, hs[index], op, receipt, deal, signers, input, v);
    SameSetup(deck, DealtDeck(deck, op, receipt, deal, signers), v);
  }

  lemma SameSetup(deck: LedgerDeck, next: LedgerDeck, v: Crypto)
    requires SetupKept(deck, v) && next.commitment == deck.commitment && next.setup == deck.setup
      && next.nextPass == deck.nextPass
    ensures SetupKept(next, v)
  {
  }

  // ---- reveals ----

  function Without(places: seq<nat>, openings: seq<Opening>): seq<nat> {
    if places == [] then []
    else
      var last := places[|places| - 1];
      Without(places[..|places| - 1], openings) + if Shown(openings, last) then [] else [last]
  }

  lemma WithoutPush(places: seq<nat>, x: nat, openings: seq<Opening>)
    ensures Without(places + [x], openings) == Without(places, openings) + if Shown(openings, x) then [] else [x]
  {
    assert (places + [x])[..|places|] == places;
  }

  /** More openings take their positions out of the hidden ones, and nothing else. */
  lemma {:induction false} HiddenWithout(h: History, more: seq<Opening>, n: nat)
    requires n <= |h.deals|
    ensures Hidden(h.(openings := h.openings + more), n) == Without(Hidden(h, n), more)
    decreases n
  {
    hide Shown, Without;
    if n == 0 {
      NothingWithout(more);
    } else {
      HiddenWithout(h, more, n - 1);
      ShownEither(h.openings, more, n - 1);
      var front, after := Hidden(h, n - 1), h.(openings := h.openings + more);
      WithoutPush(front, n - 1, more);
      assert Hidden(h, n) == if h.deals[n - 1].card.Some? || Shown(h.openings, n - 1) then front else front + [n - 1];
      assert Hidden(after, n) == Hidden(after, n - 1)
        + if h.deals[n - 1].card.Some? || Shown(after.openings, n - 1) then [] else [n - 1];
    }
  }

  lemma NothingWithout(openings: seq<Opening>)
    ensures Without([], openings) == []
  {
  }

  lemma ShownEither(a: seq<Opening>, b: seq<Opening>, position: nat)
    ensures Shown(a + b, position) <==> Shown(a, position) || Shown(b, position)
  {
  }

  /** Slots go together with their positions. */
  lemma {:induction false} KeepingPlaces(slots: seq<Slot>, removed: set<nat>, openings: seq<Opening>)
    requires forall s :: s in slots ==> (s.slotId in removed <==> Shown(openings, Position(s)))
    ensures Places(Keeping(slots, removed)) == Without(Places(slots), openings)
  {
    hide Shown, Position;
    if slots != [] {
      var front, last := slots[..|slots| - 1], slots[|slots| - 1];
      KeepingPlaces(front, removed, openings);
      assert last in slots;
      assert Places(slots)[..|front|] == Places(front);
      PlacesPush(Keeping(front, removed), last);
    }
  }

  /** A position is opened by a list of evidence exactly when the list names its slot. */
  lemma {:induction false} OpenedByName(slots: seq<Slot>, wants: seq<Wanted>, evidence: seq<Proved>, slot: Slot)
    requires |wants| == |evidence| && slot in slots
    requires forall a, b :: a in slots && b in slots && (a.slotId == b.slotId || Position(a) == Position(b)) ==> a == b
    ensures Shown(OpeningsIn(slots, wants, evidence), Position(slot)) <==> slot.slotId in SlotIds(evidence)
  {
    if evidence != [] {
      var front, last := evidence[..|evidence| - 1], evidence[|evidence| - 1];
      OpenedByName(slots, wants[..|wants| - 1], front, slot);
      assert evidence == front + [last];
      assert SlotIds(evidence) == SlotIds(front) + {last.slotId};
      var found := FindSlot(slots, last.slotId);
      var wanted := wants[|wants| - 1];
      var here := if found.Some? then [Opening(Position(found.value), last.identity, wanted.seat, wanted.card)] else [];
      ShownEither(OpeningsIn(slots, wants[..|wants| - 1], front), here, Position(slot));
      if found.Some? {
        ShownOne(here[0], Position(slot));
      }
    }
  }

  lemma ShownOne(o: Opening, position: nat)
    ensures Shown([o], position) <==> o.position == position
  {
    assert o in [o];
  }

  lemma {:induction false} OpeningsAreHidden(slots: seq<Slot>, wants: seq<Wanted>, evidence: seq<Proved>, o: Opening)
    returns (k: nat, slot: Slot)
    requires |wants| == |evidence| && o in OpeningsIn(slots, wants, evidence)
    ensures k < |evidence| && slot in slots && FindSlot(slots, evidence[k].slotId) == Some(slot)
    ensures o == Opening(Position(slot), evidence[k].identity, wants[k].seat, wants[k].card)
  {
    var front, last := evidence[..|evidence| - 1], evidence[|evidence| - 1];
    if o in OpeningsIn(slots, wants[..|wants| - 1], front) {
      k, slot := OpeningsAreHidden(slots, wants[..|wants| - 1], front, o);
    } else {
      k, slot := |evidence| - 1, FindSlot(slots, last.slotId).value;
    }
  }

  lemma SlotsDiffer(deck: LedgerDeck, genesis: nat, earlier: set<nat>, v: Crypto)
    requires SlotsOk(deck, genesis, earlier, v)
    ensures forall a, b ::
      a in deck.slots && b in deck.slots && (a.slotId == b.slotId || Position(a) == Position(b)) ==> a == b
    ensures forall s :: s in deck.slots ==>
      Position(s) < deck.nextPosition && !s.receipt.operation.request.shown && s.slotId !in earlier
  {
    hide ValidOperation, SignersOk, CheckedOperation;
    forall a, b | a in deck.slots && b in deck.slots && (a.slotId == b.slotId || Position(a) == Position(b))
      ensures a == b
    {
      var i :| 0 <= i < |deck.slots| && deck.slots[i] == a;
      var j :| 0 <= j < |deck.slots| && deck.slots[j] == b;
    }
  }

  lemma {:induction false} KeptSlot(slots: seq<Slot>, removed: set<nat>, s: Slot)
    requires s in Keeping(slots, removed)
    ensures s in slots
  {
    if s in Keeping(slots[..|slots| - 1], removed) {
      KeptSlot(slots[..|slots| - 1], removed, s);
    }
  }

  /** The slots that stay, and the openings that come, are still what their deals made. */
  lemma ShownSlots(deck: LedgerDeck, h: History, wants: seq<Wanted>, evidence: seq<Proved>, o: Opening)
    requires SlotsDealt(deck.slots, h) && |wants| == |evidence| && o in OpeningsIn(deck.slots, wants, evidence)
    requires forall i :: 0 <= i < |wants| && FindSlot(deck.slots, evidence[i].slotId).Some? ==>
      FindSlot(deck.slots, evidence[i].slotId).value.seat == wants[i].seat
    ensures o.position < |h.deals| && h.deals[o.position].seat == o.seat && h.deals[o.position].card.None?
  {
    hide OpeningsIn, FindSlot;
    var k, slot := OpeningsAreHidden(deck.slots, wants, evidence, o);
  }

  lemma KeptSlots(slots: seq<Slot>, removed: set<nat>, h: History, more: seq<Opening>)
    requires SlotsDealt(slots, h)
    ensures SlotsDealt(Keeping(slots, removed), h.(openings := h.openings + more))
  {
    hide Keeping;
    forall s | s in Keeping(slots, removed) ensures s in slots {
      KeptSlot(slots, removed, s);
    }
  }

  lemma ShownDeals(deck: LedgerDeck, genesis: nat, earlier: set<nat>, h: History, wants: seq<Wanted>,
                   evidence: seq<Proved>, v: Crypto)
    requires DealsKept(deck, h) && SlotsOk(deck, genesis, earlier, v) && |wants| == |evidence|
    requires forall i :: 0 <= i < |wants| && FindSlot(deck.slots, evidence[i].slotId).Some? ==>
      FindSlot(deck.slots, evidence[i].slotId).value.seat == wants[i].seat
    ensures DealsKept(deck.(slots := Keeping(deck.slots, SlotIds(evidence))),
                      h.(openings := h.openings + OpeningsIn(deck.slots, wants, evidence)))
  {
    hide SlotsOk, Keeping, SlotsDealt, OpeningsIn, FindSlot, Shown, Hidden, Places;
    SlotsDiffer(deck, genesis, earlier, v);
    var more := OpeningsIn(deck.slots, wants, evidence);
    forall s | s in deck.slots ensures s.slotId in SlotIds(evidence) <==> Shown(more, Position(s)) {
      OpenedByName(deck.slots, wants, evidence, s);
    }
    KeepingPlaces(deck.slots, SlotIds(evidence), more);
    HiddenWithout(h, more, |h.deals|);
    forall o | o in more
      ensures o.position < |h.deals| && h.deals[o.position].seat == o.seat && h.deals[o.position].card.None?
    {
      ShownSlots(deck, h, wants, evidence, o);
    }
    KeptSlots(deck.slots, SlotIds(evidence), h, more);
  }

  lemma {:induction false} AllIdsHas(decks: seq<LedgerDeck>, j: nat, slot: Slot)
    requires j < |decks| && slot in decks[j].slots
    ensures slot.slotId in AllIds(decks)
  {
    if j < |decks| - 1 {
      AllIdsHas(decks[..|decks| - 1], j, slot);
    }
  }

  /** Ids are unique over all decks, so a slot of deck `i` is found in deck `i`. */
  lemma HeldHere(l: Ledger, i: nat, slotId: nat, v: Crypto)
    requires ValidLedger(l, v) && i < |l.decks| && FindSlot(l.decks[i].slots, slotId).Some?
    ensures HeldAt(l.decks, slotId) == Some(i)
  {
    hide SlotsOk, CursorsOk, ActiveOk;
    var j := HeldAt(l.decks, slotId).value;
    assert DeckOk(l.decks, i, l.genesis, v);
    SlotsDiffer(l.decks[i], l.genesis, AllIds(l.decks[..i]), v);
    assert FindSlot(l.decks[i].slots, slotId).value in l.decks[i].slots;
    if j < i {
      AllIdsHas(l.decks[..i], j, FindSlot(l.decks[j].slots, slotId).value);
    }
  }

  /** What an accepted item proves of a slot of deck `i`. */
  lemma ItemShows(l: Ledger, state: PublicState, context: RevealContext, wanted: Wanted, proved: Proved, i: nat,
                  slot: Slot, v: Crypto)
    requires ValidLedger(l, v) && i < |l.decks| && FindSlot(l.decks[i].slots, proved.slotId) == Some(slot)
    requires Shows(l, state, context, wanted, proved, v)
    ensures var shown := VerifyDeckReveal(l.decks[i].setup, slot.receipt, proved.identity, proved.proof, context,
                                          Some(Keys(slot.unlockSigners)), None, v);
      shown == Ok(Card(proved.identity, wanted.card))
    ensures slot.seat == wanted.seat == context.seat && IdOf(l.decks[i]) == wanted.deck && slot.slotId == wanted.slotId
  {
    hide ValidLedger, VerifyDeckReveal;
    HeldHere(l, i, proved.slotId, v);
  }

  lemma ItemOwners(l: Ledger, state: PublicState, context: RevealContext, wants: seq<Wanted>, evidence: seq<Proved>,
                   i: nat, v: Crypto)
    requires ValidLedger(l, v) && i < |l.decks| && |wants| == |evidence|
    requires AllShow(l, state, context, wants, evidence, v)
    ensures forall k :: 0 <= k < |wants| && FindSlot(l.decks[i].slots, evidence[k].slotId).Some? ==>
      FindSlot(l.decks[i].slots, evidence[k].slotId).value.seat == wants[k].seat
  {
    hide ValidLedger, Shows;
    forall k | 0 <= k < |wants| && FindSlot(l.decks[i].slots, evidence[k].slotId).Some?
      ensures FindSlot(l.decks[i].slots, evidence[k].slotId).value.seat == wants[k].seat
    {
      ItemShows(l, state, context, wants[k], evidence[k], i, FindSlot(l.decks[i].slots, evidence[k].slotId).value, v);
    }
  }

  /**
   * A command may only show what it names truly: each item names the deck, owner and id of a slot that is hidden,
   * and the very kind of card that the passes put at that slot's position.
   */
  lemma RevealsNameTheCard(l: Ledger, hs: seq<History>, state: PublicState, context: RevealContext, wants: seq<Wanted>,
                           evidence: seq<Proved>, k: nat, v: Crypto)
    returns (i: nat, slot: Slot, sigma: seq<int>)
    requires Sound(v) && LedgerKept(l, hs, v) && Revealed(l, state, context, wants, evidence, v).Ok? && k < |wants|
    ensures i < |l.decks| && slot in l.decks[i].slots
    ensures wants[k].deck == IdOf(l.decks[i]) && wants[k].seat == slot.seat == context.seat
      && wants[k].slotId == slot.slotId
    ensures Holds(l.decks[i].setup, sigma, v)
    ensures var d := l.decks[i].commitment.definition;
      Position(slot) < |sigma| && 0 <= sigma[Position(slot)] < |d.cards|
      && wants[k].card == d.cards[sigma[Position(slot)]].card
  {
    hide Sound, Holds, ValidLedger, VerifyDeckReveal, InitDeckSetup, FacesKept, DealsKept, Replayed;
    assert Shows(l, state, context, wants[k], evidence[k], v);
    i := HeldAt(l.decks, evidence[k].slotId).value;
    var deck := l.decks[i];
    slot := FindSlot(deck.slots, evidence[k].slotId).value;
    ItemShows(l, state, context, wants[k], evidence[k], i, slot, v);
    SlotIsPrivate(l, i, slot, v);
    assert DeckKept(deck, hs[i], v);
    sigma := TranscriptHolds(deck.commitment.definition, deck.commitment.passes[..deck.nextPass], v);
    RevealIsDealt(deck.setup, sigma, slot.receipt, evidence[k].identity, evidence[k].proof, context,
                  Some(Keys(slot.unlockSigners)), v);
  }

  lemma OpeningFaces(l: Ledger, state: PublicState, context: RevealContext, wants: seq<Wanted>, evidence: seq<Proved>,
                     i: nat,
                     o: Opening, sigma: seq<int>, v: Crypto)
    requires Sound(v) && ValidLedger(l, v) && i < |l.decks| && SetupKept(l.decks[i], v)
      && Holds(l.decks[i].setup, sigma, v)
    requires |wants| == |evidence| && AllShow(l, state, context, wants, evidence, v)
    requires o in OpeningsIn(l.decks[i].slots, wants, evidence)
    ensures var d := l.decks[i].commitment.definition;
      o.position < |sigma| && 0 <= sigma[o.position] < |d.cards|
        && d.cards[sigma[o.position]] == Card(o.identity, o.card)
  {
    hide Sound, Holds, VerifyDeckReveal, ValidLedger, Shows, InitDeckSetup, OpeningsIn;
    var deck := l.decks[i];
    var k, slot := OpeningsAreHidden(deck.slots, wants, evidence, o);
    ItemShows(l, state, context, wants[k], evidence[k], i, slot, v);
    SlotIsPrivate(l, i, slot, v);
    RevealIsDealt(deck.setup, sigma, slot.receipt, evidence[k].identity, evidence[k].proof, context,
                  Some(Keys(slot.unlockSigners)), v);
  }

  /** Whatever an accepted reveal shows of deck `i` is the card at that slot's position. */
  lemma ShownFaces(l: Ledger, state: PublicState, context: RevealContext, wants: seq<Wanted>, evidence: seq<Proved>,
                   i: nat, h: History, v: Crypto)
    requires Sound(v) && ValidLedger(l, v) && i < |l.decks| && DeckKept(l.decks[i], h, v)
    requires |wants| == |evidence| && AllShow(l, state, context, wants, evidence, v)
    ensures FacesKept(l.decks[i].(slots := Keeping(l.decks[i].slots, SlotIds(evidence))),
                      h.(openings := h.openings + OpeningsIn(l.decks[i].slots, wants, evidence)), v)
  {
    hide Sound, Holds, DealsKept, SetupKept, AllShow, ValidLedger, OpeningsIn, Keeping;
    var deck := l.decks[i];
    var more := OpeningsIn(deck.slots, wants, evidence);
    forall sigma | Holds(deck.setup, sigma, v)
      ensures FacesMatch(deck.commitment.definition, h.(openings := h.openings + more), sigma)
    {
      assert FacesMatch(deck.commitment.definition, h, sigma);
      forall o | o in more
        ensures o.position < |sigma| && 0 <= sigma[o.position] < |deck.commitment.definition.cards|
          && deck.commitment.definition.cards[sigma[o.position]] == Card(o.identity, o.card)
      {
        OpeningFaces(l, state, context, wants, evidence, i, o, sigma, v);
      }
    }
  }

  lemma SlotIsPrivate(l: Ledger, i: nat, slot: Slot, v: Crypto)
    requires ValidLedger(l, v) && i < |l.decks| && slot in l.decks[i].slots
    ensures !slot.receipt.operation.request.shown
  {
    hide SlotsOk, CursorsOk, ActiveOk;
    assert DeckOk(l.decks, i, l.genesis, v);
    SlotsDiffer(l.decks[i], l.genesis, AllIds(l.decks[..i]), v);
  }

  lemma ShowKeeps(l: Ledger, state: PublicState, context: RevealContext, wants: seq<Wanted>, evidence: seq<Proved>,
                  hs: seq<History>, v: Crypto)
    requires Sound(v) && LedgerKept(l, hs, v) && Revealed(l, state, context, wants, evidence, v).Ok?
    ensures LedgerKept(Revealed(l, state, context, wants, evidence, v).value,
                       NotedAll(hs, l, Show(state, context, wants, evidence)), v)
  {
    hide ValidLedger, DealsKept, SetupKept, FacesKept, Sound, AllShow, SlotsOk, CursorsOk;
    var next := Revealed(l, state, context, wants, evidence, v).value;
    if wants != [] {
      forall i | 0 <= i < |l.decks|
        ensures DeckKept(next.decks[i], NotedAll(hs, l, Show(state, context, wants, evidence))[i], v)
      {
        DeckIsOk(l, i, v);
        ItemOwners(l, state, context, wants, evidence, i, v);
        ShownDeals(l.decks[i], l.genesis, AllIds(l.decks[..i]), hs[i], wants, evidence, v);
        ShownFaces(l, state, context, wants, evidence, i, hs[i], v);
        SameSetup(l.decks[i], next.decks[i], v);
      }
    }
  }

  lemma DeckIsOk(l: Ledger, i: nat, v: Crypto)
    requires ValidLedger(l, v) && i < |l.decks|
    ensures SlotsOk(l.decks[i], l.genesis, AllIds(l.decks[..i]), v)
  {
    hide SlotsOk, CursorsOk, ActiveOk;
    assert DeckOk(l.decks, i, l.genesis, v);
  }

  // ---- runs ----

  lemma StepKeeps(l: Ledger, entry: Entry, hs: seq<History>, v: Crypto)
    requires Sound(v) && LedgerKept(l, hs, v)
    ensures LedgerKept(Stepped(l, entry, v), if Next(l, entry, v).Ok? then NotedAll(hs, l, entry) else hs, v)
  {
    hide LedgerKept, Sound, ApplyDeckSetupEntry, CaptureDeckPending, CompleteDeckDeal, Revealed;
    KeptLength(l, hs, v);
    if Next(l, entry, v).Ok? {
      match entry
      case Pass(deckId, pass) =>
        PassKeeps(l, deckId, pass, hs, v);
        assert NotedAll(hs, l, entry) == hs;
      case Capture(state, pending, anchor, epoch) =>
        CaptureKeeps(l, state, pending, anchor, epoch, hs, v);
        assert NotedAll(hs, l, entry) == hs;
      case Deal(state, pending, input, unlocks, deal, signers) =>
        DealKeeps(l, state, pending, input, unlocks, deal, signers, hs, v);
      case Show(state, context, wants, evidence) => ShowKeeps(l, state, context, wants, evidence, hs, v);
    }
  }

  function HistoriesAfter(start: Ledger, entries: seq<Entry>, v: Crypto): (r: seq<History>)
    ensures |r| == |start.decks| && forall i :: 0 <= i < |r| ==> r[i] == HistoryAfter(start, entries, i, v)
  {
    seq(|start.decks|, i requires 0 <= i < |start.decks| => HistoryAfter(start, entries, i, v))
  }

  /**
   * In every run from genesis: no draw starts before every committed pass is applied; each deal takes exactly
   * the next position; a deck's slots are its privately dealt, unshown positions in increasing order; and every
   * card a public deal or a reveal shows is the one the committed passes put at that position.
   */
  lemma {:induction false} EveryRunIsKept(start: Ledger, entries: seq<Entry>, v: Crypto)
    requires Sound(v) && Opened(start, v)
    ensures LedgerKept(After(start, entries, v), HistoriesAfter(start, entries, v), v)
  {
    hide Sound, LedgerKept, Next;
    if entries == [] {
      OpenedIsKept(start, v);
      assert HistoriesAfter(start, entries, v) == seq(|start.decks|, _ => History([], []));
    } else {
      var front, last := entries[..|entries| - 1], entries[|entries| - 1];
      EveryRunIsKept(start, front, v);
      var l, hs := After(start, front, v), HistoriesAfter(start, front, v);
      KeptLength(l, hs, v);
      StepKeeps(l, last, hs, v);
      assert HistoriesAfter(start, entries, v) == if Next(l, last, v).Ok? then NotedAll(hs, l, last) else hs;
    }
  }

  lemma KeptLength(l: Ledger, hs: seq<History>, v: Crypto)
    requires LedgerKept(l, hs, v)
    ensures |hs| == |l.decks|
  {
  }

  lemma OpenedIsKept(start: Ledger, v: Crypto)
    requires Opened(start, v)
    ensures LedgerKept(start, seq(|start.decks|, _ => History([], [])), v)
  {
    hide ValidLedger, InitDeckSetup, Holds;
    forall i | 0 <= i < |start.decks| ensures DeckKept(start.decks[i], History([], []), v) {
      var deck := start.decks[i];
      DefinitionStays(deck.commitment.definition, v);
      assert deck.commitment.passes[..0] == [];
    }
  }

  lemma DefinitionStays(d: Definition, v: Crypto)
    requires InitDeckSetup(d, v).Ok?
    ensures InitDeckSetup(d, v).value.definition == d
  {
  }

  /**
   * While a draw is frozen, and ever after a deal, each deck is the committed final state, replayed from its passes.
   */
  lemma DrawsWaitForSetup(start: Ledger, entries: seq<Entry>, i: nat, v: Crypto)
    requires Sound(v) && Opened(start, v) && i < |start.decks|
    requires After(start, entries, v).active.Some?
      || (exists k :: 0 <= k < |start.decks| && HistoryAfter(start, entries, k, v).deals != [])
    ensures var l := After(start, entries, v);
      && i < |l.decks|
      && var deck := l.decks[i];
         && InitDeckSetup(deck.commitment.definition, v).Ok?
         && deck.setup == deck.commitment.finalState
         && Replayed(InitDeckSetup(deck.commitment.definition, v).value, deck.commitment.passes, v)
              == Ok(deck.commitment.finalState)
  {
    hide Sound, InitDeckSetup, Replayed, ActiveOk, SlotsOk, Opened;
    EveryRunIsKept(start, entries, v);
    var l, hs := After(start, entries, v), HistoriesAfter(start, entries, v);
    assert forall k :: 0 <= k < |l.decks| ==> DeckKept(l.decks[k], hs[k], v);
    var deck := l.decks[i];
    assert DeckOk(l.decks, i, l.genesis, v);
    assert deck.commitment.passes[..|deck.commitment.passes|] == deck.commitment.passes;
  }

  /** Two openings of one deck that show the same card are openings of the same position. */
  lemma NoCardTwice(start: Ledger, entries: seq<Entry>, i: nat, v: Crypto, a: Opening, b: Opening)
    requires Sound(v) && Opened(start, v) && i < |start.decks|
    requires a in HistoryAfter(start, entries, i, v).openings && b in HistoryAfter(start, entries, i, v).openings
    requires a.identity == b.identity
    ensures a.position == b.position
  {
    hide Sound, ValidLedger, InitDeckSetup, Replayed, DealsKept, Holds, CursorsOk;
    EveryRunIsKept(start, entries, v);
    var l, h := After(start, entries, v), HistoriesAfter(start, entries, v)[i];
    assert DeckKept(l.decks[i], h, v);
    var deck := l.decks[i];
    var d, passes := deck.commitment.definition, deck.commitment.passes[..deck.nextPass];
    var sigma := TranscriptHolds(d, passes, v);
    HoldsBijection(deck.setup, sigma, v);
    assert FacesMatch(d, h, sigma);
    DistinctIdentities(d, v, sigma[a.position], sigma[b.position]);
  }

  lemma DistinctIdentities(d: Definition, v: Crypto, i: nat, j: nat)
    requires InitDeckSetup(d, v).Ok? && i < |d.cards| && j < |d.cards| && d.cards[i].identity == d.cards[j].identity
    ensures i == j
  {
  }
}
