/** What the deck ledger accepts, and that it never refuses the next step of an honest game. */
module LedgerProgress {
  import opened Results
  import opened Group
  import opened DeckSetup
  import opened DeckConservation
  import opened DeckDraw
  import opened DeckReveal
  import opened DeckProgress
  import opened DeckLedger
  import opened LedgerRuns

  // ---- slots of changed decks ----

  lemma {:induction false} IdsGrow(a: seq<LedgerDeck>, b: seq<LedgerDeck>, more: set<nat>)
    requires |a| == |b| && forall k :: 0 <= k < |a| ==> IdsOf(b[k].slots) <= IdsOf(a[k].slots) + more
    ensures AllIds(b) <= AllIds(a) + more
    decreases |a|
  {
    if a != [] {
      IdsGrow(a[..|a| - 1], b[..|b| - 1], more);
    }
  }

  /** A deck stays in order when only later or fewer ids come before it. */
  lemma EarlierIds(deck: LedgerDeck, genesis: nat, before: set<nat>, after: set<nat>, v: Crypto)
    requires SlotsOk(deck, genesis, before, v) && forall s :: s in deck.slots ==> s.slotId !in after
    ensures SlotsOk(deck, genesis, after, v)
  {
    hide SlotOk, Position;
  }

  lemma SlotIdsIn(decks: seq<LedgerDeck>, j: nat)
    requires j < |decks|
    ensures forall s :: s in decks[j].slots ==> s.slotId in AllIds(decks)
  {
    forall s | s in decks[j].slots ensures s.slotId in AllIds(decks) {
      AllIdsHas(decks, j, s);
    }
  }

  // ---- passes ----

  /** A commitment whose passes make its final state out of its definition. */
  predicate Replays(c: Commitment, v: Crypto) {
    && InitDeckSetup(c.definition, v).Ok?
    && Replayed(InitDeckSetup(c.definition, v).value, c.passes, v) == Ok(c.finalState)
  }

  lemma SlotNeedsSetup(deck: LedgerDeck, genesis: nat, earlier: set<nat>, v: Crypto)
    requires SlotsOk(deck, genesis, earlier, v) && |deck.slots| > 0
    ensures Ready(deck)
  {
    hide ValidOperation, SignersOk, CheckedOperation;
    assert SlotOk(deck.slots[0], deck, genesis, v);
  }

  lemma UnreadyIsEmpty(deck: LedgerDeck, genesis: nat, earlier: set<nat>, v: Crypto)
    requires SlotsOk(deck, genesis, earlier, v) && !Ready(deck)
    ensures deck.slots == []
  {
    if |deck.slots| > 0 {
      SlotNeedsSetup(deck, genesis, earlier, v);
    }
  }

  lemma PassedCursors(deck: LedgerDeck, pass: SignedPass, v: Crypto)
    requires CursorsOk(deck, v) && deck.nextPass < |deck.commitment.passes|
      && ApplyDeckPass(deck.setup, pass, true, v).Ok?
    requires deck.nextPass + 1 == |deck.commitment.passes| ==>
      ApplyDeckPass(deck.setup, pass, true, v).value == deck.commitment.finalState
    ensures CursorsOk(deck.(setup := ApplyDeckPass(deck.setup, pass, true, v).value, nextPass := deck.nextPass + 1), v)
  {
    hide ApplyDeckPass, ValidState;
    AppliedShape(deck.setup, pass, v);
  }

  lemma PassedLedger(l: Ledger, i: nat, next: LedgerDeck, v: Crypto)
    requires ValidLedger(l, v) && l.active.None? && i < |l.decks| && CursorsOk(next, v)
    requires l.decks[i].slots == next.slots == [] && next.commitment == l.decks[i].commitment
    ensures ValidLedger(l.(decks := l.decks[i := next]), v)
  {
    hide CursorsOk, SlotsOk;
    var decks := l.decks[i := next];
    NoneActive(l.(decks := decks), v);
    forall j | 0 <= j < |decks| ensures DeckOk(decks, j, l.genesis, v) {
      assert DeckOk(l.decks, j, l.genesis, v);
      IdsGrow(l.decks[..j], decks[..j], {});
      IdsGrow(decks[..j], l.decks[..j], {});
      assert AllIds(decks[..j]) == AllIds(l.decks[..j]);
      assert j > 0 ==> IdOf(decks[j - 1]) == IdOf(l.decks[j - 1]);
      if j == i {
        NoSlots(next, l.genesis, AllIds(decks[..j]), v);
      }
    }
  }

  lemma NoSlots(deck: LedgerDeck, genesis: nat, earlier: set<nat>, v: Crypto)
    requires deck.slots == []
    ensures SlotsOk(deck, genesis, earlier, v)
  {
  }

  /** While setup goes on, the next committed pass of the first incomplete deck is accepted. */
  lemma NextPassAccepted(l: Ledger, hs: seq<History>, i: nat, v: Crypto)
    requires LedgerKept(l, hs, v) && l.active.None? && FirstUnready(l.decks) == Some(i)
    requires Replays(l.decks[i].commitment, v)
    ensures var deck := l.decks[i];
      && deck.nextPass < |deck.commitment.passes|
      && ApplyDeckSetupEntry(l, IdOf(deck), deck.commitment.passes[deck.nextPass], v).Ok?
  {
    hide ValidLedger, ApplyDeckPass, CursorsOk, InitDeckSetup, DealsKept, FacesKept;
    var deck := l.decks[i];
    assert DeckKept(deck, hs[i], v);
    CursorsOf(l, i, v);
    var initial, passes := InitDeckSetup(deck.commitment.definition, v).value, deck.commitment.passes;
    var front := passes[..deck.nextPass + 1];
    if Replayed(initial, front, v).Err? {
      FailedPrefixFails(initial, passes, deck.nextPass + 1, v);
    }
    assert front[..deck.nextPass] == passes[..deck.nextPass];
    if deck.nextPass + 1 == |passes| {
      assert front == passes;
    }
    PassedCursors(deck, passes[deck.nextPass], v);
    UnreadyIsEmpty(deck, l.genesis, AllIds(l.decks[..i]), v);
    PassedLedger(l, i, deck.(setup := ApplyDeckPass(deck.setup, passes[deck.nextPass], true, v).value,
                             nextPass := deck.nextPass + 1), v);
  }

  lemma CursorsOf(l: Ledger, i: nat, v: Crypto)
    requires ValidLedger(l, v) && i < |l.decks|
    ensures CursorsOk(l.decks[i], v) && SlotsOk(l.decks[i], l.genesis, AllIds(l.decks[..i]), v)
    ensures l.decks[i].nextPass <= |l.decks[i].commitment.passes|
  {
    hide SlotsOk;
    assert DeckOk(l.decks, i, l.genesis, v);
  }

  // ---- draws ----

  lemma ReadySetup(l: Ledger, i: nat, v: Crypto)
    requires ValidLedger(l, v) && i < |l.decks| && Ready(l.decks[i])
    ensures var s := l.decks[i].setup;
      && ValidState(s, v) && |s.lockKeys| == |s.definition.participants|
      && s.definition == l.decks[i].commitment.definition
      && s.definition.deckId == IdOf(l.decks[i])
  {
    hide SlotsOk, ActiveOk, CheckedPoints;
    assert DeckOk(l.decks, i, l.genesis, v);
  }

  function RequestAt(l: Ledger, request: DrawPending, anchor: Anchor, epoch: nat, position: nat): DrawRequest {
    DrawRequest(l.genesis, epoch, anchor, position, request.seat, request.slotId, request.shown)
  }

  /** The public game agrees with the ledger on this request, and it can be drawn. */
  predicate Drawable(l: Ledger, state: PublicState, request: DrawPending) {
    var at := DeckIndex(l.decks, request.deck);
    && DecksReady(l.decks) && at.Some? && PublicDeckMatches(l.decks[at.value], state)
    && request.remaining == |l.decks[at.value].commitment.definition.cards| - l.decks[at.value].nextPosition
    && request.deck in state.shown && state.shown[request.deck] == request.shown
    && !AlreadyDealt(state, request.deck, request.slotId)
  }

  /**
   * A draw request is frozen exactly when the public game agrees with it and either it is the one frozen already, or
   * none is, cards are left, one of the deck's players asks for it after the deck's creation, and its slot id is new.
   */
  lemma CaptureIff(l: Ledger, state: PublicState, request: DrawPending, anchor: Anchor, epoch: nat, v: Crypto)
    requires ValidLedger(l, v)
    ensures CaptureDeckPending(l, state, Draw(request), anchor, epoch, v).Ok? <==>
      && Drawable(l, state, request)
      && var deck := l.decks[DeckIndex(l.decks, request.deck).value];
         match l.active
         case Some(op) => SameRequest(op, request)
         case None =>
           && deck.nextPosition < |deck.commitment.definition.cards|
           && (exists p :: p in deck.commitment.definition.participants && p.seat == request.seat)
           && AfterCreation(deck.commitment.definition.creation,
                            RequestAt(l, request, anchor, epoch, deck.nextPosition))
           && request.slotId !in AllIds(l.decks)
  {
    hide FreezeDeckDraw, DeckOk, PublicDeckMatches, AlreadyDealt, AfterCreation, ValidOperation, ValidState;
    if Drawable(l, state, request) {
      var at := DeckIndex(l.decks, request.deck).value;
      var deck := l.decks[at];
      ReadySetup(l, at, v);
      var asked := RequestAt(l, request, anchor, epoch, deck.nextPosition);
      FreezeIff(deck.setup, asked, v);
      var frozen := FreezeDeckDraw(deck.setup, asked, v);
      if frozen.Ok? {
        FrozenShape(deck.setup, asked, v);
      }
    }
  }

  lemma FrozenShape(s: DeckState, request: DrawRequest, v: Crypto)
    requires FreezeDeckDraw(s, request, v).Ok?
    ensures var op := FreezeDeckDraw(s, request, v).value;
      ValidOperation(op) && op.request == request && op.deckId == s.definition.deckId
  {
    hide ValidState, ValidOperation;
  }

  // ---- deals ----

  /** The input of a private deal names the frozen slot; that of a public one the card that everyone decodes. */
  predicate InputFits(deck: LedgerDeck, op: DrawOperation, request: DrawPending, input: Input, receipt: Receipt,
                      signers: seq<Authority>, v: Crypto) {
    if op.request.shown then
      var card := DecodePublicDeckCard(deck.setup, receipt, Some(Keys(signers)), v);
      card.Ok? && input == CardShown(request, card.value.card)
    else input == CardDealt(op.deckId, op.request.seat, op.request.slotId)
  }

  /** Who signs a private deal: under different keys, all certified before the deal. */
  predicate SignersFit(signers: seq<Authority>, deal: Anchor) {
    && (forall i :: 0 <= i < |signers| ==> signers[i].generation.height < deal.height)
    && forall i, j :: 0 <= i < j < |signers| ==> signers[i].publicKey != signers[j].publicKey
  }

  /** Everything a deal must bring along for the frozen draw. */
  predicate DealFits(l: Ledger, op: DrawOperation, state: PublicState, request: DrawPending, input: Input,
                     unlocks: seq<SignedUnlock>, deal: Anchor, signers: seq<Authority>, v: Crypto) {
    var at := DeckIndex(l.decks, op.deckId);
    && at.Some? && PublicDeckMatches(l.decks[at.value], state) && SameRequest(op, request)
    && request.remaining == |l.decks[at.value].commitment.definition.cards| - l.decks[at.value].nextPosition
    && deal.height > op.request.anchor.height && CompleteDraw(op, unlocks, Some(Keys(signers)), v)
    && InputFits(l.decks[at.value], op, request, input,
                 Receipt(op, PrefixPoint(op, unlocks, Some(Keys(signers)), v).value, unlocks), signers, v)
    && (op.request.shown || SignersFit(signers, deal))
  }

  lemma DealtSlotOk(deck: LedgerDeck, op: DrawOperation, receipt: Receipt, deal: Anchor, signers: seq<Authority>,
                    genesis: nat, v: Crypto)
    requires Ready(deck) && ValidOperation(op) && !op.request.shown && op.deckId == IdOf(deck)
      && op.request.genesis == genesis
    requires op.request.position == deck.nextPosition && receipt.operation == op
      && deal.height > op.request.anchor.height
    requires CheckedOperation(deck.setup, op, v) && RosterMatches(Some(Keys(signers)), Unlockers(op))
    ensures var slot := Slot(op.request.slotId, op.request.seat, receipt, deal, signers);
      SlotOk(slot, DealtDeck(deck, op, receipt, deal, signers), genesis, v) <==> SignersFit(signers, deal)
  {
    hide ValidOperation, CheckedOperation, Unlockers;
  }

  /** A dealt slot goes last: it is past every position before it, under a new id. */
  lemma DealtSlotsOk(deck: LedgerDeck, op: DrawOperation, receipt: Receipt, deal: Anchor, signers: seq<Authority>,
                     genesis: nat, earlier: set<nat>, v: Crypto)
    requires SlotsOk(deck, genesis, earlier, v) && Ready(deck) && |deck.slots| < MAX_CARDS
    requires op.request.position == deck.nextPosition && receipt.operation == op
    requires op.request.slotId !in earlier + IdsOf(deck.slots)
    requires SlotOk(Slot(op.request.slotId, op.request.seat, receipt, deal, signers),
                    DealtDeck(deck, op, receipt, deal, signers), genesis, v)
    ensures SlotsOk(DealtDeck(deck, op, receipt, deal, signers), genesis, earlier, v)
  {
    hide ValidOperation, SignersOk, CheckedOperation;
    var next := DealtDeck(deck, op, receipt, deal, signers);
    forall i | 0 <= i < |deck.slots| ensures SlotOk(deck.slots[i], next, genesis, v) {
      assert SlotOk(deck.slots[i], deck, genesis, v);
    }
    assert forall i :: 0 <= i < |deck.slots| ==> deck.slots[i] in deck.slots;
  }

  lemma {:induction false} RisingBelow(slots: seq<Slot>, bound: nat)
    requires forall i, j :: 0 <= i < j < |slots| ==> Position(slots[i]) < Position(slots[j])
    requires forall i :: 0 <= i < |slots| ==> Position(slots[i]) < bound
    ensures |slots| <= bound
  {
    if slots != [] {
      RisingBelow(slots[..|slots| - 1], Position(slots[|slots| - 1]));
    }
  }

  lemma SlotsBelow(deck: LedgerDeck, genesis: nat, earlier: set<nat>, v: Crypto)
    requires SlotsOk(deck, genesis, earlier, v)
    ensures |deck.slots| <= deck.nextPosition
  {
    hide ValidOperation, SignersOk, CheckedOperation;
    RisingBelow(deck.slots, deck.nextPosition);
  }

  lemma DealtCursors(deck: LedgerDeck, op: DrawOperation, receipt: Receipt, deal: Anchor, signers: seq<Authority>,
                     v: Crypto)
    requires CursorsOk(deck, v) && deck.nextPosition < |deck.setup.definition.cards|
    ensures CursorsOk(DealtDeck(deck, op, receipt, deal, signers), v)
  {
    hide ValidState;
  }

  /** The frozen draw of a valid ledger is at a position its deck still has. */
  lemma ActiveDeck(l: Ledger, v: Crypto) returns (at: nat)
    requires ValidLedger(l, v) && l.active.Some?
    ensures DeckIndex(l.decks, l.active.value.deckId) == Some(at) && at < |l.decks|
    ensures var op, deck := l.active.value, l.decks[at];
      && ValidOperation(op) && Ready(deck) && op.request.genesis == l.genesis
      && op.request.position == deck.nextPosition
      && op.request.slotId !in AllIds(l.decks) && CheckedOperation(deck.setup, op, v)
      && deck.nextPosition < |deck.setup.definition.cards| <= MAX_CARDS && op.deckId == IdOf(deck)
      && deck.setup.definition == deck.commitment.definition
  {
    hide DeckOk, ValidOperation, ValidState;
    var op := l.active.value;
    at := DeckIndex(l.decks, op.deckId).value;
    ReadySetup(l, at, v);
    FreezeIff(l.decks[at].setup, op.request, v);
    FewCards(l.decks[at].setup, v);
  }

  lemma FewCards(s: DeckState, v: Crypto)
    requires ValidState(s, v)
    ensures |s.definition.cards| <= MAX_CARDS
  {
  }

  /** Whether a deal leaves a valid ledger depends only on who signed it, and only for a private one. */
  lemma DealtLedger(l: Ledger, receipt: Receipt, deal: Anchor, signers: seq<Authority>, v: Crypto, at: nat)
    requires ValidLedger(l, v) && l.active.Some? && receipt.operation == l.active.value
    requires DeckIndex(l.decks, l.active.value.deckId) == Some(at)
    requires deal.height > l.active.value.request.anchor.height
    requires RosterMatches(Some(Keys(signers)), Unlockers(l.active.value))
    ensures var op := l.active.value;
      var next := l.(decks := l.decks[at := DealtDeck(l.decks[at], op, receipt, deal, signers)], active := None);
      ValidLedger(next, v) <==> op.request.shown || SignersFit(signers, deal)
  {
    hide CursorsOk, SlotsOk, ValidOperation, CheckedOperation, Unlockers, SignersFit, DealtDeck, SlotOk;
    var op, deck := l.active.value, l.decks[at];
    var found := ActiveDeck(l, v);
    var next := DealtDeck(deck, op, receipt, deal, signers);
    var decks := l.decks[at := next];
    NoneActive(l.(decks := decks, active := None), v);
    assert DeckOk(l.decks, at, l.genesis, v);
    DealtCursors(deck, op, receipt, deal, signers, v);
    DealtShape(deck, op, receipt, deal, signers);
    if op.request.shown || SignersFit(signers, deal) {
      DealtDeckOk(l, receipt, deal, signers, v, at);
      forall j | 0 <= j < |decks| ensures DeckOk(decks, j, l.genesis, v) {
        assert DeckOk(l.decks, j, l.genesis, v);
        IdsGrow(l.decks[..j], decks[..j], {op.request.slotId});
        if j < at {
          assert decks[..j] == l.decks[..j];
        } else if j == at {
          assert decks[..j] == l.decks[..j];
        } else {
          LaterDeckOk(l, decks, j, op.request.slotId, v);
        }
      }
    } else if DeckOk(decks, at, l.genesis, v) {
      BadSignersFail(l, receipt, deal, signers, v, at);
    }
  }

  lemma DealtShape(deck: LedgerDeck, op: DrawOperation, receipt: Receipt, deal: Anchor, signers: seq<Authority>)
    ensures var next := DealtDeck(deck, op, receipt, deal, signers);
      && next.commitment == deck.commitment && next.setup == deck.setup
      && IdsOf(next.slots) <= IdsOf(deck.slots) + {op.request.slotId}
  {
  }

  lemma DealtDeckOk(l: Ledger, receipt: Receipt, deal: Anchor, signers: seq<Authority>, v: Crypto, at: nat)
    requires ValidLedger(l, v) && l.active.Some? && receipt.operation == l.active.value
    requires DeckIndex(l.decks, l.active.value.deckId) == Some(at)
    requires deal.height > l.active.value.request.anchor.height
    requires RosterMatches(Some(Keys(signers)), Unlockers(l.active.value))
    requires l.active.value.request.shown || SignersFit(signers, deal)
    ensures SlotsOk(DealtDeck(l.decks[at], l.active.value, receipt, deal, signers), l.genesis, AllIds(l.decks[..at]), v)
  {
    hide CursorsOk, SlotsOk, ValidOperation, CheckedOperation, Unlockers, SignersFit, SlotOk;
    var op, deck := l.active.value, l.decks[at];
    var found := ActiveDeck(l, v);
    assert DeckOk(l.decks, at, l.genesis, v);
    var earlier := AllIds(l.decks[..at]);
    if op.request.shown {
      MorePositions(deck, l.genesis, earlier, v);
    } else {
      SlotsBelow(deck, l.genesis, earlier, v);
      SlotIdsIn(l.decks, at);
      NewId(l.decks, at, op.request.slotId);
      DealtSlotOk(deck, op, receipt, deal, signers, l.genesis, v);
      DealtSlotsOk(deck, op, receipt, deal, signers, l.genesis, earlier, v);
    }
  }

  lemma {:induction false} PrefixIds(decks: seq<LedgerDeck>, n: nat)
    requires n <= |decks|
    ensures AllIds(decks[..n]) <= AllIds(decks)
  {
    if n == |decks| {
      assert decks[..n] == decks;
    } else {
      PrefixIds(decks[..|decks| - 1], n);
      assert decks[..|decks| - 1][..n] == decks[..n];
    }
  }

  lemma NewId(decks: seq<LedgerDeck>, at: nat, id: nat)
    requires at < |decks| && id !in AllIds(decks)
    ensures id !in AllIds(decks[..at]) + IdsOf(decks[at].slots)
  {
    PrefixIds(decks, at);
    SlotIdsIn(decks, at);
  }

  lemma MorePositions(deck: LedgerDeck, genesis: nat, earlier: set<nat>, v: Crypto)
    requires SlotsOk(deck, genesis, earlier, v)
    ensures SlotsOk(deck.(nextPosition := deck.nextPosition + 1), genesis, earlier, v)
  {
    hide ValidOperation, SignersOk, CheckedOperation;
    var next := deck.(nextPosition := deck.nextPosition + 1);
    forall i | 0 <= i < |deck.slots| ensures SlotOk(deck.slots[i], next, genesis, v) {
      assert SlotOk(deck.slots[i], deck, genesis, v);
    }
  }

  lemma LaterDeckOk(l: Ledger, decks: seq<LedgerDeck>, j: nat, id: nat, v: Crypto)
    requires ValidLedger(l, v) && |decks| == |l.decks| && 0 < j < |decks| && decks[j] == l.decks[j]
    requires IdOf(decks[j - 1]) == IdOf(l.decks[j - 1])
    requires id !in AllIds(l.decks) && AllIds(decks[..j]) <= AllIds(l.decks[..j]) + {id}
    ensures DeckOk(decks, j, l.genesis, v)
  {
    hide CursorsOk, SlotsOk;
    assert DeckOk(l.decks, j, l.genesis, v);
    SlotIdsIn(l.decks, j);
    UnusedIds(l.decks[j], l.genesis, AllIds(l.decks[..j]), v);
    EarlierIds(l.decks[j], l.genesis, AllIds(l.decks[..j]), AllIds(decks[..j]), v);
  }

  lemma UnusedIds(deck: LedgerDeck, genesis: nat, earlier: set<nat>, v: Crypto)
    requires SlotsOk(deck, genesis, earlier, v)
    ensures forall s :: s in deck.slots ==> s.slotId !in earlier
  {
    hide SlotOk;
  }

  lemma BadSignersFail(l: Ledger, receipt: Receipt, deal: Anchor, signers: seq<Authority>, v: Crypto, at: nat)
    requires ValidLedger(l, v) && l.active.Some? && receipt.operation == l.active.value
    requires DeckIndex(l.decks, l.active.value.deckId) == Some(at) && deal.height > l.active.value.request.anchor.height
    requires RosterMatches(Some(Keys(signers)), Unlockers(l.active.value)) && !l.active.value.request.shown
    requires SlotsOk(DealtDeck(l.decks[at], l.active.value, receipt, deal, signers), l.genesis, AllIds(l.decks[..at]),
                     v)
    ensures SignersFit(signers, deal)
  {
    hide ValidOperation, CheckedOperation, Unlockers, SignersFit, SlotOk, ValidLedger;
    var op, deck := l.active.value, l.decks[at];
    var found := ActiveDeck(l, v);
    var next := DealtDeck(deck, op, receipt, deal, signers);
    assert SlotOk(next.slots[|deck.slots|], next, l.genesis, v);
    DealtSlotOk(deck, op, receipt, deal, signers, l.genesis, v);
  }

  /**
   * A deal of the frozen draw is accepted exactly when the public game still agrees, it comes after the request, every
   * unlock is there in order, its input names the slot or the card, and for a private one its signers fit.
   */
  lemma DealIff(l: Ledger, state: PublicState, request: DrawPending, input: Input, unlocks: seq<SignedUnlock>,
                deal: Anchor, signers: seq<Authority>, v: Crypto)
    requires ValidLedger(l, v) && l.active.Some?
    ensures CompleteDeckDeal(l, state, Draw(request), input, unlocks, deal, signers, v).Ok?
      <==> DealFits(l, l.active.value, state, request, input, unlocks, deal, signers, v)
  {
    hide DeckOk, ActiveOk, PublicDeckMatches, ValidOperation, DecodePublicDeckCard, SignersFit, PrefixPoint, Unlockers,
      DealtDeck;
    var op := l.active.value;
    var at := ActiveDeck(l, v);
    if CompleteDraw(op, unlocks, Some(Keys(signers)), v) && deal.height > op.request.anchor.height {
      var receipt := Receipt(op, PrefixPoint(op, unlocks, Some(Keys(signers)), v).value, unlocks);
      DealtLedger(l, receipt, deal, signers, v, at);
    }
  }

  // ---- reveals ----

  lemma {:induction false} KeepingRises(slots: seq<Slot>, removed: set<nat>)
    requires forall i, j :: 0 <= i < j < |slots| ==>
      Position(slots[i]) < Position(slots[j]) && slots[i].slotId != slots[j].slotId
    ensures var r := Keeping(slots, removed);
      && |r| <= |slots| && (forall s :: s in r ==> s in slots && s.slotId !in removed)
      && forall i, j :: 0 <= i < j < |r| ==> Position(r[i]) < Position(r[j]) && r[i].slotId != r[j].slotId
  {
    hide Position;
    if slots != [] {
      var front, last := slots[..|slots| - 1], slots[|slots| - 1];
      KeepingRises(front, removed);
      var kept := Keeping(front, removed);
      forall i | 0 <= i < |kept| ensures Position(kept[i]) < Position(last) && kept[i].slotId != last.slotId {
        assert kept[i] in front;
        var k :| 0 <= k < |front| && front[k] == kept[i];
        assert slots[k] == kept[i];
      }
    }
  }

  lemma KeptDeck(deck: LedgerDeck, genesis: nat, earlier: set<nat>, removed: set<nat>, v: Crypto)
    requires SlotsOk(deck, genesis, earlier, v)
    ensures var next := deck.(slots := Keeping(deck.slots, removed));
      SlotsOk(next, genesis, earlier, v) && IdsOf(next.slots) <= IdsOf(deck.slots)
  {
    hide ValidOperation, SignersOk, CheckedOperation, Keeping;
    KeepingRises(deck.slots, removed);
    var next := deck.(slots := Keeping(deck.slots, removed));
    forall i | 0 <= i < |next.slots|
      ensures SlotOk(next.slots[i], next, genesis, v) && next.slots[i].slotId !in earlier
    {
      assert next.slots[i] in deck.slots;
      var k :| 0 <= k < |deck.slots| && deck.slots[k] == next.slots[i];
      assert SlotOk(deck.slots[k], deck, genesis, v);
    }
  }

  lemma SameCursors(deck: LedgerDeck, slots: seq<Slot>, v: Crypto)
    ensures CursorsOk(deck.(slots := slots), v) <==> CursorsOk(deck, v)
  {
    hide ValidState;
  }

  lemma {:induction false} SameIndex(a: seq<LedgerDeck>, b: seq<LedgerDeck>, id: nat)
    requires |a| == |b| && forall i :: 0 <= i < |a| ==> IdOf(a[i]) == IdOf(b[i])
    ensures DeckIndex(a, id) == DeckIndex(b, id)
  {
    if a != [] {
      SameIndex(a[..|a| - 1], b[..|b| - 1], id);
    }
  }

  lemma KeptLedger(l: Ledger, removed: set<nat>, v: Crypto)
    requires ValidLedger(l, v)
    ensures ValidLedger(l.(decks := KeepingAll(l.decks, removed)), v)
  {
    hide CursorsOk, SlotsOk, CheckedOperation, ValidOperation, Keeping;
    var decks := KeepingAll(l.decks, removed);
    forall i | 0 <= i < |decks| ensures IdsOf(decks[i].slots) <= IdsOf(l.decks[i].slots) {
      assert DeckOk(l.decks, i, l.genesis, v);
      KeptDeck(l.decks[i], l.genesis, AllIds(l.decks[..i]), removed, v);
    }
    forall j | 0 <= j < |decks| ensures DeckOk(decks, j, l.genesis, v) {
      assert DeckOk(l.decks, j, l.genesis, v);
      SameCursors(l.decks[j], decks[j].slots, v);
      IdsGrow(l.decks[..j], decks[..j], {});
      KeptDeck(l.decks[j], l.genesis, AllIds(l.decks[..j]), removed, v);
      UnusedIds(decks[j], l.genesis, AllIds(l.decks[..j]), v);
      EarlierIds(decks[j], l.genesis, AllIds(l.decks[..j]), AllIds(decks[..j]), v);
    }
    if l.active.Some? {
      SameIndex(l.decks, decks, l.active.value.deckId);
      IdsGrow(l.decks, decks, {});
    }
  }

  /** Reveals are accepted exactly when each item shows what it names, one for each, and no slot twice. */
  lemma RevealIff(l: Ledger, state: PublicState, context: RevealContext, wants: seq<Wanted>, evidence: seq<Proved>,
                  v: Crypto)
    requires ValidLedger(l, v)
    ensures Revealed(l, state, context, wants, evidence, v).Ok? <==>
      wants == [] || (RevealsFit(context, l, wants, evidence) && AllShow(l, state, context, wants, evidence, v))
  {
    hide DeckOk, ActiveOk, Shows;
    KeptLedger(l, SlotIds(evidence), v);
  }

  // ---- what hidden slots hold ----

  /** A slot's receipt has every unlock of its draw, signed by the slot's signers, and the point they leave. */
  predicate Unlocked(slot: Slot, v: Crypto) {
    && CompleteDraw(slot.receipt.operation, slot.receipt.unlocks, Some(Keys(slot.unlockSigners)), v)
    && PrefixPoint(slot.receipt.operation, slot.receipt.unlocks, Some(Keys(slot.unlockSigners)), v)
         == Some(slot.receipt.point)
  }

  predicate AllUnlocked(l: Ledger, v: Crypto) {
    forall i, slot :: 0 <= i < |l.decks| && slot in l.decks[i].slots ==> Unlocked(slot, v)
  }

  lemma DealUnlocks(l: Ledger, state: PublicState, pending: Pending, input: Input, unlocks: seq<SignedUnlock>,
                    deal: Anchor, signers: seq<Authority>, v: Crypto)
    requires AllUnlocked(l, v) && CompleteDeckDeal(l, state, pending, input, unlocks, deal, signers, v).Ok?
    ensures AllUnlocked(CompleteDeckDeal(l, state, pending, input, unlocks, deal, signers, v).value, v)
  {
    hide ValidLedger, CheckInput, PublicDeckMatches, PrefixPoint, CompleteDraw, Unlocked;
    var op := l.active.value;
    var at := DeckIndex(l.decks, op.deckId).value;
    var receipt := CompleteDeckDraw(op, unlocks, signers, v).value;
    var next := CompleteDeckDeal(l, state, pending, input, unlocks, deal, signers, v).value;
    NewUnlocked(op, unlocks, deal, signers, v);
    forall i, slot | 0 <= i < |next.decks| && slot in next.decks[i].slots ensures Unlocked(slot, v) {
      if i == at {
        assert next.decks[i] == DealtDeck(l.decks[i], op, receipt, deal, signers);
      }
    }
  }

  lemma NewUnlocked(op: DrawOperation, unlocks: seq<SignedUnlock>, deal: Anchor, signers: seq<Authority>, v: Crypto)
    requires CompleteDeckDraw(op, unlocks, signers, v).Ok?
    ensures var receipt := CompleteDeckDraw(op, unlocks, signers, v).value;
      Unlocked(Slot(op.request.slotId, op.request.seat, receipt, deal, signers), v)
  {
  }

  lemma ShowUnlocks(l: Ledger, removed: set<nat>, v: Crypto)
    requires AllUnlocked(l, v)
    ensures AllUnlocked(l.(decks := KeepingAll(l.decks, removed)), v)
  {
    hide Unlocked, Keeping;
    forall i, slot | 0 <= i < |l.decks| && slot in Keeping(l.decks[i].slots, removed) ensures slot in l.decks[i].slots {
      KeptSlot(l.decks[i].slots, removed, slot);
    }
  }

  lemma StepUnlocks(l: Ledger, entry: Entry, v: Crypto)
    requires AllUnlocked(l, v)
    ensures AllUnlocked(Stepped(l, entry, v), v)
  {
    hide Unlocked, ValidLedger, ApplyDeckPass, FreezeDeckDraw, CompleteDeckDeal, PublicDeckMatches, AlreadyDealt,
      AllShow, RevealsFit;
    match entry
    case Deal(state, pending, input, unlocks, deal, signers) =>
      if CompleteDeckDeal(l, state, pending, input, unlocks, deal, signers, v).Ok? {
        DealUnlocks(l, state, pending, input, unlocks, deal, signers, v);
      }
    case Show(state, context, wants, evidence) => ShowUnlocks(l, SlotIds(evidence), v);
    case _ =>
  }

  lemma {:induction false} RunUnlocks(start: Ledger, entries: seq<Entry>, v: Crypto)
    requires Opened(start, v)
    ensures AllUnlocked(After(start, entries, v), v)
  {
    hide Unlocked, Stepped, ValidLedger;
    if entries != [] {
      RunUnlocks(start, entries[..|entries| - 1], v);
      StepUnlocks(After(start, entries[..|entries| - 1], v), entries[|entries| - 1], v);
    }
  }

  /**
   * In every run, the owner of a hidden slot can show it with its own lock: what it then names is accepted, in any
   * later context in which the public game still has the slot as its own.
   */
  lemma HonestShow(start: Ledger, entries: seq<Entry>, state: PublicState, context: RevealContext, i: nat, slot: Slot,
                   lock: int, owner: DrawParticipant, provers: Provers, v: Crypto)
    returns (wanted: Wanted, proved: Proved)
    requires Sound(v) && Complete(provers, v) && Opened(start, v)
    requires var l := After(start, entries, v); i < |l.decks| && slot in l.decks[i].slots
    requires owner in slot.receipt.operation.participants && owner.seat == slot.seat
    requires SecretScalar(lock) && ScalePoint(1, lock) == owner.lockKey
    requires context.genesis == After(start, entries, v).genesis
      && context.epoch >= slot.receipt.operation.request.epoch
    requires OwnedHidden(After(start, entries, v).decks[i], slot, state, context, slot.seat)
    ensures var l := After(start, entries, v);
      && wanted.slotId == proved.slotId == slot.slotId && wanted.seat == slot.seat && wanted.deck == IdOf(l.decks[i])
      && Revealed(l, state, context, [wanted], [proved], v).Ok?
  {
    hide Sound, Complete, Holds, ValidLedger, VerifyDeckReveal, VerifiedReceipt, InitDeckSetup, FacesKept, DealsKept,
      Replayed, OwnedHidden, ScalePoint, After, Unlocked;
    var l, hs := After(start, entries, v), HistoriesAfter(start, entries, v);
    EveryRunIsKept(start, entries, v);
    RunUnlocks(start, entries, v);
    var deck := l.decks[i];
    assert DeckKept(deck, hs[i], v);
    SlotFacts(l, i, slot, v);
    SlotVerified(l, i, slot, v);
    OwnedFacts(deck, slot, state, context);
    var d := deck.commitment.definition;
    var sigma := TranscriptHolds(d, deck.commitment.passes[..deck.nextPass], v);
    var proof := HonestReveal(deck.setup, sigma, slot.receipt, lock, owner, context, Some(Keys(slot.unlockSigners)),
                              provers, v);
    var card := d.cards[sigma[Position(slot)]];
    wanted := Wanted(slot.seat, IdOf(deck), slot.slotId, card.card);
    proved := Proved(slot.slotId, card.identity, proof);
    HeldHere(l, i, slot.slotId, v);
    RevealIff(l, state, context, [wanted], [proved], v);
  }

  lemma SlotVerified(l: Ledger, i: nat, slot: Slot, v: Crypto)
    requires ValidLedger(l, v) && i < |l.decks| && slot in l.decks[i].slots && Unlocked(slot, v)
    ensures VerifiedReceipt(l.decks[i].setup, slot.receipt, Some(Keys(slot.unlockSigners)), v)
  {
    hide ActiveOk, ValidOperation, SignersOk, PrefixPoint, CompleteDraw, FreezeDeckDraw;
    assert DeckOk(l.decks, i, l.genesis, v);
    var slots := l.decks[i].slots;
    var k :| 0 <= k < |slots| && slots[k] == slot;
    assert SlotOk(slots[k], l.decks[i], l.genesis, v);
  }

  lemma OwnedFacts(deck: LedgerDeck, slot: Slot, state: PublicState, context: RevealContext)
    requires OwnedHidden(deck, slot, state, context, slot.seat)
    ensures context.seat == slot.seat && context.anchor.height >= slot.deal.height
  {
  }

  lemma SlotFacts(l: Ledger, i: nat, slot: Slot, v: Crypto)
    requires ValidLedger(l, v) && i < |l.decks| && slot in l.decks[i].slots
    ensures var request := slot.receipt.operation.request;
      && !request.shown && request.genesis == l.genesis && request.seat == slot.seat
      && slot.deal.height > request.anchor.height
    ensures FindSlot(l.decks[i].slots, slot.slotId) == Some(slot)
    ensures l.decks[i].setup.definition == l.decks[i].commitment.definition
  {
    hide ActiveOk, ValidOperation, SignersOk, CheckedOperation, ValidState;
    assert DeckOk(l.decks, i, l.genesis, v);
    var slots := l.decks[i].slots;
    var k :| 0 <= k < |slots| && slots[k] == slot;
    assert SlotOk(slots[k], l.decks[i], l.genesis, v);
    var found := FindSlot(slots, slot.slotId).value;
    var m :| 0 <= m < |slots| && slots[m] == found;
  }

  // ---- what the public game must say ----

  /** A draw is only frozen, or dealt, where the public deck has used exactly the positions that the ledger has. */
  lemma CaptureAgrees(l: Ledger, state: PublicState, request: DrawPending, anchor: Anchor, epoch: nat, v: Crypto)
    requires ValidLedger(l, v) && CaptureDeckPending(l, state, Draw(request), anchor, epoch, v).Ok?
    ensures request.deck in state.decks && DeckIndex(l.decks, request.deck).Some?
    ensures var deck, shared := l.decks[DeckIndex(l.decks, request.deck).value], state.decks[request.deck];
      && |shared.drawn| == deck.nextPosition
      && shared.remaining == request.remaining == |deck.commitment.definition.cards| - deck.nextPosition
      && (forall i :: 0 <= i < |shared.drawn| ==> shared.drawn[i].slotId != request.slotId)
      && (forall i, j :: 0 <= i < j < |shared.drawn| ==> shared.drawn[i].slotId != shared.drawn[j].slotId)
      && request.deck in state.shown && state.shown[request.deck] == request.shown
  {
    hide ValidLedger, DecksReady, FreezeDeckDraw;
    var shared := state.decks[request.deck];
    assert forall i :: 0 <= i < |shared.drawn| ==> shared.drawn[i] in shared.drawn;
  }

  /**
   * Whatever a command shows was, until then, the signer's own card and hidden in the public game, where it was dealt.
   */
  lemma ShownWasHidden(l: Ledger, state: PublicState, context: RevealContext, wants: seq<Wanted>, evidence: seq<Proved>,
                       k: nat, v: Crypto)
    returns (p: PublicSlot, position: nat)
    requires Revealed(l, state, context, wants, evidence, v).Ok? && k < |wants|
    ensures context.seat == wants[k].seat && context.seat in state.cardSlots && p in state.cardSlots[context.seat]
    ensures p.slotId == wants[k].slotId && p.deck == wants[k].deck && !p.revealed && !p.known
    ensures wants[k].deck in state.decks && position < |state.decks[wants[k].deck].drawn|
    ensures state.decks[wants[k].deck].drawn[position] == Drawn(wants[k].slotId, context.seat)
  {
    hide ValidLedger, VerifyDeckReveal;
    assert Shows(l, state, context, wants[k], evidence[k], v);
    var deck := l.decks[HeldAt(l.decks, evidence[k].slotId).value];
    var slot := FindSlot(deck.slots, evidence[k].slotId).value;
    position := Position(slot);
    p := Find((p: PublicSlot) => p.slotId == slot.slotId, state.cardSlots[context.seat]).value;
  }
}
