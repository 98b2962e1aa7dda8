/** An owner shows a hidden card by proving its own lock against it (packages/protocol/src/deck-draw.ts). */
module DeckReveal {
  import opened Results
  import opened Group
  import opened DeckSetup
  import opened DeckConservation
  import opened DeckDraw

  function HolderOf(receipt: Receipt, held: Option<Holder>): Option<Holder> {
    if held.Some? then held else DealtHolder(receipt)
  }

  /** A reveal or denial belongs to the holder and to a later certified context of the same game. */
  predicate ContextFits(op: DrawOperation, holder: Holder, context: RevealContext) {
    && context.genesis == op.request.genesis && context.seat == holder.seat
    && context.epoch >= op.request.epoch && context.anchor.height > op.request.anchor.height
  }

  function RevealStatement(d: Definition, identity: nat, holder: Holder, v: Crypto): DleqStatement {
    DleqStatement(v.cardPoint(d, identity), holder.point, 1, holder.lockKey)
  }

  function FindIdentity(cards: seq<Card>, identity: nat): (r: Option<Card>)
    ensures r.Some? ==> r.value in cards && r.value.identity == identity
    ensures r.None? ==> forall c :: c in cards ==> c.identity != identity
  {
    Find((c: Card) => c.identity == identity, cards)
  }

  function VerifyDeckReveal(s: DeckState, receipt: Receipt, identity: nat, proof: Proof, context: RevealContext,
                            signers: Option<seq<Signer>>, held: Option<Holder>, v: Crypto): (r: Result<Card>)
    ensures r.Ok? ==> r.value in s.definition.cards && r.value.identity == identity
    ensures r.Ok? ==> VerifiedReceipt(s, receipt, signers, v)
  {
    if !VerifiedReceipt(s, receipt, signers, v) || HolderOf(receipt, held).None? then Err("deck-reveal-context")
    else
      var holder := HolderOf(receipt, held).value;
      if !ContextFits(receipt.operation, holder, context) then Err("deck-reveal-context")
      else
        match FindIdentity(s.definition.cards, identity)
        case None => Err("deck-reveal-context")
        case Some(card) =>
          if v.dleq(RevealStatement(s.definition, identity, holder, v), proof,
                    ShowContext(receipt.operation, identity, context))
          then Ok(card)
          else Err("deck-reveal-proof")
  }

  lemma SameKeyAround(point: int, shown: int, dealt: int, lockKey: int)
    requires DleqRelation(DleqStatement(shown, point, 1, lockKey)) && Same(point, lockKey * dealt) && !Same(lockKey, 0)
    ensures Same(shown, dealt)
  {
    hide Same, ScalePoint;
    var e :| point == ScalePoint(shown, e) && lockKey == ScalePoint(1, e);
    assert 1 * e == e;
    MulSame(lockKey, e, shown, shown);
    assert shown * e == e * shown;
    SameChain(point, shown * e, e * shown, lockKey * shown);
    MulChain2(point, lockKey * shown, lockKey * dealt);
    CancelFactor(lockKey, shown, dealt);
  }

  /** A drawer can show only the card the deck holds at its position. */
  lemma RevealIsDealt(s: DeckState, sigma: seq<int>, receipt: Receipt, identity: nat, proof: Proof,
                      context: RevealContext,
                      signers: Option<seq<Signer>>, v: Crypto)
    requires Sound(v) && Holds(s, sigma, v) && InitDeckSetup(s.definition, v).Ok? && !receipt.operation.request.shown
    requires VerifyDeckReveal(s, receipt, identity, proof, context, signers, None, v).Ok?
    ensures var position := receipt.operation.request.position;
      && position < |sigma| && 0 <= sigma[position] < |s.definition.cards|
      && VerifyDeckReveal(s, receipt, identity, proof, context, signers, None, v)
           == Ok(s.definition.cards[sigma[position]])
  {
    hide Same, Holds, VerifiedReceipt, InitDeckSetup, ContextFits, DleqRelation;
    ReceiptIsFrozen(s, sigma, receipt, signers, v);
    var owner :| owner in receipt.operation.participants && owner.seat == receipt.operation.request.seat;
    DealtHolderIsOwner(receipt, owner);
    DealtPoint(s, sigma, receipt, signers, owner, v);
    var d, i := s.definition, sigma[receipt.operation.request.position];
    IdentityOnly(owner.lockKey);
    SameKeyAround(receipt.point, v.cardPoint(d, identity), v.cardPoint(d, d.cards[i].identity), owner.lockKey);
    var card := FindIdentity(d.cards, identity).value;
    var k :| 0 <= k < |d.cards| && d.cards[k] == card;
    CardIsCanonical(d, v, k);
    CardIsCanonical(d, v, i);
    CanonicalSame(v.cardPoint(d, identity), v.cardPoint(d, d.cards[i].identity));
  }
}
