/** Denials: a proof about a drawn card that stays face down (packages/protocol/src/deck-draw.ts). */
module DeckDenial {
  import opened Results
  import opened Group
  import opened DeckSetup
  import opened DeckConservation
  import opened DeckDraw
  import opened DeckReveal
  import DleqOr

  /** The hash a denial uses: its statement, first messages and whole context. */
  type DenialHash = (seq<DleqOr.Branch>, seq<DleqOr.Announcement>, DrawOperation, seq<nat>, RevealContext) -> int

  function Candidates(cards: seq<Card>, excluded: seq<nat>): (r: seq<Card>)
    ensures forall c :: c in r <==> c in cards && c.card !in excluded
  {
    Select((c: Card) => c.card !in excluded, cards)
  }

  function DenialBranch(d: Definition, v: Crypto, card: Card, holder: Holder): DleqOr.Branch {
    DleqOr.Branch(v.cardPoint(d, card.identity), holder.point, 1, holder.lockKey)
  }

  function DenialBranches(d: Definition, v: Crypto, candidates: seq<Card>, holder: Holder): (r: seq<DleqOr.Branch>)
    ensures |r| == |candidates| && forall i :: 0 <= i < |r| ==> r[i] == DenialBranch(d, v, candidates[i], holder)
  {
    seq(|candidates|, i requires 0 <= i < |candidates| => DenialBranch(d, v, candidates[i], holder))
  }

  predicate DenialReady(s: DeckState, receipt: Receipt, excluded: seq<nat>, context: RevealContext,
                        signers: Option<seq<Signer>>,
                        held: Option<Holder>, v: Crypto) {
    && VerifiedReceipt(s, receipt, signers, v)
    && HolderOf(receipt, held).Some?
    && ContextFits(receipt.operation, HolderOf(receipt, held).value, context)
    && 1 <= |Candidates(s.definition.cards, excluded)| <= DleqOr.MAX_BRANCHES
  }

  function DenialStatement(s: DeckState, receipt: Receipt, excluded: seq<nat>, held: Option<Holder>,
                           v: Crypto): seq<DleqOr.Branch>
    requires HolderOf(receipt, held).Some?
  {
    DenialBranches(s.definition, v, Candidates(s.definition.cards, excluded), HolderOf(receipt, held).value)
  }

  function BoundHash(hash: DenialHash, op: DrawOperation, excluded: seq<nat>, context: RevealContext): DleqOr.Hash {
    (branches, announcements) => hash(branches, announcements, op, excluded, context)
  }

  predicate VerifyDeckDenial(s: DeckState, receipt: Receipt, proof: seq<DleqOr.BranchProof>, excluded: seq<nat>,
                             context: RevealContext,
                             signers: Option<seq<Signer>>, held: Option<Holder>, v: Crypto, hash: DenialHash) {
    && DenialReady(s, receipt, excluded, context, signers, held, v)
    && DleqOr.Verifies(DenialStatement(s, receipt, excluded, held, v), proof,
                       BoundHash(hash, receipt.operation, excluded, context))
  }

  /** Two accepted denials with equal first messages and different totals. */
  predicate Rewound(s: DeckState, receipt: Receipt, a: seq<DleqOr.BranchProof>, b: seq<DleqOr.BranchProof>,
                    excluded: seq<nat>,
                    context: RevealContext, signers: Option<seq<Signer>>, held: Option<Holder>, v: Crypto,
                      hash: DenialHash, other: DenialHash) {
    && VerifyDeckDenial(s, receipt, a, excluded, context, signers, held, v, hash)
    && VerifyDeckDenial(s, receipt, b, excluded, context, signers, held, v, other)
    && var st := DenialStatement(s, receipt, excluded, held, v);
       && DleqOr.Announcements(st, a, |st|) == DleqOr.Announcements(st, b, |st|)
       && DleqOr.ChallengeSum(a) != DleqOr.ChallengeSum(b)
  }

  /** A secret opening one candidate's branch is the holder's lock, and its card is that candidate. */
  lemma OpenedBranchDecodes(s: DeckState, card: Card, holder: Holder, secret: int, lock: int, v: Crypto)
    requires InitDeckSetup(s.definition, v).Ok? && card in s.definition.cards
    requires DleqOr.Opens(DenialBranch(s.definition, v, card, holder), secret)
    requires InvertScalar(lock).Ok? && ScalePoint(1, lock) == holder.lockKey
    ensures DecodePoint(s, ScalePoint(holder.point, InvertScalar(lock).value), v) == Ok(card)
  {
    hide ModScalar, InvertScalar, DecodePoint, InitDeckSetup;
    BaseTimes(secret);
    BaseTimes(lock);
    var base := v.cardPoint(s.definition, card.identity);
    assert base * lock == lock * base;
    OpensLock(holder.point, lock, holder.lockKey, base);
    var i :| 0 <= i < |s.definition.cards| && s.definition.cards[i] == card;
    DecodedCard(s, ScalePoint(holder.point, InvertScalar(lock).value), v, i);
  }

  /**
   * A denial is true: when it can be rewound, whatever the holder's lock opens is a card that is
   * not excluded.
   */
  lemma DenialIsTrue(s: DeckState, receipt: Receipt, a: seq<DleqOr.BranchProof>, b: seq<DleqOr.BranchProof>,
                     excluded: seq<nat>,
                     context: RevealContext, signers: Option<seq<Signer>>, held: Option<Holder>, v: Crypto,
                       hash: DenialHash, other: DenialHash,
                     lock: int)
    requires InitDeckSetup(s.definition, v).Ok?
      && Rewound(s, receipt, a, b, excluded, context, signers, held, v, hash, other)
    requires 0 < lock < SCALAR_ORDER && ScalePoint(1, lock) == HolderOf(receipt, held).value.lockKey
    ensures DecodeDeckCard(s, receipt, lock, signers, held, v).Ok?
    ensures DecodeDeckCard(s, receipt, lock, signers, held, v).value.card !in excluded
  {
    hide VerifiedReceipt, DecodePoint, InitDeckSetup, ScalePoint, ModScalar, DleqOr.Opens, ContextFits;
    var st := DenialStatement(s, receipt, excluded, held, v);
    var k, secret := DleqOr.OrExtracts(st, a, BoundHash(hash, receipt.operation, excluded, context),
                                       b, BoundHash(other, receipt.operation, excluded, context));
    var candidates := Candidates(s.definition.cards, excluded);
    assert candidates[k] in candidates;
    OpenedBranchDecodes(s, candidates[k], HolderOf(receipt, held).value, secret, lock, v);
  }

  /** Conversely, a holder whose lock opens a card that is not excluded can always prove the denial. */
  lemma TrueDenialOpens(s: DeckState, receipt: Receipt, excluded: seq<nat>, context: RevealContext,
                        signers: Option<seq<Signer>>,
                        held: Option<Holder>, v: Crypto, lock: int) returns (k: nat)
    requires DenialReady(s, receipt, excluded, context, signers, held, v) && InitDeckSetup(s.definition, v).Ok?
    requires DecodeDeckCard(s, receipt, lock, signers, held, v).Ok? && Canonical(HolderOf(receipt, held).value.point)
    requires DecodeDeckCard(s, receipt, lock, signers, held, v).value.card !in excluded
    ensures var st := DenialStatement(s, receipt, excluded, held, v); k < |st| && DleqOr.Opens(st[k], lock)
  {
    hide VerifiedReceipt, InitDeckSetup, ScalePoint, ModScalar, ContextFits, InvertScalar;
    var card, holder := DecodeDeckCard(s, receipt, lock, signers, held, v).value, HolderOf(receipt, held).value;
    var candidates := Candidates(s.definition.cards, excluded);
    assert card in candidates;
    k :| 0 <= k < |candidates| && candidates[k] == card;
    OpensBack(holder.point, lock, InvertScalar(lock).value);
  }

  /**
   * The holder of a card that is not excluded can deny in any later context of the game: it knows a branch of the
   * statement, and any proof of the statement that verifies is accepted as its denial.
   */
  lemma HonestDenial(s: DeckState, receipt: Receipt, excluded: seq<nat>, context: RevealContext,
                     signers: Option<seq<Signer>>, v: Crypto, lock: int, hash: DenialHash)
    returns (k: nat)
    requires InitDeckSetup(s.definition, v).Ok? && DecodeDeckCard(s, receipt, lock, signers, None, v).Ok?
    requires DecodeDeckCard(s, receipt, lock, signers, None, v).value.card !in excluded
    requires DealtHolder(receipt).Some? && Canonical(receipt.point)
    requires context.genesis == receipt.operation.request.genesis && context.seat == receipt.operation.request.seat
      && context.epoch >= receipt.operation.request.epoch
      && context.anchor.height > receipt.operation.request.anchor.height
    requires |Candidates(s.definition.cards, excluded)| <= DleqOr.MAX_BRANCHES
    ensures var st := DenialStatement(s, receipt, excluded, None, v);
      && k < |st| && DleqOr.Opens(st[k], lock)
      && forall proof :: DleqOr.Verifies(st, proof, BoundHash(hash, receipt.operation, excluded, context)) ==>
           VerifyDeckDenial(s, receipt, proof, excluded, context, signers, None, v, hash)
  {
    hide VerifiedReceipt, InitDeckSetup, DleqOr.Verifies, DleqOr.Opens, InvertScalar;
    var card := DecodeDeckCard(s, receipt, lock, signers, None, v).value;
    assert card in Candidates(s.definition.cards, excluded);
    k := TrueDenialOpens(s, receipt, excluded, context, signers, None, v, lock);
  }

  /** A denial is by the holder itself, in the same game and after the draw. */
  lemma DenialIsLater(s: DeckState, receipt: Receipt, proof: seq<DleqOr.BranchProof>, excluded: seq<nat>,
                      context: RevealContext, signers: Option<seq<Signer>>, v: Crypto, hash: DenialHash)
    requires VerifyDeckDenial(s, receipt, proof, excluded, context, signers, None, v, hash)
    ensures var request := receipt.operation.request;
      && context.genesis == request.genesis && context.seat == request.seat && context.epoch >= request.epoch
      && context.anchor.height > request.anchor.height
  {
    hide VerifiedReceipt, DleqOr.Verifies;
  }
}
