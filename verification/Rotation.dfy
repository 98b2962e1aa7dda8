/** Who proposes when (proposerFor, packages/protocol/src/proposal.ts). */
module Rotation {
  import opened Results
  import opened Votes
  import opened Proposals

  lemma Distribute(q: int, o: int, n: int)
    ensures (q - o) * n == q * n - o * n
  {
  }

  lemma AtLeastOnce(k: int, n: int)
    requires k >= 1 && n >= 0
    ensures k * n >= n
  {
    Distribute(k, 1, n);
  }

  /** Division leaves one quotient and one remainder. */
  lemma OneRemainder(x: int, q: int, r: int, n: int)
    requires 0 <= r < n && x == q * n + r
    ensures x % n == r
  {
    var o, m := x / n, x % n;
    assert x == o * n + m;
    if q > o {
      AtLeastOnce(q - o, n);
      Distribute(q, o, n);
    } else if q < o {
      AtLeastOnce(o - q, n);
      Distribute(o, q, n);
    }
  }

  lemma SumModulo(a: nat, b: nat, n: nat)
    requires n > 0
    ensures (a % n + b % n) % n == (a + b) % n
  {
    var c := a % n + b % n;
    assert a == a / n * n + a % n && b == b / n * n + b % n && c == c / n * n + c % n;
    assert a + b == (a / n + b / n + c / n) * n + c % n;
    OneRemainder(a + b, a / n + b / n + c / n, c % n, n);
  }

  /** The eligible voters take turns: height and round together count how far the turn has come. */
  lemma ProposerIs(ctx: Context, height: nat, round: nat)
    requires ctx.Eligible() != [] && height >= 1 && round >= 1
    ensures ProposerFor(height, round, ctx) == Some(ctx.Eligible()[(height + round - 2) % |ctx.Eligible()|])
  {
    SumModulo(height - 1, round - 1, |ctx.Eligible()|);
  }

  /** From any round on, each eligible voter proposes within as many rounds as there are eligible voters. */
  lemma EveryVoterProposes(ctx: Context, height: nat, round: nat, seat: Seat) returns (k: nat)
    requires height >= 1 && round >= 1 && seat in ctx.voters && seat !in ctx.excluded
    ensures k < |ctx.Eligible()| && ProposerFor(height, round + k, ctx) == Some(seat)
  {
    var eligible := ctx.Eligible();
    assert seat in eligible;
    var i :| 0 <= i < |eligible| && eligible[i] == seat;
    var n := |eligible|;
    var start := (height + round - 2) % n;
    k := if i >= start then i - start else i + n - start;
    ProposerIs(ctx, height, round + k);
    SumModulo(height + round - 2, k, n);
    OneRemainder(k, 0, k, n);
    OneRemainder(start + k, if i >= start then 0 else 1, i, n);
  }

  /** Only the elected proposer of a round can make a valid proposal in it, and it is never an excluded voter. */
  lemma OnlyProposer(ctx: Context, p: Proposal)
    requires OrderedSeats(ctx.voters) && ValidProposal(p, ctx)
    ensures p.entry.height == ctx.height && p.entry.term >= 1 && ctx.Eligible() != []
    ensures p.entry.sequencer == ctx.Eligible()[(ctx.height + p.entry.term - 2) % |ctx.Eligible()|]
    ensures p.entry.sequencer in ctx.voters && p.entry.sequencer !in ctx.excluded
  {
    ProposerIs(ctx, p.entry.height, p.entry.term);
  }
}
