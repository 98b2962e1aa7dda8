/** One-way chains (packages/crypto/src/hash-chain.ts). */
module HashChain {
  import opened Results

  /** Thirty-two bytes, when they are a link. */
  type Link = seq<bv8>

  type LinkHash = Link -> Link

  const SEED_BYTES := 32
  const MAX_LENGTH := 65_536

  predicate IsLink(value: Link) {
    |value| == SEED_BYTES
  }

  ghost predicate HashesLinks(hash: LinkHash) {
    forall value :: IsLink(hash(value))
  }

  /** `times` applications of the hash. */
  function HashTimes(hash: LinkHash, value: Link, times: nat): Link
    decreases times
  {
    if times == 0 then value else HashTimes(hash, hash(value), times - 1)
  }

  lemma {:induction false} HashTimesMore(hash: LinkHash, value: Link, times: nat)
    ensures HashTimes(hash, value, times + 1) == hash(HashTimes(hash, value, times))
    decreases times
  {
    if times > 0 {
      HashTimesMore(hash, hash(value), times - 1);
    }
  }

  /** The chain from its tip to its seed: index zero is the tip, index `length` the seed. */
  predicate IsChain(chain: seq<Link>, seed: Link, length: nat, hash: LinkHash) {
    && |chain| == length + 1
    && forall i :: 0 <= i <= length ==> chain[i] == HashTimes(hash, seed, length - i)
  }

  /** Hashes from the seed, appends every link, and reverses the list. */
  method CreateHashChain(seed: Link, length: nat, hash: LinkHash) returns (r: Result<seq<Link>>)
    ensures r.Ok? <==> IsLink(seed) && 1 <= length <= MAX_LENGTH
    ensures r.Ok? ==> IsChain(r.value, seed, length, hash)
  {
    if !IsLink(seed) || !(1 <= length <= MAX_LENGTH) {
      return Err("range");
    }
    var link := seed;
    var forward := [link];
    for index := 0 to length
      invariant |forward| == index + 1 && link == HashTimes(hash, seed, index)
      invariant forall i :: 0 <= i <= index ==> forward[i] == HashTimes(hash, seed, i)
    {
      HashTimesMore(hash, seed, index);
      link := hash(link);
      forward := forward + [link];
    }
    var chain: seq<Link> := [];
    for index := 0 to length + 1
      invariant |chain| == index
      invariant forall i :: 0 <= i < index ==> chain[i] == forward[length - i]
    {
      chain := chain + [forward[length - index]];
    }
    return Ok(chain);
  }

  /** Every link hashes to the one before it, and back to the tip in as many steps as its index. */
  lemma {:induction false} ChainLinks(chain: seq<Link>, seed: Link, length: nat, hash: LinkHash, index: nat)
    requires IsChain(chain, seed, length, hash) && index <= length
    ensures index < length ==> hash(chain[index + 1]) == chain[index]
    ensures HashTimes(hash, chain[index], index) == chain[0]
  {
    if index < length {
      HashTimesMore(hash, seed, length - index - 1);
    }
    HashTimesSum(hash, seed, length - index, index);
  }

  lemma {:induction false} HashTimesSum(hash: LinkHash, value: Link, a: nat, b: nat)
    ensures HashTimes(hash, HashTimes(hash, value, a), b) == HashTimes(hash, value, a + b)
    decreases a
  {
    if a > 0 {
      HashTimesSum(hash, hash(value), a - 1, b);
    }
  }

  predicate LinkAdvances(previous: Link, next: Link, hash: LinkHash) {
    IsLink(previous) && IsLink(next) && hash(next) == previous
  }

  lemma OrIsZero(d: bv8, x: bv8, y: bv8)
    ensures (d | (x ^ y)) == 0 <==> d == 0 && x == y
  {
  }

  /** Compares all bytes without stopping early: the difference is zero exactly when every byte agrees. */
  method VerifyHashChainLink(previous: Link, next: Link, hash: LinkHash) returns (ok: bool)
    requires HashesLinks(hash)
    ensures ok <==> LinkAdvances(previous, next, hash)
  {
    if !IsLink(previous) || !IsLink(next) {
      return false;
    }
    var actual := hash(next);
    assert IsLink(actual);
    var difference: bv8 := 0;
    for index := 0 to SEED_BYTES
      invariant difference == 0 <==> actual[..index] == previous[..index]
    {
      OrIsZero(difference, actual[index], previous[index]);
      assert actual[..index + 1] == actual[..index] + [actual[index]];
      assert previous[..index + 1] == previous[..index] + [previous[index]];
      difference := difference | (actual[index] ^ previous[index]);
    }
    assert actual[..SEED_BYTES] == actual && previous[..SEED_BYTES] == previous;
    ok := difference == 0;
  }
}
