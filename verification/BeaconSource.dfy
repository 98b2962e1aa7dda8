/** A seat's source of chain secrets, with its cache of two epochs (packages/protocol/src/beacon-source.ts). */
module BeaconSource {
  import opened Results
  import opened OrderedMaps
  import opened HashChain
  import Beacon
  import BeaconRuns

  const CACHE_EPOCHS := 2

  type Cache = seq<Entry<nat, array<Link>>>

  datatype Offer = Offer(length: nat, tip: Link)

  /** The link of an epoch's chain at an index, counted from the tip. */
  function LinkOf(hash: LinkHash, seed: Link, length: nat, index: nat): Link
    requires index <= length
  {
    HashTimes(hash, seed, length - index)
  }

  ghost predicate Zeroed(links: array<Link>)
    reads links
  {
    forall i :: 0 <= i < links.Length ==> links[i] == Blank()
  }

  function Blank(): (r: Link)
    ensures IsLink(r)
  {
    seq(SEED_BYTES, _ => 0)
  }

  ghost predicate SeedsAreLinks(derive: (Link, nat) -> Link) {
    forall key, epoch :: IsLink(derive(key, epoch))
  }

  class SecretSource {
    const length: nat
    const hash: LinkHash
    /** Bytes derived from the secret for an epoch, under the label of that epoch, the context and the length. */
    const derive: (Link, nat) -> Link
    ghost const master: Link
    var secret: Link
    var cache: Cache
    var disposed: bool

    ghost function Arrays(): set<object>
      reads this
    {
      set i | 0 <= i < |cache| :: cache[i].value
    }

    ghost predicate EntryOk(e: Entry<nat, array<Link>>)
      reads e.value
    {
      IsChain(e.value[..], derive(master, e.key), length, hash)
    }

    /** Cached arrays are distinct, and each holds exactly the chain of its epoch. */
    ghost predicate Valid()
      reads this, Arrays()
    {
      && 1 <= length <= MAX_LENGTH
      && SeedsAreLinks(derive)
      && |cache| <= CACHE_EPOCHS && UniqueKeys(cache)
      && (forall i, j :: 0 <= i < j < |cache| ==> cache[i].value != cache[j].value)
      && (forall i :: 0 <= i < |cache| ==> EntryOk(cache[i]))
      && (if disposed then cache == [] else secret == master)
    }

    constructor (master: Link, derive: (Link, nat) -> Link, hash: LinkHash, length: nat)
      requires 1 <= length <= MAX_LENGTH && SeedsAreLinks(derive)
      ensures Valid() && !disposed && cache == []
      ensures this.master == master && this.derive == derive && this.hash == hash && this.length == length
    {
      this.master, this.derive, this.hash, this.length := master, derive, hash, length;
      secret, cache, disposed := master, [], false;
    }

    /** Fills every link of one chain with zeros. */
    method Fill(links: array<Link>)
      modifies links
      ensures Zeroed(links)
    {
      for i := 0 to links.Length
        invariant forall k :: 0 <= k < i ==> links[k] == Blank()
      {
        links[i] := Blank();
      }
    }

    /** Drops the entry that was put first, after zeroing its links. */
    method Evict()
      requires |cache| == CACHE_EPOCHS + 1 && UniqueKeys(cache)
      requires forall i, j :: 0 <= i < j < |cache| ==> cache[i].value != cache[j].value
      modifies this`cache, cache[0].value
      ensures cache == old(cache)[1..] && Zeroed(old(cache)[0].value)
    {
      Fill(cache[0].value);
      cache := cache[1..];
    }

    method Generate(chainEpoch: nat) returns (links: array<Link>)
      requires 1 <= length <= MAX_LENGTH && SeedsAreLinks(derive) && secret == master
      ensures fresh(links) && IsChain(links[..], derive(master, chainEpoch), length, hash)
    {
      var made := CreateHashChain(derive(secret, chainEpoch), length, hash);
      var chain := made.value;
      links := new Link[|chain|](i requires 0 <= i < |chain| => chain[i]);
      assert links[..] == chain;
    }

    /** Puts a new chain last; past two epochs the first one goes. */
    method Keep(chainEpoch: nat, links: array<Link>)
      requires Valid() && !disposed && !Has(cache, chainEpoch) && links !in Arrays()
      requires EntryOk(Entry(chainEpoch, links))
      modifies this`cache, Arrays()
      ensures Valid() && EntryOk(Entry(chainEpoch, links))
      ensures forall e :: e in old(cache) ==> e in cache || Zeroed(e.value)
      ensures Arrays() <= old(Arrays()) + {links}
    {
      hide IsChain;
      ghost var before := cache;
      forall i | 0 <= i < |before| ensures before[i].key != chainEpoch && before[i].value != links {
        assert cache[i].value in Arrays();
      }
      cache := cache + [Entry(chainEpoch, links)];
      if |cache| > CACHE_EPOCHS {
        Evict();
        assert cache == [before[1], Entry(chainEpoch, links)];
      }
    }

    /** The chain of an epoch: from the cache, or made, kept, and paid for by the oldest entry. */
    method ChainAt(chainEpoch: nat) returns (r: Result<array<Link>>)
      requires Valid()
      modifies this`cache, Arrays()
      ensures Valid() && (r.Err? <==> disposed)
      ensures disposed == old(disposed) && secret == old(secret)
      ensures r.Ok? ==> IsChain(r.value[..], derive(master, chainEpoch), length, hash)
      ensures forall e :: e in old(cache) ==> e in cache || Zeroed(e.value)
      ensures forall o :: o in Arrays() ==> o in old(Arrays()) || fresh(o)
    {
      if disposed {
        return Err("disposed");
      }
      var known := Lookup(cache, chainEpoch);
      if known.Some? {
        return Ok(known.value);
      }
      var links := Generate(chainEpoch);
      Keep(chainEpoch, links);
      return Ok(links);
    }

    /** The link shown at an index: always that of the epoch's own chain, cached or not. */
    method LinkAt(chainEpoch: nat, index: nat) returns (r: Result<Link>)
      requires Valid()
      modifies this`cache, Arrays()
      ensures Valid() && disposed == old(disposed)
      ensures r.Ok? <==> 1 <= index <= length && !disposed
      ensures r.Ok? ==> r.value == LinkOf(hash, derive(master, chainEpoch), length, index)
      ensures forall o :: o in Arrays() ==> o in old(Arrays()) || fresh(o)
    {
      if !(1 <= index <= length) {
        return Err("range");
      }
      var chain := ChainAt(chainEpoch);
      if chain.Err? {
        return Err(chain.code);
      }
      return Ok(chain.value[..][index]);
    }

    /** The commitment of a later epoch: its whole length, and its tip. */
    method Extension(chainEpoch: nat) returns (r: Result<Offer>)
      requires Valid()
      modifies this`cache, Arrays()
      ensures Valid() && disposed == old(disposed)
      ensures r.Ok? <==> chainEpoch >= 1 && !disposed
      ensures r.Ok? ==> r.value == Offer(length, LinkOf(hash, derive(master, chainEpoch), length, 0))
      ensures forall o :: o in Arrays() ==> o in old(Arrays()) || fresh(o)
    {
      if chainEpoch < 1 {
        return Err("range");
      }
      var chain := ChainAt(chainEpoch);
      if chain.Err? {
        return Err(chain.code);
      }
      return Ok(Offer(length, chain.value[..][0]));
    }

    method InitialCommitment() returns (r: Result<Offer>)
      requires Valid()
      modifies this`cache, Arrays()
      ensures Valid() && disposed == old(disposed)
      ensures r.Ok? <==> !disposed
      ensures r.Ok? ==> r.value == Offer(length, LinkOf(hash, derive(master, 0), length, 0))
      ensures forall o :: o in Arrays() ==> o in old(Arrays()) || fresh(o)
    {
      var chain := ChainAt(0);
      if chain.Err? {
        return Err(chain.code);
      }
      return Ok(Offer(length, chain.value[..][0]));
    }

    /** Zeroes the secret and every cached link, once. */
    method Dispose()
      requires Valid()
      modifies this, Arrays()
      ensures Valid() && disposed && cache == []
      ensures !old(disposed) ==> secret == Blank() && forall e :: e in old(cache) ==> Zeroed(e.value)
      ensures old(disposed) ==> secret == old(secret)
    {
      if disposed {
        return;
      }
      disposed := true;
      secret := Blank();
      for i := 0 to |cache|
        invariant cache == old(cache) && disposed && secret == Blank()
        invariant forall k :: 0 <= k < i ==> Zeroed(cache[k].value)
        modifies Arrays()
      {
        Fill(cache[i].value);
      }
      cache := [];
    }
  }

  /**
   * In every run where a seat's current commitment is what its source offered for that epoch, the link the
   * source supplies is accepted for the request at hand, and no other value is.
   */
  lemma SuppliedLinkIsTheOneAccepted(start: Beacon.State, steps: seq<BeaconRuns.Step>, registry: Beacon.Registry,
                                     i: nat,
                                     seed: Link, length: nat, value: Link)
    requires BeaconRuns.Started(start) && BeaconRuns.CollisionFree(registry.hash) && HashesLinks(registry.hash)
      && IsLink(seed)
    requires Beacon.GetBeaconOperation(BeaconRuns.After(start, steps, registry)).Ok?
    requires i < |BeaconRuns.After(start, steps, registry).chains|
      && BeaconRuns.After(start, steps, registry).chains[i].length == length
    requires BeaconRuns.LastCommitted(BeaconRuns.BookAfter(start, steps, registry), i,
                                      LinkOf(registry.hash, seed, length, 0))
    ensures var op := Beacon.GetBeaconOperation(BeaconRuns.After(start, steps, registry)).value;
      && i < |op.participants| && 1 <= op.participants[i].index <= length
      && (LinkAdvances(op.participants[i].previous, value, registry.hash) <==>
          value == LinkOf(registry.hash, seed, length, op.participants[i].index))
  {
    hide BeaconRuns.After, BeaconRuns.BookAfter, Beacon.GetBeaconOperation, Beacon.ValidState;
    var chain: seq<Link> := seq(length + 1, k requires 0 <= k <= length => LinkOf(registry.hash, seed, length, k));
    BeaconRuns.RevealsAreCommitted(start, steps, registry, i, chain, seed, value);
    BeaconRuns.EveryRunKeepsItsBook(start, steps, registry);
    BeaconRuns.NextAt(BeaconRuns.After(start, steps, registry), i);
  }
}
