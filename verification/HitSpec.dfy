/**
 * The prefix hit, said outright: the greatest length every group can resume from.
 * `Coordinator.FindLongestCacheHit` (Coordinator.dfy) computes it by iterating to a fixed point.
 */
module HitSpec {
  import opened Basics
  import opened PoolSpec
  import opened TypeSpec

  /** KV-cache groups that share one spec and are looked up jointly. */
  datatype SpecGroup = SpecGroup(kind: Kind, blockSize: Pos, gids: seq<nat>)

  /** What the lookup reads: the index, a request's block hashes and their granularity. */
  datatype Lookup = Lookup(index: IndexMap, hashes: seq<Digest>, hashBlock: Pos)

  function Stride(l: Lookup, bs: Pos): nat { bs / l.hashBlock }

  /** The block cached for group `g` under the hash of the `i`-th block of the request. */
  function CachedBlock(l: Lookup, bs: Pos, g: nat, i: nat): Option<Id> {
    var k := KeyAt(l.hashes, Stride(l, bs), g, i);
    if k.Some? then GetOne(l.index, k.value) else None
  }

  /** `get_cached_block`: cached for every group of the spec. */
  predicate Cached(l: Lookup, sg: SpecGroup, i: nat) {
    forall g :: g in sg.gids ==> CachedBlock(l, sg.blockSize, g, i).Some?
  }

  /** Can this spec resume at `len`? Full attention needs the whole chain, mamba one state at
      exactly that length. */
  predicate Resumable(l: Lookup, sg: SpecGroup, len: nat) {
    && len % sg.blockSize == 0
    && match sg.kind
       case FullAttention => forall i :: 0 <= i < len / sg.blockSize ==> Cached(l, sg, i)
       case Mamba => len > 0 ==> len / sg.blockSize > 0 && Cached(l, sg, len / sg.blockSize - 1)
  }

  /** Lengths the coordinator may answer. */
  predicate Good(l: Lookup, specs: seq<SpecGroup>, align: Pos, len: nat) {
    len % align == 0 && forall j :: 0 <= j < |specs| ==> Resumable(l, specs[j], len)
  }

  /** The greatest good length not above `cap`. */
  function Longest(l: Lookup, specs: seq<SpecGroup>, align: Pos, cap: nat): (r: nat)
    ensures r <= cap
    ensures Good(l, specs, align, r)
    ensures forall x :: r < x <= cap ==> !Good(l, specs, align, x)
  {
    if cap == 0 then ZeroGood(l, specs, align); 0
    else if Good(l, specs, align, cap) then cap
    else Longest(l, specs, align, cap - 1)
  }

  lemma ZeroGood(l: Lookup, specs: seq<SpecGroup>, align: Pos)
    ensures Good(l, specs, align, 0)
  {
    assert 0 % align == 0;
    forall j | 0 <= j < |specs| ensures Resumable(l, specs[j], 0) {
      assert 0 % specs[j].blockSize == 0 && 0 / specs[j].blockSize == 0;
    }
  }

  function BlockOr(o: Option<Id>): Id { if o.Some? then o.value else NULL }

  /** The blocks a hit of `len` tokens hands to group `g`: the cached chain for full attention,
      one state padded with nulls for mamba. */
  function HitBlocks(l: Lookup, kind: Kind, bs: Pos, g: nat, len: nat): seq<Id> {
    var n := len / bs;
    match kind
    case FullAttention => seq(n, i requires 0 <= i < n => BlockOr(CachedBlock(l, bs, g, i)))
    case Mamba => if n == 0 then [] else Repeat<Id>(NULL, n - 1) + [BlockOr(CachedBlock(l, bs, g, n - 1))]
  }
}
