/**
 * The single-spec lookup (`find_longest_cache_hit` of single_type.rs): full attention scans the
 * hash chain from the left and trims to the alignment, mamba scans from the right for one state.
 * Both return the greatest aligned length their spec can resume from.
 */
module HitLookup {
  import opened Basics
  import opened PoolSpec
  import opened TypeSpec
  import opened HitSpec

  // ---- resumable lengths ------------------------------------------------------------

  /** One spec's share of `Good`. */
  predicate Alone(l: Lookup, sg: SpecGroup, align: Pos, len: nat) {
    len % align == 0 && Resumable(l, sg, len)
  }

  lemma OneSpec(l: Lookup, sg: SpecGroup, align: Pos, x: nat)
    ensures Good(l, [sg], align, x) <==> Alone(l, sg, align, x)
  {
    assert [sg][0] == sg;
  }

  /** All specs resume at a length exactly when each does. */
  lemma EachGood(l: Lookup, specs: seq<SpecGroup>, align: Pos, x: nat)
    requires specs != []
    ensures Good(l, specs, align, x) <==> forall j :: 0 <= j < |specs| ==> Alone(l, specs[j], align, x)
  {
    hide Resumable;
    if forall j :: 0 <= j < |specs| ==> Alone(l, specs[j], align, x) { assert Alone(l, specs[0], align, x); }
  }

  lemma LongestIs(l: Lookup, specs: seq<SpecGroup>, align: Pos, cap: nat, r: nat)
    requires r <= cap && Good(l, specs, align, r)
    requires forall x :: r < x <= cap ==> !Good(l, specs, align, x)
    ensures Longest(l, specs, align, cap) == r
  {
    hide Good;
  }

  lemma LongestLeast(l: Lookup, specs: seq<SpecGroup>, align: Pos, cap: nat, x: nat)
    requires x <= cap && Good(l, specs, align, x)
    ensures x <= Longest(l, specs, align, cap)
  {
    hide Good;
  }

  lemma AloneLongest(l: Lookup, sg: SpecGroup, align: Pos, cap: nat, r: nat)
    requires r <= cap && Alone(l, sg, align, r)
    requires forall x :: r < x <= cap ==> !Alone(l, sg, align, x)
    ensures Longest(l, [sg], align, cap) == r
  {
    hide Alone, Good;
    forall x | r <= x <= cap ensures Good(l, [sg], align, x) <==> Alone(l, sg, align, x) { OneSpec(l, sg, align, x); }
    LongestIs(l, [sg], align, cap, r);
  }

  // ---- multiples --------------------------------------------------------------------

  lemma Whole(c: nat, bs: Pos)
    ensures c * bs / bs == c && c * bs % bs == 0
  {
    var q := c * bs / bs;
    FloorBounds(c * bs, bs);
    MulOrder(c, q, bs);
    MulOrder(q + 1, c, bs);
    assert (q + 1) * bs == q * bs + bs;
  }

  lemma Exact(x: nat, bs: Pos)
    requires x % bs == 0
    ensures x / bs * bs == x
  {}

  lemma Coarser(x: nat, align: Pos, bs: Pos)
    requires x % align == 0 && align % bs == 0
    ensures x % bs == 0
  {
    var a, b := x / align, align / bs;
    assert x == a * (b * bs) == (a * b) * bs;
    Whole(a * b, bs);
  }

  lemma FloorOrder(x: nat, y: nat, bs: Pos)
    requires x <= y
    ensures x / bs <= y / bs
  {
    FloorBounds(x, bs);
    FloorBounds(y, bs);
    if x / bs > y / bs { MulOrder(y / bs + 1, x / bs, bs); MulOrder(x / bs, y / bs + 1, bs); }
  }

  lemma StridePos(bs: Pos, hb: Pos)
    requires bs % hb == 0
    ensures bs / hb > 0
  {
    Exact(bs, hb);
  }

  lemma ViewLen(n: nat, stride: Pos, i: nat)
    ensures i < n / stride <==> (i + 1) * stride - 1 < n
  {
    FloorBounds(n, stride);
    MulOrder(i, n / stride, stride);
    MulOrder(n / stride, i + 1, stride);
    MulOrder(n / stride + 1, i + 1, stride);
    assert (n / stride + 1) * stride == n / stride * stride + stride;
  }

  // ---- one block of the chain -------------------------------------------------------

  /** `get_cached_block`: the block of every group, or nothing. */
  method GetCachedBlock(index: IndexMap, hash: Digest, gids: seq<nat>) returns (o: Option<seq<Id>>)
    ensures o.Some? <==> forall g :: g in gids ==> GetOne(index, HashKey(hash, g)).Some?
    ensures o.Some? ==> |o.value| == |gids|
    ensures o.Some? ==> forall k :: 0 <= k < |gids| ==> GetOne(index, HashKey(hash, gids[k])) == Some(o.value[k])
  {
    var out: seq<Id> := [];
    for i := 0 to |gids|
      invariant |out| == i && forall k :: 0 <= k < i ==> GetOne(index, HashKey(hash, gids[k])) == Some(out[k])
    {
      var b := GetOne(index, HashKey(hash, gids[i]));
      if b.None? { return None; }
      out := out + [b.value];
    }
    o := Some(out);
  }

  /** The `i`-th block of the request in every group of the spec. */
  method CachedAt(l: Lookup, sg: SpecGroup, i: nat) returns (o: Option<seq<Id>>)
    requires sg.blockSize % l.hashBlock == 0 && i < |l.hashes| / Stride(l, sg.blockSize)
    ensures o.Some? <==> Cached(l, sg, i)
    ensures o.Some? ==> |o.value| == |sg.gids|
    ensures o.Some? ==> forall k :: 0 <= k < |sg.gids| ==>
              CachedBlock(l, sg.blockSize, sg.gids[k], i) == Some(o.value[k])
  {
    var stride := Stride(l, sg.blockSize);
    StridePos(sg.blockSize, l.hashBlock);
    ViewLen(|l.hashes|, stride, i);
    MulOrder(0, i + 1, stride);
    assert forall g: nat ::
      CachedBlock(l, sg.blockSize, g, i) == GetOne(l.index, HashKey(l.hashes[(i + 1) * stride - 1], g));
    o := GetCachedBlock(l.index, l.hashes[(i + 1) * stride - 1], sg.gids);
  }

  /** No block is cached beyond the request's hashes. */
  lemma PastHashes(l: Lookup, sg: SpecGroup, i: nat)
    requires sg.blockSize % l.hashBlock == 0 && sg.gids != [] && i >= |l.hashes| / Stride(l, sg.blockSize)
    ensures !Cached(l, sg, i)
  {
    StridePos(sg.blockSize, l.hashBlock);
    ViewLen(|l.hashes|, Stride(l, sg.blockSize), i);
    assert sg.gids[0] in sg.gids;
    assert CachedBlock(l, sg.blockSize, sg.gids[0], i).None?;
  }

  // ---- full attention ---------------------------------------------------------------

  /** Resumability of full attention is downward closed. */
  lemma FullDown(l: Lookup, sg: SpecGroup, align: Pos, x: nat, y: nat)
    requires sg.kind.FullAttention? && align % sg.blockSize == 0 && Alone(l, sg, align, x) && y <= x && y % align == 0
    ensures Alone(l, sg, align, y)
  {
    Coarser(y, align, sg.blockSize);
    FloorOrder(y, x, sg.blockSize);
  }

  /** The chain of `c` cached blocks, for each group of the spec. */
  ghost predicate ChainOut(l: Lookup, sg: SpecGroup, c: nat, out: seq<seq<Id>>) {
    && |out| == |sg.gids|
    && (forall k :: 0 <= k < |out| ==> |out[k]| == c)
    && (forall k, i :: 0 <= k < |out| && 0 <= i < c ==>
        out[k][i] == BlockOr(CachedBlock(l, sg.blockSize, sg.gids[k], i)))
  }

  lemma ChainHit(l: Lookup, sg: SpecGroup, c: nat, out: seq<seq<Id>>, k: nat)
    requires sg.kind.FullAttention? && ChainOut(l, sg, c, out) && k < |out|
    ensures out[k] == HitBlocks(l, sg.kind, sg.blockSize, sg.gids[k], c * sg.blockSize)
  {
    Whole(c, sg.blockSize);
  }

  /** Do `c` blocks end on the alignment? */
  predicate Aligned(c: nat, bs: Pos, align: Pos) { c * bs % align == 0 }

  lemma ChainBound(l: Lookup, sg: SpecGroup, align: Pos, cap: nat, c: nat, x: nat)
    requires sg.kind.FullAttention? && x <= cap && (c == cap / sg.blockSize || !Cached(l, sg, c))
    ensures Alone(l, sg, align, x) ==>
      x / sg.blockSize <= c && Aligned(x / sg.blockSize, sg.blockSize, align) && x / sg.blockSize * sg.blockSize == x
  {
    hide Cached;
    FloorOrder(x, cap, sg.blockSize);
    if Alone(l, sg, align, x) { Exact(x, sg.blockSize); }
  }

  /** The scan from the left stopped at the `c`-th block; trimming stopped at the `r`-th. */
  lemma ChainLongest(l: Lookup, sg: SpecGroup, align: Pos, cap: nat, c: nat, r: nat)
    requires sg.kind.FullAttention? && (forall i :: 0 <= i < c ==> Cached(l, sg, i)) && c <= cap / sg.blockSize
    requires c == cap / sg.blockSize || !Cached(l, sg, c)
    requires r <= c && Aligned(r, sg.blockSize, align)
    requires forall x :: r < x <= c ==> !Aligned(x, sg.blockSize, align)
    ensures Longest(l, [sg], align, cap) == r * sg.blockSize
  {
    hide Cached, Longest;
    var bs := sg.blockSize;
    Whole(r, bs);
    FloorBounds(cap, bs);
    MulOrder(cap / bs, r, bs);
    forall x | r * bs < x <= cap ensures !Alone(l, sg, align, x) {
      ChainBound(l, sg, align, cap, c, x);
      MulOrder(r, x / bs, bs);
    }
    assert Alone(l, sg, align, r * bs);
    AloneLongest(l, sg, align, cap, r * bs);
  }

  lemma AlignedEnd(r: nat, bs: Pos, align: Pos)
    ensures r == 0 || bs == align ==> Aligned(r, bs, align)
  {
    if bs == align { Whole(r, bs); }
  }

  /** Walk the chain from the left to the first block that is not cached everywhere. */
  method ScanChain(l: Lookup, sg: SpecGroup, cap: nat) returns (c: nat, out: seq<seq<Id>>)
    requires sg.gids != [] && sg.blockSize % l.hashBlock == 0
    ensures (forall i :: 0 <= i < c ==> Cached(l, sg, i)) && c <= cap / sg.blockSize && ChainOut(l, sg, c, out)
    ensures c == cap / sg.blockSize || !Cached(l, sg, c)
  {
    hide Cached, CachedBlock;
    StridePos(sg.blockSize, l.hashBlock);
    var n := Min(cap / sg.blockSize, |l.hashes| / Stride(l, sg.blockSize));
    out := seq(|sg.gids|, _ => []);
    c := 0;
    while c < n
      invariant c <= n && (forall i :: 0 <= i < c ==> Cached(l, sg, i)) && ChainOut(l, sg, c, out)
    {
      var o := CachedAt(l, sg, c);
      if o.None? { return; }
      out := seq(|sg.gids|, k requires 0 <= k < |sg.gids| => out[k] + [o.value[k]]);
      c := c + 1;
    }
    if c < cap / sg.blockSize { PastHashes(l, sg, c); }
  }

  /** Drop blocks off the end until the chain is aligned. */
  method TrimChain(l: Lookup, sg: SpecGroup, align: Pos, c: nat, chain: seq<seq<Id>>)
    returns (r: nat, out: seq<seq<Id>>)
    requires ChainOut(l, sg, c, chain)
    ensures r <= c && ChainOut(l, sg, r, out) && Aligned(r, sg.blockSize, align)
    ensures forall x :: r < x <= c ==> !Aligned(x, sg.blockSize, align)
  {
    hide CachedBlock, Aligned;
    r, out := c, chain;
    while sg.blockSize != align && r != 0 && !Aligned(r, sg.blockSize, align)
      invariant r <= c && ChainOut(l, sg, r, out)
      invariant forall x :: r < x <= c ==> !Aligned(x, sg.blockSize, align)
    {
      out := seq(|sg.gids|, k requires 0 <= k < |sg.gids| => out[k][..r - 1]);
      r := r - 1;
    }
    AlignedEnd(r, sg.blockSize, align);
  }

  method LookupFull(l: Lookup, sg: SpecGroup, cap: nat, align: Pos) returns (len: nat, out: seq<seq<Id>>)
    requires sg.kind.FullAttention? && sg.gids != [] && sg.blockSize % l.hashBlock == 0
    ensures len == Longest(l, [sg], align, cap) && |out| == |sg.gids|
    ensures forall k :: 0 <= k < |out| ==> out[k] == HitBlocks(l, sg.kind, sg.blockSize, sg.gids[k], len)
  {
    hide Cached, CachedBlock, Longest, HitBlocks, Aligned;
    var c, chain := ScanChain(l, sg, cap);
    var r;
    r, out := TrimChain(l, sg, align, c, chain);
    ChainLongest(l, sg, align, cap, c, r);
    len := r * sg.blockSize;
    forall k | 0 <= k < |out|
      ensures out[k] == HitBlocks(l, sg.kind, sg.blockSize, sg.gids[k], len)
    {
      ChainHit(l, sg, r, out, k);
    }
  }

  // ---- mamba ------------------------------------------------------------------------

  /** Is the state after the `i`-th block cached, at an aligned length? */
  predicate Usable(l: Lookup, sg: SpecGroup, align: Pos, i: nat) {
    Aligned(i + 1, sg.blockSize, align) && Cached(l, sg, i)
  }

  lemma StateAlone(l: Lookup, sg: SpecGroup, align: Pos, i: nat)
    requires sg.kind.Mamba?
    ensures Alone(l, sg, align, (i + 1) * sg.blockSize) <==> Usable(l, sg, align, i)
  {
    Whole(i + 1, sg.blockSize);
    MulOrder(0, i + 1, sg.blockSize);
  }

  lemma StateBound(l: Lookup, sg: SpecGroup, align: Pos, cap: nat, x: nat)
    requires sg.kind.Mamba? && 0 < x <= cap
    ensures Alone(l, sg, align, x) ==> 0 < x / sg.blockSize <= cap / sg.blockSize
    ensures Alone(l, sg, align, x) ==>
              x / sg.blockSize * sg.blockSize == x && Usable(l, sg, align, x / sg.blockSize - 1)
  {
    hide Cached;
    FloorOrder(x, cap, sg.blockSize);
    if Alone(l, sg, align, x) { Exact(x, sg.blockSize); }
  }

  /** The scan from the right found the state after block `i - 1`, or none at all. */
  lemma StateLongest(l: Lookup, sg: SpecGroup, align: Pos, cap: nat, i: nat)
    requires sg.kind.Mamba? && i <= cap / sg.blockSize && (i > 0 ==> Usable(l, sg, align, i - 1))
    requires forall x :: i <= x < cap / sg.blockSize ==> !Usable(l, sg, align, x)
    ensures Longest(l, [sg], align, cap) == i * sg.blockSize
  {
    hide Usable, Longest;
    var bs := sg.blockSize;
    FloorBounds(cap, bs);
    MulOrder(cap / bs, i, bs);
    if i > 0 { StateAlone(l, sg, align, i - 1); } else { NothingAlone(l, sg, align); }
    forall x | i * bs < x <= cap ensures !Alone(l, sg, align, x) {
      StateBound(l, sg, align, cap, x);
      MulOrder(i, x / bs, bs);
    }
    AloneLongest(l, sg, align, cap, i * bs);
  }

  lemma NothingAlone(l: Lookup, sg: SpecGroup, align: Pos)
    ensures Alone(l, sg, align, 0)
  {}

  lemma StateHit(l: Lookup, sg: SpecGroup, i: nat, k: nat, b: Id)
    requires sg.kind.Mamba? && k < |sg.gids| && CachedBlock(l, sg.blockSize, sg.gids[k], i) == Some(b)
    ensures HitBlocks(l, sg.kind, sg.blockSize, sg.gids[k], (i + 1) * sg.blockSize) == Repeat<Id>(NULL, i) + [b]
  {
    Whole(i + 1, sg.blockSize);
  }

  method LookupMamba(l: Lookup, sg: SpecGroup, cap: nat, align: Pos) returns (len: nat, out: seq<seq<Id>>)
    requires sg.kind.Mamba? && sg.gids != [] && sg.blockSize % l.hashBlock == 0
    ensures len == Longest(l, [sg], align, cap) && |out| == |sg.gids|
    ensures forall k :: 0 <= k < |out| ==> out[k] == HitBlocks(l, sg.kind, sg.blockSize, sg.gids[k], len)
  {
    hide Cached, CachedBlock, Longest, HitBlocks, Aligned;
    var bs := sg.blockSize;
    StridePos(bs, l.hashBlock);
    var i: nat := Min(cap / bs, |l.hashes| / Stride(l, bs));
    forall x | i <= x < cap / bs ensures !Usable(l, sg, align, x) { PastHashes(l, sg, x); }
    while i > 0
      invariant i <= cap / bs && i <= |l.hashes| / Stride(l, bs)
      invariant forall x :: i <= x < cap / bs ==> !Usable(l, sg, align, x)
    {
      i := i - 1;
      var o := CachedAt(l, sg, i);
      AlignedEnd(i + 1, bs, align);
      if o.Some? && (bs == align || Aligned(i + 1, bs, align)) {
        StateLongest(l, sg, align, cap, i + 1);
        out := seq(|sg.gids|, k requires 0 <= k < |sg.gids| => Repeat<Id>(NULL, i) + [o.value[k]]);
        forall k | 0 <= k < |out| ensures out[k] == HitBlocks(l, sg.kind, bs, sg.gids[k], (i + 1) * bs) {
          StateHit(l, sg, i, k, o.value[k]);
        }
        return (i + 1) * bs, out;
      }
    }
    StateLongest(l, sg, align, cap, 0);
    NoState(l, sg.kind, bs);
    return 0, seq(|sg.gids|, _ => []);
  }

  lemma NoState(l: Lookup, kind: Kind, bs: Pos)
    requires kind.Mamba?
    ensures forall g: nat :: HitBlocks(l, kind, bs, g, 0) == []
  {}

  /** `find_longest_cache_hit` of one spec. */
  method LookupSpec(l: Lookup, sg: SpecGroup, cap: nat, align: Pos) returns (len: nat, out: seq<seq<Id>>)
    requires sg.gids != [] && sg.blockSize % l.hashBlock == 0
    ensures len == Longest(l, [sg], align, cap) && |out| == |sg.gids|
    ensures forall k :: 0 <= k < |out| ==> out[k] == HitBlocks(l, sg.kind, sg.blockSize, sg.gids[k], len)
  {
    match sg.kind
    case FullAttention => len, out := LookupFull(l, sg, cap, align);
    case Mamba => len, out := LookupMamba(l, sg, cap, align);
  }
}
