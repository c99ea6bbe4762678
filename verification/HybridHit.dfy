/**
 * The hybrid lookup (`find_longest_cache_hit` of coordinator.rs): every spec in turn shortens the
 * candidate length until a pass leaves it alone. The result is the greatest length all specs can
 * resume from, whether the loop runs to its fixed point or the two-spec case leaves early.
 */
module HybridHit {
  import opened Basics
  import opened PoolSpec
  import opened TypeSpec
  import opened HitSpec
  import opened HitLookup

  /** Specs partition the groups; only the first may be full attention. */
  ghost predicate SpecsOk(specs: seq<SpecGroup>, n: nat, hashBlock: Pos, align: Pos) {
    && specs != []
    && (forall j :: 0 <= j < |specs| ==>
          specs[j].gids != [] && Distinct(specs[j].gids) && specs[j].blockSize % hashBlock == 0
            && align % specs[j].blockSize == 0)
    && (forall j, g :: 0 <= j < |specs| && g in specs[j].gids ==> g < n)
    && (forall i, j, g :: 0 <= i < j < |specs| && g in specs[i].gids ==> g !in specs[j].gids)
    && (forall j :: 0 < j < |specs| ==> specs[j].kind.Mamba?)
  }

  /** The hit blocks of length `len` are in place for the groups of a spec. */
  ghost predicate Placed(l: Lookup, sg: SpecGroup, blocks: seq<seq<Id>>, len: nat) {
    forall g :: g in sg.gids ==> g < |blocks| && blocks[g] == HitBlocks(l, sg.kind, sg.blockSize, g, len)
  }

  /** Put each group's blocks in its place. */
  method Store(before: seq<seq<Id>>, gids: seq<nat>, out: seq<seq<Id>>) returns (blocks: seq<seq<Id>>)
    requires |out| == |gids| && Distinct(gids) && forall k :: 0 <= k < |gids| ==> gids[k] < |before|
    ensures |blocks| == |before| && forall k :: 0 <= k < |gids| ==> blocks[gids[k]] == out[k]
    ensures forall g :: 0 <= g < |before| && g !in gids ==> blocks[g] == before[g]
  {
    blocks := before;
    for i := 0 to |gids|
      invariant |blocks| == |before| && forall k :: 0 <= k < i ==> blocks[gids[k]] == out[k]
      invariant forall g :: 0 <= g < |before| && g !in gids ==> blocks[g] == before[g]
    {
      blocks := blocks[gids[i] := out[i]];
    }
  }

  lemma PlacedElsewhere(l: Lookup, sg: SpecGroup, other: seq<nat>, before: seq<seq<Id>>, blocks: seq<seq<Id>>, len: nat)
    requires Placed(l, sg, before, len) && |blocks| == |before|
    requires forall g :: 0 <= g < |before| && g !in other ==> blocks[g] == before[g]
    requires forall g :: g in sg.gids ==> g !in other
    ensures Placed(l, sg, blocks, len)
  {}

  lemma PlacedNow(l: Lookup, sg: SpecGroup, blocks: seq<seq<Id>>, out: seq<seq<Id>>, len: nat)
    requires |out| == |sg.gids| && forall k :: 0 <= k < |sg.gids| ==> sg.gids[k] < |blocks|
    requires forall k :: 0 <= k < |sg.gids| ==> blocks[sg.gids[k]] == out[k]
    requires forall k :: 0 <= k < |out| ==> out[k] == HitBlocks(l, sg.kind, sg.blockSize, sg.gids[k], len)
    ensures Placed(l, sg, blocks, len)
  {
    forall g | g in sg.gids ensures blocks[g] == HitBlocks(l, sg.kind, sg.blockSize, g, len) {
      var k :| 0 <= k < |sg.gids| && sg.gids[k] == g;
    }
  }

  /** A length good for all specs survives one spec's lookup. */
  lemma Survives(l: Lookup, specs: seq<SpecGroup>, align: Pos, cap: nat, j: nat, curr: nat)
    requires j < |specs| && Longest(l, specs, align, cap) <= curr
    ensures Longest(l, specs, align, cap) <= Longest(l, [specs[j]], align, curr)
    ensures Alone(l, specs[j], align, Longest(l, [specs[j]], align, curr))
    ensures Longest(l, [specs[j]], align, curr) % align == 0
  {
    hide Resumable;
    var r := Longest(l, specs, align, cap);
    EachGood(l, specs, align, r);
    OneSpec(l, specs[j], align, r);
    LongestLeast(l, [specs[j]], align, curr, r);
    OneSpec(l, specs[j], align, Longest(l, [specs[j]], align, curr));
  }

  /** What is known of the first spec once it has been looked up: its own best length bounds the
      candidate, and full attention still resumes there. */
  ghost predicate FirstSeen(l: Lookup, sg: SpecGroup, align: Pos, cap: nat, curr: nat, longest: nat,
                            blocks: seq<seq<Id>>) {
    && longest == Longest(l, [sg], align, cap) && curr <= longest
    && (sg.kind.FullAttention? ==> Alone(l, sg, align, curr) && Placed(l, sg, blocks, longest))
  }

  /** All of the first `k` specs agree on `len`. */
  ghost predicate Agreed(l: Lookup, specs: seq<SpecGroup>, align: Pos, k: nat, len: nat, blocks: seq<seq<Id>>) {
    k <= |specs| && forall j :: 0 <= j < k ==>
      Alone(l, specs[j], align, len) && (specs[j].kind.Mamba? ==> Placed(l, specs[j], blocks, len))
  }

  /** `lookup_group`: one spec's lookup, its blocks put in place. */
  method LookupGroup(l: Lookup, sg: SpecGroup, align: Pos, cap: nat, before: seq<seq<Id>>)
    returns (len: nat, blocks: seq<seq<Id>>)
    requires sg.gids != [] && Distinct(sg.gids) && sg.blockSize % l.hashBlock == 0
    requires forall k :: 0 <= k < |sg.gids| ==> sg.gids[k] < |before|
    ensures len == Longest(l, [sg], align, cap) && |blocks| == |before| && Placed(l, sg, blocks, len)
    ensures forall g :: 0 <= g < |before| && g !in sg.gids ==> blocks[g] == before[g]
  {
    hide Longest, HitBlocks, Placed;
    var out;
    len, out := LookupSpec(l, sg, cap, align);
    blocks := Store(before, sg.gids, out);
    PlacedNow(l, sg, blocks, out, len);
  }

  /** One spec's turn within a pass. */
  method Turn(l: Lookup, specs: seq<SpecGroup>, align: Pos, ghost cap: nat, idx: nat, length: nat, curr0: nat,
              before: seq<seq<Id>>, seen0: set<nat>, longest0: nat)
    returns (curr: nat, blocks: seq<seq<Id>>, seen: set<nat>, longest: nat)
    requires SpecsOk(specs, |before|, l.hashBlock, align) && idx < |specs|
    requires Longest(l, specs, align, cap) <= curr0 <= length
    requires if seen0 == {} then idx == 0 && curr0 == cap && longest0 == 0
             else specs[0].gids[0] in seen0 && FirstSeen(l, specs[0], align, cap, curr0, longest0, before)
    requires curr0 == length ==> Agreed(l, specs, align, idx, length, before)
    ensures |blocks| == |before| && Longest(l, specs, align, cap) <= curr <= curr0
    ensures specs[0].gids[0] in seen && FirstSeen(l, specs[0], align, cap, curr, longest, blocks)
    ensures curr == length ==> Agreed(l, specs, align, idx + 1, length, blocks)
    ensures Alone(l, specs[idx], align, curr) && (specs[idx].kind.Mamba? ==> Placed(l, specs[idx], blocks, curr))
  {
    hide Longest, Resumable, HitBlocks, Placed, Alone, SpecsOk, FirstSeen, Agreed;
    SpecAt(specs, |before|, l.hashBlock, align, idx);
    var sg := specs[idx];
    if seen0 != {} { FirstKnown(l, specs[0], align, cap, curr0, longest0, before); }
    if sg.kind.FullAttention? && sg.gids[0] in seen0 {
      curr, blocks, seen, longest := curr0 / sg.blockSize * sg.blockSize, before, seen0, longest0;
      TrimSame(l, sg, align, curr0);
      if curr0 == length { AgreedNext(l, specs, |before|, align, idx, length, before, before); }
      return;
    }
    curr, blocks := LookupGroup(l, sg, align, curr0, before);
    seen := seen0 + (set g | g in sg.gids);
    longest := Max(longest0, curr);
    Survives(l, specs, align, cap, idx, curr0);
    if idx > 0 { FirstLater(l, specs, |before|, align, cap, idx, curr0, curr, longest0, before, blocks); }
    if idx == 0 { FirstNow(l, sg, align, cap, curr0, curr, longest0, blocks, seen0 == {}); }
    if curr == length { AgreedNext(l, specs, |before|, align, idx, length, before, blocks); }
  }

  /** What `SpecsOk` says of one spec. */
  lemma SpecAt(specs: seq<SpecGroup>, n: nat, hashBlock: Pos, align: Pos, idx: nat)
    requires SpecsOk(specs, n, hashBlock, align) && idx < |specs|
    ensures var sg := specs[idx];
      && sg.gids != [] && Distinct(sg.gids) && sg.blockSize % hashBlock == 0 && align % sg.blockSize == 0
      && (forall k :: 0 <= k < |sg.gids| ==> sg.gids[k] < n) && (idx > 0 ==> sg.kind.Mamba?)
      && specs[0].gids != []
  {
    var sg := specs[idx];
    forall k | 0 <= k < |sg.gids| ensures sg.gids[k] < n { assert sg.gids[k] in sg.gids; }
  }

  lemma FirstNow(l: Lookup, sg: SpecGroup, align: Pos, cap: nat, curr0: nat, curr: nat, longest0: nat,
                 blocks: seq<seq<Id>>, starting: bool)
    requires curr == Longest(l, [sg], align, curr0) && Alone(l, sg, align, curr) && Placed(l, sg, blocks, curr)
    requires if starting then curr0 == cap && longest0 == 0
             else longest0 == Longest(l, [sg], align, cap) && curr0 <= longest0 && sg.kind.Mamba?
    ensures FirstSeen(l, sg, align, cap, curr, Max(longest0, curr), blocks)
  {
    hide Alone, Placed;
  }

  lemma FirstLater(l: Lookup, specs: seq<SpecGroup>, n: nat, align: Pos, cap: nat, idx: nat, curr0: nat, curr: nat,
                   longest: nat,
                   before: seq<seq<Id>>, blocks: seq<seq<Id>>)
    requires SpecsOk(specs, n, l.hashBlock, align) && 0 < idx < |specs| && curr <= curr0 && curr % align == 0
    requires FirstSeen(l, specs[0], align, cap, curr0, longest, before) && |blocks| == |before|
    requires forall g :: 0 <= g < |before| && g !in specs[idx].gids ==> blocks[g] == before[g]
    ensures FirstSeen(l, specs[0], align, cap, curr, Max(longest, curr), blocks)
  {
    hide Alone, Placed, Longest;
    if specs[0].kind.FullAttention? {
      PlacedElsewhere(l, specs[0], specs[idx].gids, before, blocks, longest);
      FullDown(l, specs[0], align, curr0, curr);
    }
  }

  lemma AgreedNext(l: Lookup, specs: seq<SpecGroup>, n: nat, align: Pos, idx: nat, len: nat, before: seq<seq<Id>>,
                   blocks: seq<seq<Id>>)
    requires SpecsOk(specs, n, l.hashBlock, align) && idx < |specs| && Agreed(l, specs, align, idx, len, before)
    requires |blocks| == |before|
    requires forall g :: 0 <= g < |before| && g !in specs[idx].gids ==> blocks[g] == before[g]
    requires Alone(l, specs[idx], align, len) && (specs[idx].kind.Mamba? ==> Placed(l, specs[idx], blocks, len))
    ensures Agreed(l, specs, align, idx + 1, len, blocks)
  {
    hide Alone, Placed;
    forall j | 0 <= j < idx && specs[j].kind.Mamba? ensures Placed(l, specs[j], blocks, len) {
      PlacedElsewhere(l, specs[j], specs[idx].gids, before, blocks, len);
    }
  }

  lemma TrimSame(l: Lookup, sg: SpecGroup, align: Pos, x: nat)
    requires Alone(l, sg, align, x)
    ensures x / sg.blockSize * sg.blockSize == x
  {
    Exact(x, sg.blockSize);
  }

  /** One pass over the specs. */
  method Pass(l: Lookup, specs: seq<SpecGroup>, align: Pos, ghost cap: nat, length: nat,
              before: seq<seq<Id>>, seen0: set<nat>, longest0: nat)
    returns (curr: nat, blocks: seq<seq<Id>>, seen: set<nat>, longest: nat)
    requires SpecsOk(specs, |before|, l.hashBlock, align) && Longest(l, specs, align, cap) <= length
    requires if seen0 == {} then length == cap && longest0 == 0
             else specs[0].gids[0] in seen0 && FirstSeen(l, specs[0], align, cap, length, longest0, before)
    ensures |blocks| == |before| && Longest(l, specs, align, cap) <= curr <= length
    ensures specs[0].gids[0] in seen && FirstSeen(l, specs[0], align, cap, curr, longest, blocks)
    ensures curr == length ==> Agreed(l, specs, align, |specs|, length, blocks)
    ensures var last := specs[|specs| - 1];
      Alone(l, last, align, curr) && (last.kind.Mamba? ==> Placed(l, last, blocks, curr))
  {
    hide Longest, Resumable, HitBlocks, Placed, FirstSeen, Agreed, Alone;
    NoneAgreed(l, specs, align, length, before);
    curr, blocks, seen, longest := length, before, seen0, longest0;
    for idx := 0 to |specs|
      invariant |blocks| == |before| && Longest(l, specs, align, cap) <= curr <= length
      invariant if seen == {} then idx == 0 && curr == cap && longest == 0
                else specs[0].gids[0] in seen && FirstSeen(l, specs[0], align, cap, curr, longest, blocks)
      invariant curr == length ==> Agreed(l, specs, align, idx, length, blocks)
      invariant idx > 0 ==> specs[0].gids[0] in seen && Alone(l, specs[idx - 1], align, curr)
      invariant idx > 0 && specs[idx - 1].kind.Mamba? ==> Placed(l, specs[idx - 1], blocks, curr)
    {
      curr, blocks, seen, longest := Turn(l, specs, align, cap, idx, length, curr, blocks, seen, longest);
    }
  }

  lemma NoneAgreed(l: Lookup, specs: seq<SpecGroup>, align: Pos, len: nat, blocks: seq<seq<Id>>)
    ensures Agreed(l, specs, align, 0, len, blocks)
  {}

  lemma AllAgree(l: Lookup, specs: seq<SpecGroup>, align: Pos, cap: nat, len: nat)
    requires specs != [] && Longest(l, specs, align, cap) <= len <= cap
    requires forall j :: 0 <= j < |specs| ==> Alone(l, specs[j], align, len)
    ensures len == Longest(l, specs, align, cap)
  {
    hide Alone;
    EachGood(l, specs, align, len);
    LongestLeast(l, specs, align, cap, len);
  }

  /** Cutting a longer chain down to `len`. */
  lemma ChainCut(l: Lookup, sg: SpecGroup, g: nat, len: nat, longest: nat)
    requires sg.kind.FullAttention? && len <= longest
    ensures var v := HitBlocks(l, sg.kind, sg.blockSize, g, longest);
      len / sg.blockSize <= |v| && v[..len / sg.blockSize] == HitBlocks(l, sg.kind, sg.blockSize, g, len)
  {
    FloorOrder(len, longest, sg.blockSize);
  }

  /** The full-attention blocks, cut to the agreed length. */
  method Truncate(l: Lookup, sg: SpecGroup, before: seq<seq<Id>>, len: nat, ghost longest: nat)
    returns (blocks: seq<seq<Id>>)
    requires Distinct(sg.gids) && sg.kind.FullAttention? && len <= longest && Placed(l, sg, before, longest)
    ensures |blocks| == |before| && Placed(l, sg, blocks, len)
    ensures forall g :: 0 <= g < |before| && g !in sg.gids ==> blocks[g] == before[g]
  {
    blocks := before;
    var n := len / sg.blockSize;
    assert forall k :: 0 <= k < |sg.gids| ==> sg.gids[k] in sg.gids;
    for i := 0 to |sg.gids|
      invariant |blocks| == |before| && forall g :: 0 <= g < |before| && g !in sg.gids ==> blocks[g] == before[g]
      invariant forall k :: 0 <= k < i ==> blocks[sg.gids[k]] == HitBlocks(l, sg.kind, sg.blockSize, sg.gids[k], len)
      invariant forall k :: i <= k < |sg.gids| ==> blocks[sg.gids[k]] == before[sg.gids[k]]
    {
      var g := sg.gids[i];
      ChainCut(l, sg, g, len, longest);
      if |blocks[g]| > n { blocks := blocks[g := blocks[g][..n]]; }
    }
  }

  /** `find_longest_cache_hit` for several groups: the hit, how far the first spec alone could
      have gone, and every group's blocks. */
  method FixedPoint(l: Lookup, specs: seq<SpecGroup>, n: nat, align: Pos, cap: nat)
    returns (hit: nat, longest: nat, blocks: seq<seq<Id>>)
    requires SpecsOk(specs, n, l.hashBlock, align)
    ensures hit == Longest(l, specs, align, cap) && longest == Longest(l, [specs[0]], align, cap) && hit <= longest
    ensures |blocks| == n && forall j :: 0 <= j < |specs| ==> Placed(l, specs[j], blocks, hit)
  {
    hide Longest, Resumable, HitBlocks, Placed, Agreed, FirstSeen, Alone;
    hit, longest, blocks := cap, 0, seq(n, _ => []);
    var seen: set<nat> := {};
    var simple := |specs| == 2 && specs[0].kind.FullAttention?;
    while true
      invariant |blocks| == n && Longest(l, specs, align, cap) <= hit <= cap
      invariant if seen == {} then hit == cap && longest == 0
                else specs[0].gids[0] in seen && FirstSeen(l, specs[0], align, cap, hit, longest, blocks)
      decreases hit
    {
      var curr;
      curr, blocks, seen, longest := Pass(l, specs, align, cap, hit, blocks, seen, longest);
      FirstKnown(l, specs[0], align, cap, curr, longest, blocks);
      if curr >= hit {
        AgreedAll(l, specs, align, cap, hit, blocks);
        break;
      }
      hit := curr;
      if simple {
        AllAgree(l, specs, align, cap, curr);
        break;
      }
    }
    if specs[0].kind.FullAttention? {
      var before := blocks;
      blocks := Truncate(l, specs[0], before, hit, longest);
      forall j | 0 < j < |specs| ensures Placed(l, specs[j], blocks, hit) {
        PlacedElsewhere(l, specs[j], specs[0].gids, before, blocks, hit);
      }
    }
  }

  lemma FirstKnown(l: Lookup, sg: SpecGroup, align: Pos, cap: nat, curr: nat, longest: nat, blocks: seq<seq<Id>>)
    requires FirstSeen(l, sg, align, cap, curr, longest, blocks)
    ensures longest == Longest(l, [sg], align, cap) && curr <= longest
    ensures sg.kind.FullAttention? ==> Alone(l, sg, align, curr) && Placed(l, sg, blocks, longest)
  {}

  lemma AgreedAll(l: Lookup, specs: seq<SpecGroup>, align: Pos, cap: nat, len: nat, blocks: seq<seq<Id>>)
    requires specs != [] && Longest(l, specs, align, cap) <= len <= cap && Agreed(l, specs, align, |specs|, len, blocks)
    ensures len == Longest(l, specs, align, cap)
    ensures forall j :: 0 <= j < |specs| && specs[j].kind.Mamba? ==> Placed(l, specs[j], blocks, len)
  {
    hide Alone, Placed;
    AllAgree(l, specs, align, cap, len);
  }
}
