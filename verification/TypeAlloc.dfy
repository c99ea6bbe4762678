/** Allocation and caching on one group's tables: counts kept, and never more than the estimate. */
module TypeAlloc {
  import opened Basics
  import opened PoolSpec
  import opened PoolInv
  import opened PoolCounts
  import opened TypeSpec
  import opened TypeInv

  // ---- prefix hits ------------------------------------------------------------------

  lemma {:induction false} EvictableConcat(p: Pool, a: seq<Id>, b: seq<Id>)
    ensures NumEvictable(p, a + b) == NumEvictable(p, a) + NumEvictable(p, b)
  {
    if a == [] {
      assert a + b == b;
    } else {
      EvictableConcat(p, a[1..], b);
      assert (a + b)[1..] == a[1..] + b;
    }
  }

  lemma KeptEvictable(p: Pool, t: Tm, hit: seq<Id>, computed: nat)
    ensures NumEvictable(p, Kept(t, hit, computed)) <= NumEvictable(p, hit)
    ensures InRange(p, hit) ==> InRange(p, Kept(t, hit, computed))
  {
    var n := SkippedBlocks(t, computed);
    if n < |hit| {
      assert hit == hit[..n] + hit[n..];
      EvictableConcat(p, hit[..n], hit[n..]);
      assert forall b :: b in hit[n..] ==> b in hit;
    }
  }

  /** The tables after a hit has been added. */
  function AddTm(t: Tm, slot: Slot, hit: seq<Id>, computed: nat): Tm {
    var v := Blocks(t, slot) + Repeat<Id>(NULL, SkippedBlocks(t, computed)) + Kept(t, hit, computed);
    SetBlocks(t, slot, v).(numCached := t.numCached[slot := |v|])
  }

  lemma AddLocalShape(p: Pool, t: Tm, slot: Slot, hit: seq<Id>, computed: nat)
    requires (p.caching || hit == []) && Touch(p, Kept(t, hit, computed)).1
    ensures AddLocal(p, t, slot, hit, computed)
         == Step(Touch(p, Kept(t, hit, computed)).0, AddTm(t, slot, hit, computed), true, [])
  {
    hide NumEvictable, Blocks, SkippedBlocks;
    assert !p.caching ==> Kept(t, hit, computed) == [];
  }

  lemma AddTmShape(t: Tm, slot: Slot, hit: seq<Id>, computed: nat)
    requires Blocks(t, slot) == []
    ensures OnlySlot(t, AddTm(t, slot, hit, computed), slot)
    ensures Blocks(AddTm(t, slot, hit, computed), slot)
         == Repeat<Id>(NULL, SkippedBlocks(t, computed)) + Kept(t, hit, computed)
  {
    hide SkippedBlocks, Kept;
    assert [] + Repeat<Id>(NULL, SkippedBlocks(t, computed)) == Repeat<Id>(NULL, SkippedBlocks(t, computed));
  }

  /** Adding a hit to an empty table holds its kept blocks and takes at most the evictable ones. */
  lemma AddLocalOk(p: Pool, t: Tm, slot: Slot, hit: seq<Id>, computed: nat)
    requires Inv(p) && TmInv(p, t) && InRange(p, hit) && Blocks(t, slot) == []
    requires p.caching || hit == []
    ensures AddLocal(p, t, slot, hit, computed).ok
    ensures Keeps(p, t, AddLocal(p, t, slot, hit, computed).pool, AddLocal(p, t, slot, hit, computed).tm, slot)
    ensures SameHashes(p, AddLocal(p, t, slot, hit, computed).pool)
    ensures Moved(p, AddLocal(p, t, slot, hit, computed).pool, multiset(Kept(t, hit, computed)), multiset{})
    ensures AddLocal(p, t, slot, hit, computed).tm == AddTm(t, slot, hit, computed)
    ensures |AddLocal(p, t, slot, hit, computed).pool.free| >= |p.free| - NumEvictable(p, hit)
  {
    hide Inv, Touch, AddTm, NumEvictable, SkippedBlocks, Kept, Keeps, Moved;
    KeptEvictable(p, t, hit, computed);
    TouchOk(p, Kept(t, hit, computed));
    AddLocalShape(p, t, slot, hit, computed);
    AddTmShape(t, slot, hit, computed);
    NullsOnly(SkippedBlocks(t, computed));
    InvParts(p);
    assert slot !in t.allocatedReqs;
    Extended(p, t, Touch(p, Kept(t, hit, computed)).0, AddTm(t, slot, hit, computed), slot,
             Repeat<Id>(NULL, SkippedBlocks(t, computed)), Kept(t, hit, computed));
  }

  // ---- new blocks -------------------------------------------------------------------

  lemma GetNewNone(p: Pool)
    ensures GetNew(p, 0).0 == p
  {
    assert p.free[0..] == p.free;
  }

  lemma AllocFullShape(p: Pool, t: Tm, slot: Slot, tokens: nat, main: nat)
    requires t.group.kind.FullAttention? && Wanted(t, slot, tokens, main) <= |p.free|
    ensures AllocFull(p, t, slot, tokens).ok
    ensures AllocFull(p, t, slot, tokens).pool == GetNew(p, Wanted(t, slot, tokens, main)).0
    ensures AllocFull(p, t, slot, tokens).out == p.free[..Wanted(t, slot, tokens, main)]
    ensures Blocks(AllocFull(p, t, slot, tokens).tm, slot) == Blocks(t, slot) + AllocFull(p, t, slot, tokens).out
    ensures OnlySlot(t, AllocFull(p, t, slot, tokens).tm, slot)
    ensures AllocFull(p, t, slot, tokens).tm.numCached == t.numCached
    ensures AllocFull(p, t, slot, tokens).tm.allocatedReqs == t.allocatedReqs
  {
    hide GetNew;
    if Wanted(t, slot, tokens, main) == 0 { GetNewNone(p); }
  }

  lemma AllocFullOk(p: Pool, t: Tm, slot: Slot, tokens: nat, main: nat)
    requires Inv(p) && TmInv(p, t) && t.group.kind.FullAttention? && Wanted(t, slot, tokens, main) <= |p.free|
    ensures AllocFull(p, t, slot, tokens).ok
    ensures Keeps(p, t, AllocFull(p, t, slot, tokens).pool, AllocFull(p, t, slot, tokens).tm, slot)
    ensures AllocFull(p, t, slot, tokens).pool.free == p.free[Wanted(t, slot, tokens, main)..]
  {
    var n := Wanted(t, slot, tokens, main);
    AllocFullShape(p, t, slot, tokens, main);
    GetNewOk(p, n);
    TableRange(p, t, slot);
    assert slot !in t.allocatedReqs;
    Extended(p, t, GetNew(p, n).0, AllocFull(p, t, slot, tokens).tm, slot, Blocks(t, slot), p.free[..n]);
  }

  lemma {:induction false} RecycleMultiset(v: seq<Id>, i: nat, end: nat, skipped: nat)
    requires end <= |v|
    ensures forall b: Id :: b != NULL ==> multiset(Recycle(v, i, end, skipped))[b] == multiset(v)[b]
    ensures forall b :: b in Recycle(v, i, end, skipped) ==> b in v || b == NULL
    decreases Monus(end, i)
  {
    if i < end && i < skipped {
      var w := (v + [v[i]])[i := NULL];
      assert multiset(w) == multiset(v + [v[i]]) - multiset{v[i]} + multiset{NULL};
      RecycleMultiset(w, i + 1, end, skipped);
    }
  }

  /** Padding and recycling move live blocks within the table without adding or losing one. */
  lemma MambaTableMultiset(p: Pool, t: Tm, slot: Slot, need: nat)
    requires NullOk(p) && TmInv(p, t)
    ensures forall b: Id :: b != NULL ==> multiset(MambaTable(t, slot, need))[b] == multiset(Blocks(t, slot))[b]
    ensures InRange(p, MambaTable(t, slot, need))
  {
    hide Recycle, TmInv;
    var v := Blocks(t, slot);
    var skipped := Monus(need, t.group.numSpec + 1);
    var pad := Repeat<Id>(NULL, Monus(skipped, |v|));
    NullsOnly(Monus(skipped, |v|));
    TableRange(p, t, slot);
    if slot in t.allocatedReqs {
      RecycleMultiset(v + pad, Monus(|v|, t.group.numSpec), |v|, skipped);
    }
  }

  /** Exactly one block is taken for a request that has its state, at most one plus the
      speculative ones otherwise. */
  lemma MambaWanted(p: Pool, t: Tm, slot: Slot, tokens: nat, main: nat)
    requires TmInv(p, t) && t.group.kind.Mamba? && main > 0
    requires CDiv(main, Bs(t)) + t.group.numSpec > |Blocks(t, slot)|
    ensures |MambaTable(t, slot, CDiv(main, Bs(t)) + t.group.numSpec)| < CDiv(main, Bs(t)) + t.group.numSpec
    ensures slot in t.allocatedReqs ==> Wanted(t, slot, tokens, main) == 1
    ensures slot !in t.allocatedReqs ==> Wanted(t, slot, tokens, main) <= 1 + t.group.numSpec
  {
    CDivBounds(main, Bs(t));
  }

  lemma MambaShape(t: Tm, slot: Slot, need: nat, ids: seq<Id>)
    requires slot in t.allocatedReqs ==> HasState(t, slot)
    ensures var w := MambaFilled(MambaGrown(t, slot, need), slot, ids);
      && OnlySlot(t, w, slot) && Blocks(w, slot) == MambaTable(t, slot, need) + ids
      && w.allocatedReqs == t.allocatedReqs + {slot} && w.lastState == MambaLastState(t, slot)
      && |MambaTable(t, slot, need)| >= |Blocks(t, slot)| && w.numCached == t.numCached
  {}

  lemma AllocMambaOk(p: Pool, t: Tm, slot: Slot, tokens: nat, main: nat)
    requires Inv(p) && TmInv(p, t) && t.group.kind.Mamba? && main > 0 && Wanted(t, slot, tokens, main) <= |p.free|
    ensures AllocMamba(p, t, slot, main).ok
    ensures Keeps(p, t, AllocMamba(p, t, slot, main).pool, AllocMamba(p, t, slot, main).tm, slot)
    ensures AllocMamba(p, t, slot, main).pool.free == p.free[Wanted(t, slot, tokens, main)..]
  {
    hide Keeps, TouchEntry, Inv, TmInv, MambaTable, MambaFilled, Moved;
    var n := Wanted(t, slot, tokens, main);
    var need := CDiv(main, Bs(t)) + t.group.numSpec;
    if need > |Blocks(t, slot)| {
      MambaWanted(p, t, slot, tokens, main);
      GetNewOk(p, n);
      MambaFills(p, t, slot, need, n);
    } else {
      TouchEntryOk(p, t, slot);
      assert p.free[0..] == p.free;
    }
  }

  lemma MambaFills(p: Pool, t: Tm, slot: Slot, need: nat, n: nat)
    requires Inv(p) && TmInv(p, t) && t.group.kind.Mamba? && n <= |p.free| && need > t.group.numSpec
    requires |MambaTable(t, slot, need)| + n == need
    ensures Keeps(p, t, GetNew(p, n).0, MambaFilled(MambaGrown(t, slot, need), slot, p.free[..n]), slot)
  {
    MambaShape(t, slot, need, p.free[..n]);
    MambaTableMultiset(p, t, slot, need);
    GetNewOk(p, n);
    Extended(p, t, GetNew(p, n).0, MambaFilled(MambaGrown(t, slot, need), slot, p.free[..n]), slot,
             MambaTable(t, slot, need), p.free[..n]);
  }

  /** `allocate_new_blocks` succeeds whenever the queue holds what it wants, and takes exactly that. */
  lemma AllocOk(p: Pool, t: Tm, slot: Slot, tokens: nat, main: nat)
    requires Inv(p) && TmInv(p, t) && main > 0 && Wanted(t, slot, tokens, main) <= |p.free|
    ensures Alloc(p, t, slot, tokens, main).ok
    ensures Keeps(p, t, Alloc(p, t, slot, tokens, main).pool, Alloc(p, t, slot, tokens, main).tm, slot)
    ensures Alloc(p, t, slot, tokens, main).pool.free == p.free[Wanted(t, slot, tokens, main)..]
  {
    if t.group.kind.Mamba? { AllocMambaOk(p, t, slot, tokens, main); } else { AllocFullOk(p, t, slot, tokens, main); }
  }

  // ---- the estimate -----------------------------------------------------------------

  /** The estimate covers what allocating wants of a request without a hit... */
  lemma EstimateCovers(p: Pool, t: Tm, slot: Slot, tokens: nat, main: nat)
    requires TmInv(p, t) && main > 0
    ensures Wanted(t, slot, tokens, main) <= Estimate(p, t, slot, tokens, [], main)
  {
    if t.group.kind.Mamba? && CDiv(main, Bs(t)) + t.group.numSpec > |Blocks(t, slot)| {
      MambaWanted(p, t, slot, tokens, main);
    }
  }

  /** ...and with one, touching the hit as well as what allocating wants after it. */
  lemma EstimateCoversHit(p: Pool, t: Tm, slot: Slot, tokens: nat, hit: seq<Id>, computed: nat, main: nat)
    requires TmInv(p, t) && main > 0 && Blocks(t, slot) == [] && slot !in t.numCached
    requires Estimate(p, t, slot, tokens, hit, main) <= |p.meta|
    ensures NumEvictable(p, hit) + Wanted(AddTm(t, slot, hit, computed), slot, tokens, main)
         <= Estimate(p, t, slot, tokens, hit, main)
  {
    var u := AddTm(t, slot, hit, computed);
    assert |Blocks(u, slot)| >= |hit|;
    assert slot !in t.allocatedReqs;
  }

  // ---- caching ----------------------------------------------------------------------

  lemma CacheShape(p: Pool, t: Tm, slot: Slot, hashes: seq<Digest>, stride: nat, tokens: nat)
    ensures OnlySlot(t, CacheBlocks(p, t, slot, hashes, stride, tokens).1, slot)
    ensures CacheBlocks(p, t, slot, hashes, stride, tokens).1.allocatedReqs == t.allocatedReqs
    ensures Blocks(CacheBlocks(p, t, slot, hashes, stride, tokens).1, slot) == Blocks(t, slot)
    ensures CacheBlocks(p, t, slot, hashes, stride, tokens).0
         == CacheFull(p, Blocks(t, slot), hashes, stride, NumCached(t, slot), tokens / Bs(t), t.group.blockSize,
                      t.group.id)
  {}

  lemma CacheBlocksOk(p: Pool, t: Tm, slot: Slot, hashes: seq<Digest>, stride: nat, tokens: nat)
    requires Inv(p) && TmInv(p, t)
    ensures Keeps(p, t, CacheBlocks(p, t, slot, hashes, stride, tokens).0,
                        CacheBlocks(p, t, slot, hashes, stride, tokens).1, slot)
    ensures SameCounts(p, CacheBlocks(p, t, slot, hashes, stride, tokens).0)
    ensures Blocks(CacheBlocks(p, t, slot, hashes, stride, tokens).1, slot) == Blocks(t, slot)
  {
    hide CacheFull, StepKeys;
    TableRange(p, t, slot);
    CacheShape(p, t, slot, hashes, stride, tokens);
    CacheFullOk(p, Blocks(t, slot), hashes, stride, NumCached(t, slot), tokens / Bs(t), t.group.blockSize, t.group.id);
    Unchanged(p, t, CacheBlocks(p, t, slot, hashes, stride, tokens).0,
              CacheBlocks(p, t, slot, hashes, stride, tokens).1, slot);
  }

  lemma Unchanged(p: Pool, t: Tm, q: Pool, u: Tm, slot: Slot)
    requires TmInv(p, t) && Inv(q) && SameCounts(p, q) && OnlySlot(t, u, slot)
    requires Blocks(u, slot) == Blocks(t, slot) && u.allocatedReqs == t.allocatedReqs
    ensures Keeps(p, t, q, u, slot)
  {
    TableRange(p, t, slot);
    assert Blocks(t, slot) + [] == Blocks(t, slot);
    Extended(p, t, q, u, slot, Blocks(t, slot), []);
  }

  lemma CommonPrefixOk(p: Pool, t: Tm, slot: Slot)
    requires Inv(p) && TmInv(p, t)
    ensures Keeps(p, t, p, CommonEntry(t, slot), slot)
    ensures Blocks(CommonEntry(t, slot), slot) == Blocks(t, slot)
  {
    Unchanged(p, t, p, CommonEntry(t, slot), slot);
  }
}
