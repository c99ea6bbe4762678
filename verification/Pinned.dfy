/**
 * A prefix hit is pinned before anything can evict it: after a granted allocation every kept
 * hit block is filed as before and is none of the blocks taken from the queue.
 */
module Pinned {
  import opened Basics
  import opened PoolSpec
  import opened PoolInv
  import opened PoolCounts
  import opened TypeSpec
  import opened TypeInv
  import opened TypeAlloc
  import opened ManagerSpec
  import opened ManagerInv
  import opened Admission

  /** Block `b` reads the same and is filed under the same keys. */
  ghost predicate Unevicted(p: Pool, q: Pool, b: Id) {
    && At(q, b).hash == At(p, b).hash
    && forall k :: Contain(q.cached, k, b) <==> Contain(p.cached, k, b)
  }

  lemma HeldStays(p: Pool, n: nat, b: Id)
    requires Inv(p) && n <= |p.free| && p.caching && 0 < b < |p.meta| && p.meta[b].ref > 0
    ensures b !in p.free[..n] && At(GetNew(p, n).0, b) == At(p, b) && Unevicted(p, GetNew(p, n).0, b)
  {
    GetNewOk(p, n);
    GetNewUnreachable(p, n);
  }

  /** Allocation leaves a held block alone and appends other blocks only. */
  ghost predicate Appends(t: Tm, u: Tm, slot: Slot, out: seq<Id>, b: Id) {
    && u.numCached == t.numCached && u.group == t.group
    && |Blocks(u, slot)| >= |Blocks(t, slot)|
    && Blocks(u, slot)[..|Blocks(t, slot)|] == Blocks(t, slot)
    && b !in Blocks(u, slot)[|Blocks(t, slot)|..] && b !in out
  }

  lemma AppendsOk(t: Tm, u: Tm, slot: Slot, w: seq<Id>, ids: seq<Id>, out: seq<Id>, b: Id)
    requires u.numCached == t.numCached && u.group == t.group && Blocks(u, slot) == w + ids
    requires Blocks(t, slot) <= w && b !in w[|Blocks(t, slot)|..] && b !in ids && b !in out
    ensures Appends(t, u, slot, out, b)
  {
    var n := |Blocks(t, slot)|;
    assert (w + ids)[..n] == Blocks(t, slot);
    assert (w + ids)[n..] == w[n..] + ids;
  }

  lemma FullPins(p: Pool, t: Tm, slot: Slot, tokens: nat, main: nat, b: Id)
    requires Inv(p) && TmInv(p, t) && t.group.kind.FullAttention? && Wanted(t, slot, tokens, main) <= |p.free|
    requires p.caching && 0 < b < |p.meta| && p.meta[b].ref > 0
    ensures Unevicted(p, AllocFull(p, t, slot, tokens).pool, b) && At(AllocFull(p, t, slot, tokens).pool, b) == At(p, b)
    ensures Appends(t, AllocFull(p, t, slot, tokens).tm, slot, AllocFull(p, t, slot, tokens).out, b)
  {
    hide Inv, Wanted, AllocFull, GetNew, TmInv, Unevicted, Appends;
    var n := Wanted(t, slot, tokens, main);
    AllocFullShape(p, t, slot, tokens, main);
    HeldStays(p, n, b);
    AppendsOk(t, AllocFull(p, t, slot, tokens).tm, slot, Blocks(t, slot), p.free[..n], p.free[..n], b);
  }

  lemma MambaAppends(t: Tm, slot: Slot, need: nat, ids: seq<Id>, b: Id)
    requires slot !in t.allocatedReqs && b !in ids && b != NULL
    ensures var u := MambaFilled(MambaGrown(t, slot, need), slot, ids);
      Appends(t, u, slot, Slice(Blocks(u, slot), |Blocks(t, slot)|, |Blocks(u, slot)|), b)
  {
    hide MambaFilled, MambaGrown, Appends;
    MambaShape(t, slot, need, ids);
    var u := MambaFilled(MambaGrown(t, slot, need), slot, ids);
    var w := MambaTable(t, slot, need) + ids;
    var n := |Blocks(t, slot)|;
    assert w[n..] == MambaTable(t, slot, need)[n..] + ids;
    AppendsOk(t, u, slot, MambaTable(t, slot, need), ids, Slice(w, n, |w|), b);
  }

  lemma MambaPins(p: Pool, t: Tm, slot: Slot, tokens: nat, main: nat, b: Id)
    requires Inv(p) && TmInv(p, t) && t.group.kind.Mamba? && main > 0 && Wanted(t, slot, tokens, main) <= |p.free|
    requires slot !in t.allocatedReqs && p.caching && 0 < b < |p.meta| && p.meta[b].ref > 0
    ensures Unevicted(p, AllocMamba(p, t, slot, main).pool, b) && At(AllocMamba(p, t, slot, main).pool, b) == At(p, b)
    ensures Appends(t, AllocMamba(p, t, slot, main).tm, slot, AllocMamba(p, t, slot, main).out, b)
  {
    hide Inv, GetNew, MambaTable, Appends, MambaFilled;
    var need := CDiv(main, Bs(t)) + t.group.numSpec;
    if need > |Blocks(t, slot)| {
      var n := Wanted(t, slot, tokens, main);
      HeldStays(p, n, b);
      MambaAppends(t, slot, need, p.free[..n], b);
    } else {
      assert Appends(t, TouchEntry(t, slot), slot, [], b) by { StaysAppends(t, slot, b); }
    }
  }

  lemma StaysAppends(t: Tm, slot: Slot, b: Id)
    ensures Appends(t, TouchEntry(t, slot), slot, [], b)
  {}

  lemma AllocPins(p: Pool, t: Tm, slot: Slot, tokens: nat, main: nat, b: Id)
    requires Inv(p) && TmInv(p, t) && main > 0 && Wanted(t, slot, tokens, main) <= |p.free|
    requires slot !in t.allocatedReqs && p.caching && 0 < b < |p.meta| && p.meta[b].ref > 0
    ensures var s := Alloc(p, t, slot, tokens, main);
      Unevicted(p, s.pool, b) && At(s.pool, b) == At(p, b) && Appends(t, s.tm, slot, s.out, b)
  {
    if t.group.kind.Mamba? { MambaPins(p, t, slot, tokens, main, b); } else { FullPins(p, t, slot, tokens, main, b); }
  }

  lemma {:induction false} GrowPins(slot: Slot, tokens: nat, main: nat, p: Pool, ts: seq<Tm>, i: nat,
                                    outs: seq<seq<nat>>, b: Id)
    requires GInv(p, ts) && i <= |ts| && main > 0 && WantedFrom(ts, slot, tokens, main, i) <= |p.free|
    requires forall j :: i <= j < |ts| ==> slot !in ts[j].allocatedReqs
    requires forall j :: 0 <= j < |outs| ==> b !in outs[j]
    requires p.caching && 0 < b < |p.meta| && p.meta[b].ref > 0
    ensures var f := FanOut(Grow(slot, tokens, main), p, ts, i, outs);
      && Unevicted(p, f.pool, b) && |f.tms| == |ts|
      && (forall j :: i <= j < |ts| ==> Appends(ts[j], f.tms[j], slot, [], b))
      && (forall j :: 0 <= j < i ==> f.tms[j] == ts[j])
      && (forall j :: 0 <= j < |f.outs| ==> b !in f.outs[j])
    decreases |ts| - i
  {
    hide Inv, Counted, TmInv, Wanted, Alloc, Keeps;
    if i < |ts| {
      AllocOk(p, ts[i], slot, tokens, main);
      AllocPins(p, ts[i], slot, tokens, main, b);
      var s := Do(Grow(slot, tokens, main), p, ts[i]);
      var us := ts[i := s.tm];
      GroupStep(p, ts, i, s.pool, s.tm, slot);
      WantedFromSame(ts, us, slot, tokens, main, i + 1);
      GrowPins(slot, tokens, main, s.pool, us, i + 1, outs + [s.out], b);
      var f := FanOut(Grow(slot, tokens, main), p, ts, i, outs);
      forall j | i <= j < |ts| ensures Appends(ts[j], f.tms[j], slot, [], b) {
        if j > i { assert Appends(us[j], f.tms[j], slot, [], b); } else { assert f.tms[j] == us[j]; }
      }
      forall j | 0 <= j < i ensures f.tms[j] == ts[j] { assert f.tms[j] == us[j]; }
    }
  }

  lemma {:induction false} CacheFullPins(p: Pool, blocks: seq<Id>, hashes: seq<Digest>, stride: nat,
                                         from: nat, to: nat, bs: nat, group: nat, b: Id)
    requires Inv(p) && InRange(p, blocks) && forall i :: from <= i < |blocks| ==> blocks[i] != b
    ensures Unevicted(p, CacheFull(p, blocks, hashes, stride, from, to, bs, group), b)
    decreases Monus(to, from)
  {
    if from < to {
      var k := KeyAt(hashes, stride, group, from);
      if from < |blocks| && k.Some? {
        assert blocks[from] in blocks;
        var q := CacheOne(p, blocks[from], k.value, (from + 1) * bs);
        CacheOneOk(p, blocks[from], k.value, (from + 1) * bs);
        SameCountsInv(p, q);
        CacheFullPins(q, blocks, hashes, stride, from + 1, to, bs, group, b);
      } else {
        CacheFullPins(p, blocks, hashes, stride, from + 1, to, bs, group, b);
      }
    }
  }

  /** Nothing beyond the cached count of this slot is `b`. */
  ghost predicate Past(t: Tm, slot: Slot, b: Id) {
    forall i :: NumCached(t, slot) <= i < |Blocks(t, slot)| ==> Blocks(t, slot)[i] != b
  }

  lemma {:induction false} FilePins(slot: Slot, hashes: seq<Digest>, hb: Pos, tokens: nat, p: Pool, ts: seq<Tm>, i: nat,
                                    outs: seq<seq<nat>>, b: Id)
    requires GInv(p, ts) && i <= |ts| && forall j :: i <= j < |ts| ==> Past(ts[j], slot, b)
    ensures Unevicted(p, FanOut(File(slot, hashes, hb, tokens), p, ts, i, outs).pool, b)
    ensures |FanOut(File(slot, hashes, hb, tokens), p, ts, i, outs).tms| == |ts|
    ensures forall j :: 0 <= j < |ts| ==>
              Blocks(FanOut(File(slot, hashes, hb, tokens), p, ts, i, outs).tms[j], slot) == Blocks(ts[j], slot)
    decreases |ts| - i
  {
    hide Inv, Counted, CacheBlocks, CacheFull, Keeps;
    if i < |ts| {
      var t := ts[i];
      var stride := t.group.blockSize / hb;
      CacheShape(p, t, slot, hashes, stride, tokens);
      CacheBlocksOk(p, t, slot, hashes, stride, tokens);
      TableRange(p, t, slot);
      CacheFullPins(p, Blocks(t, slot), hashes, stride, NumCached(t, slot), tokens / Bs(t), t.group.blockSize,
                    t.group.id, b);
      var s := Do(File(slot, hashes, hb, tokens), p, t);
      var us := ts[i := s.tm];
      GroupStep(p, ts, i, s.pool, s.tm, slot);
      FilePins(slot, hashes, hb, tokens, s.pool, us, i + 1, outs + [s.out], b);
      var f := FanOut(File(slot, hashes, hb, tokens), p, ts, i, outs);
      forall j | 0 <= j < |ts| ensures Blocks(f.tms[j], slot) == Blocks(ts[j], slot) {
        assert Blocks(f.tms[j], slot) == Blocks(us[j], slot);
      }
    }
  }

  /** The hit blocks of group `g` that `allocate_slots` keeps. */
  function KeptHit(s: State, c: Call, g: nat): seq<Id>
    requires g < |s.tms|
  {
    Kept(s.tms[g], HitOf(CallHits(s, c), g), c.computed + c.newComputed)
  }

  /** A kept hit behind the nulls that stand for what is skipped. */
  function Padded(t: Tm, hit: seq<Id>, computed: nat): seq<Id> {
    Repeat<Id>(NULL, SkippedBlocks(t, computed)) + Kept(t, hit, computed)
  }

  lemma {:induction false} HolderHeld(p: Pool, ts: seq<Tm>, g: nat, slot: Slot, b: Id)
    requires GInv(p, ts) && g < |ts| && b in Blocks(ts[g], slot) && b != NULL
    ensures 0 < b < |p.meta| && p.meta[b].ref > 0
  {
    assert TmInv(p, ts[g]);
    TableRange(p, ts[g], slot);
    HoldersSplit(ts[g], slot);
    HeldAtLeast(ts, g);
    assert multiset(Blocks(ts[g], slot))[b] > 0;
    assert Holders(ts[g])[b] <= HeldAll(ts)[b];
    assert p.meta[b].ref == HeldAll(ts)[b];
  }

  lemma PastAppended(t: Tm, u: Tm, slot: Slot, b: Id)
    requires Appends(t, u, slot, [], b) && NumCached(t, slot) == |Blocks(t, slot)|
    ensures Past(u, slot, b)
  {
    var n := |Blocks(t, slot)|;
    forall i | n <= i < |Blocks(u, slot)| ensures Blocks(u, slot)[i] != b {
      assert Blocks(u, slot)[i] == Blocks(u, slot)[n..][i - n];
    }
  }

  /** The request's tables hold exactly its hit, all of it counted as cached. */
  ghost predicate JustHit(ts: seq<Tm>, slot: Slot) {
    forall j :: 0 <= j < |ts| ==> slot !in ts[j].allocatedReqs && NumCached(ts[j], slot) == |Blocks(ts[j], slot)|
  }

  lemma AddPins(slot: Slot, hits: seq<seq<Id>>, computed: nat, p: Pool, ts: seq<Tm>, g: nat, b: Id)
    requires GInv(p, ts) && Blank(ts, slot) && HitsExist(p, hits) && p.caching
    requires g < |ts| && b in Kept(ts[g], HitOf(hits, g), computed) && b != NULL
    ensures var f := All(Add(slot, hits, computed), p, ts);
      && |f.tms| == |ts| && JustHit(f.tms, slot) && Blocks(f.tms[g], slot) == Padded(ts[g], HitOf(hits, g), computed)
      && b in Blocks(f.tms[g], slot) && 0 < b < |f.pool.meta| && f.pool.meta[b].ref > 0
  {
    hide Inv, Counted, FanOut, HitsExist, SameHashes, OnlySlots, EvictableFrom, Kept, SkippedBlocks;
    AddOk(slot, hits, computed, p, ts, 0, []);
    AddTables(slot, hits, computed, p, ts, 0, []);
    var f := All(Add(slot, hits, computed), p, ts);
    assert ts[g].group.id == g;
    assert f.tms[g] == AddTm(ts[g], slot, HitOf(hits, g), computed);
    AddTmShape(ts[g], slot, HitOf(hits, g), computed);
    HolderHeld(f.pool, f.tms, g, slot, b);
    forall j | 0 <= j < |f.tms| ensures slot !in f.tms[j].allocatedReqs {
      assert TmInv(p, ts[j]) && Blocks(ts[j], slot) == [];
      assert f.tms[j] == AddTm(ts[j], slot, HitOf(hits, ts[j].group.id), computed);
    }
  }

  lemma GrownPast(ts: seq<Tm>, us: seq<Tm>, slot: Slot, g: nat, b: Id)
    requires JustHit(ts, slot) && |us| == |ts| && g < |ts| && b in Blocks(ts[g], slot)
    requires forall j :: 0 <= j < |ts| ==> Appends(ts[j], us[j], slot, [], b)
    ensures forall j :: 0 <= j < |us| ==> Past(us[j], slot, b)
    ensures Blocks(ts[g], slot) <= Blocks(us[g], slot) && b in Blocks(us[g], slot)
  {
    forall j | 0 <= j < |us| ensures Past(us[j], slot, b) {
      assert Appends(ts[j], us[j], slot, [], b);
      PastAppended(ts[j], us[j], slot, b);
    }
    assert Appends(ts[g], us[g], slot, [], b);
    assert b in Blocks(us[g], slot)[..|Blocks(ts[g], slot)|];
  }

  /** Growing and filing the tables of a request that just took its hit. */
  lemma GrowFilePins(slot: Slot, tokens: nat, main: nat, hashes: seq<Digest>, hb: Pos, cache: nat,
                     p: Pool, ts: seq<Tm>, g: nat, b: Id)
    requires GInv(p, ts) && main > 0 && WantedFrom(ts, slot, tokens, main, 0) <= |p.free| && p.caching
    requires JustHit(ts, slot) && g < |ts| && b in Blocks(ts[g], slot) && 0 < b < |p.meta| && p.meta[b].ref > 0
    ensures var f3 := All(Grow(slot, tokens, main), p, ts);
      var f4 := All(File(slot, hashes, hb, cache), f3.pool, f3.tms);
      && |f4.tms| == |ts| && Blocks(ts[g], slot) <= Blocks(f4.tms[g], slot) && b in Blocks(f4.tms[g], slot)
      && Unevicted(p, f4.pool, b)
      && forall j :: 0 <= j < |f3.outs| ==> b !in f3.outs[j]
  {
    GrowPins(slot, tokens, main, p, ts, 0, [], b);
    GrowOk(slot, tokens, main, p, ts, 0, []);
    var f3 := All(Grow(slot, tokens, main), p, ts);
    GrownPast(ts, f3.tms, slot, g, b);
    FilePins(slot, hashes, hb, cache, f3.pool, f3.tms, 0, [], b);
  }

  lemma PinPhases(s: State, c: Call, f1: Fan, g: nat, b: Id)
    requires GInv(f1.pool, f1.tms) && CallHits(s, c) != [] && Blank(f1.tms, c.slot) && f1.pool.caching
    requires HitsExist(f1.pool, CallHits(s, c)) && c.newTokens > 0 && Admits(s, c, f1)
    requires g < |f1.tms| && b in Kept(f1.tms[g], HitOf(CallHits(s, c), g), c.computed + c.newComputed) && b != NULL
    ensures var f2 := All(Add(c.slot, CallHits(s, c), c.computed + c.newComputed), f1.pool, f1.tms);
      var f3 := All(Grow(c.slot, NeedTokens(s, c), MainTokens(s, c)), f2.pool, f2.tms);
      var f4 := All(File(c.slot, Hashes(s, c.slot), s.cfg.hashBlock,
                         Cacheable(s.cfg, Min(MainTokens(s, c), c.reqTokens))), f3.pool, f3.tms);
      && SameHashes(f1.pool, f2.pool)
      && |f4.tms| == |f1.tms| && b in Blocks(f4.tms[g], c.slot) && Unevicted(f2.pool, f4.pool, b)
      && Padded(f1.tms[g], HitOf(CallHits(s, c), g), c.computed + c.newComputed) <= Blocks(f4.tms[g], c.slot)
      && forall j :: 0 <= j < |f3.outs| ==> b !in f3.outs[j]
  {
    hide GInv, FanOut, HitsExist, Kept, SkippedBlocks, JustHit, Unevicted, Admits, Blank, WantedFrom, NeedTokens,
         CallHits;
    FitsHit(s, c, f1);
    AddPins(c.slot, CallHits(s, c), c.computed + c.newComputed, f1.pool, f1.tms, g, b);
    var f2 := All(Add(c.slot, CallHits(s, c), c.computed + c.newComputed), f1.pool, f1.tms);
    GrowFilePins(c.slot, NeedTokens(s, c), MainTokens(s, c), Hashes(s, c.slot), s.cfg.hashBlock,
                 Cacheable(s.cfg, Min(MainTokens(s, c), c.reqTokens)), f2.pool, f2.tms, g, b);
  }

  lemma UnevictedTrans(p: Pool, q: Pool, r: Pool, b: Id)
    requires SameHashes(p, q) && Unevicted(q, r, b)
    ensures Unevicted(p, r, b)
  {}

  /** A granted allocation with a hit, phase by phase. */
  lemma GrantedShape(s: State, c: Call)
    requires AllocateSlots(s, c).1.Granted? && CallHits(s, c) != [] && s.cfg.caching
    requires !AnyCached(All(Skip(c.slot, Total(s, c)), s.pool, s.tms).tms, c.slot)
    ensures var f1 := All(Skip(c.slot, Total(s, c)), s.pool, s.tms);
      var f2 := All(Add(c.slot, CallHits(s, c), c.computed + c.newComputed), f1.pool, f1.tms);
      var f3 := All(Grow(c.slot, NeedTokens(s, c), MainTokens(s, c)), f2.pool, f2.tms);
      var f4 := All(File(c.slot, Hashes(s, c.slot), s.cfg.hashBlock,
                         Cacheable(s.cfg, Min(MainTokens(s, c), c.reqTokens))), f3.pool, f3.tms);
      && Admits(s, c, f1) && AllocateSlots(s, c).1 == Granted(f3.outs)
      && AllocateSlots(s, c).0.pool == f4.pool && AllocateSlots(s, c).0.tms == f4.tms
  {
    hide FanOut, Admits;
  }

  /** After a granted allocation the request's table begins with its kept hit, none of whose blocks
      was taken from the queue, and each is still indexed under exactly the keys it had. */
  lemma HitIsPinned(s: State, c: Call, g: nat, b: Id)
    requires StateInv(s) && CallOk(s, c) && c.newTokens > 0 && CallHits(s, c) != []
    requires AllocateSlots(s, c).1.Granted?
    requires g < |s.tms| && b in KeptHit(s, c, g) && b != NULL
    ensures |AllocateSlots(s, c).0.tms| == |s.tms| && b in Blocks(AllocateSlots(s, c).0.tms[g], c.slot)
    ensures Padded(s.tms[g], HitOf(CallHits(s, c), g), c.computed + c.newComputed)
         <= Blocks(AllocateSlots(s, c).0.tms[g], c.slot)
    ensures Unevicted(s.pool, AllocateSlots(s, c).0.pool, b)
    ensures forall j :: 0 <= j < |AllocateSlots(s, c).1.blocks| ==> b !in AllocateSlots(s, c).1.blocks[j]
  {
    hide AllocateSlots, GInv, FanOut, Admits, HitsExist, Unevicted, OnlySlots, NoneGained, SameHashes;
    SkipAllOk(s, c);
    SkipShapes(c.slot, Total(s, c), s.pool, s.tms, 0, []);
    var f1 := All(Skip(c.slot, Total(s, c)), s.pool, s.tms);
    assert SameShape(s.tms[g], f1.tms[g], c.slot);
    assert KeptHit(s, c, g) == Kept(f1.tms[g], HitOf(CallHits(s, c), g), c.computed + c.newComputed);
    assert !AnyCached(f1.tms, c.slot);
    GrantedShape(s, c);
    PinPhases(s, c, f1, g, b);
    var f2 := All(Add(c.slot, CallHits(s, c), c.computed + c.newComputed), f1.pool, f1.tms);
    UnevictedTrans(f1.pool, f2.pool, AllocateSlots(s, c).0.pool, b);
    UnevictedTrans(s.pool, f1.pool, AllocateSlots(s, c).0.pool, b);
  }
}
