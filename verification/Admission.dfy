/**
 * Admission is all-or-nothing: once the estimate fits the queue, neither holding the hit nor
 * taking new blocks can fail, and the watermark stays free; a refusal adds no holder.
 */
module Admission {
  import opened Basics
  import opened PoolSpec
  import opened PoolInv
  import opened PoolCounts
  import opened TypeSpec
  import opened TypeInv
  import opened TypeAlloc
  import opened ManagerSpec
  import opened ManagerInv

  // ---- giving skipped blocks back ---------------------------------------------------

  /** No count rises, no hash changes. */
  lemma {:induction false} SkipGives(slot: Slot, total: nat, p: Pool, ts: seq<Tm>, i: nat, outs: seq<seq<nat>>)
    requires GInv(p, ts) && i <= |ts|
    ensures NoneGained(p, FanOut(Skip(slot, total), p, ts, i, outs).pool)
    ensures SameHashes(p, FanOut(Skip(slot, total), p, ts, i, outs).pool)
    decreases |ts| - i
  {
    hide Inv, Counted, TmInv, RemoveSkipped;
    if i < |ts| {
      GroupCovered(p, ts, i);
      RemoveSkippedOk(p, ts[i], slot, total);
      var s := Do(Skip(slot, total), p, ts[i]);
      GroupStep(p, ts, i, s.pool, s.tm, slot);
      SkipGives(slot, total, s.pool, ts[i := s.tm], i + 1, outs + [s.out]);
    }
  }

  lemma {:induction false} SkipShapes(slot: Slot, total: nat, p: Pool, ts: seq<Tm>, i: nat, outs: seq<seq<nat>>)
    requires i <= |ts|
    ensures |FanOut(Skip(slot, total), p, ts, i, outs).tms| == |ts|
    ensures forall j :: 0 <= j < |ts| ==> SameShape(ts[j], FanOut(Skip(slot, total), p, ts, i, outs).tms[j], slot)
    decreases |ts| - i
  {
    if i < |ts| {
      RemoveSkippedShape(p, ts[i], slot, total);
      var s := Do(Skip(slot, total), p, ts[i]);
      var us := ts[i := s.tm];
      SkipShapes(slot, total, s.pool, us, i + 1, outs + [s.out]);
      forall j | 0 <= j < |ts| ensures SameShape(ts[j], FanOut(Skip(slot, total), p, ts, i, outs).tms[j], slot) {
        assert SameShape(us[j], FanOut(Skip(slot, total), p, ts, i, outs).tms[j], slot);
      }
    }
  }

  // ---- holding the hit --------------------------------------------------------------

  function EvictableFrom(p: Pool, ts: seq<Tm>, hits: seq<seq<Id>>, i: nat): nat
    requires i <= |ts|
    decreases |ts| - i
  {
    if i == |ts| then 0 else NumEvictable(p, HitOf(hits, ts[i].group.id)) + EvictableFrom(p, ts, hits, i + 1)
  }

  lemma {:induction false} EvictableFromFalls(p: Pool, q: Pool, ts: seq<Tm>, us: seq<Tm>, hits: seq<seq<Id>>, i: nat)
    requires i <= |ts| == |us| && forall j :: i <= j < |ts| ==> us[j] == ts[j]
    requires forall b :: At(q, b).isNull == At(p, b).isNull
    requires forall b :: !At(p, b).isNull ==> At(q, b).ref >= At(p, b).ref >= 0
    ensures EvictableFrom(q, us, hits, i) <= EvictableFrom(p, ts, hits, i)
    decreases |ts| - i
  {
    if i < |ts| {
      EvictableFalls(p, q, HitOf(hits, ts[i].group.id));
      EvictableFromFalls(p, q, ts, us, hits, i + 1);
    }
  }

  /** The hit blocks exist. */
  ghost predicate HitsExist(p: Pool, hits: seq<seq<Id>>) {
    forall g :: 0 <= g < |hits| ==> InRange(p, hits[g])
  }

  lemma {:induction false} AddOk(slot: Slot, hits: seq<seq<Id>>, computed: nat, p: Pool, ts: seq<Tm>, i: nat,
                                 outs: seq<seq<nat>>)
    requires GInv(p, ts) && i <= |ts| && HitsExist(p, hits) && p.caching
    requires forall j :: i <= j < |ts| ==> Blocks(ts[j], slot) == []
    ensures var f := FanOut(Add(slot, hits, computed), p, ts, i, outs);
      && f.ok && GInv(f.pool, f.tms) && OnlySlots(ts, f.tms, slot) && SameHashes(p, f.pool)
      && |f.pool.free| >= |p.free| - EvictableFrom(p, ts, hits, i)
    decreases |ts| - i
  {
    hide Inv, Counted, TmInv, AddLocal, Keeps, AddTm, Moved, NumEvictable;
    if i < |ts| {
      var hit := HitOf(hits, ts[i].group.id);
      assert InRange(p, hit);
      GroupTables(p, ts, i);
      AddLocalOk(p, ts[i], slot, hit, computed);
      var s := Do(Add(slot, hits, computed), p, ts[i]);
      var us := ts[i := s.tm];
      GroupStep(p, ts, i, s.pool, s.tm, slot);
      AddOk(slot, hits, computed, s.pool, us, i + 1, outs + [s.out]);
      KeepsOnly(p, ts[i], s.pool, s.tm, slot);
      OnlySlotsStep(ts, i, s.tm, FanOut(Add(slot, hits, computed), p, ts, i, outs).tms, slot);
      InvParts(p);
      MoreHeld(p, s.pool, multiset(Kept(ts[i], hit, computed)));
      EvictableFromFalls(p, s.pool, ts, us, hits, i + 1);
    } else {
      OnlySlotsRefl(ts, slot);
    }
  }

  /** The tables after the hit has been added in every group from `i` on. */
  lemma {:induction false} AddTables(slot: Slot, hits: seq<seq<Id>>, computed: nat, p: Pool, ts: seq<Tm>, i: nat,
                                     outs: seq<seq<nat>>)
    requires GInv(p, ts) && i <= |ts| && HitsExist(p, hits) && p.caching
    requires forall j :: i <= j < |ts| ==> Blocks(ts[j], slot) == []
    ensures var f := FanOut(Add(slot, hits, computed), p, ts, i, outs);
      |f.tms| == |ts| && forall j :: 0 <= j < |ts| ==>
        f.tms[j] == if j < i then ts[j] else AddTm(ts[j], slot, HitOf(hits, ts[j].group.id), computed)
    decreases |ts| - i
  {
    hide Inv, Counted, TmInv, AddLocal, Keeps, AddTm;
    if i < |ts| {
      var hit := HitOf(hits, ts[i].group.id);
      assert InRange(p, hit);
      GroupTables(p, ts, i);
      AddLocalOk(p, ts[i], slot, hit, computed);
      var s := Do(Add(slot, hits, computed), p, ts[i]);
      GroupStep(p, ts, i, s.pool, s.tm, slot);
      AddTables(slot, hits, computed, s.pool, ts[i := s.tm], i + 1, outs + [s.out]);
    }
  }

  // ---- taking new blocks ------------------------------------------------------------

  function WantedFrom(ts: seq<Tm>, slot: Slot, tokens: nat, main: nat, i: nat): nat
    requires i <= |ts|
    decreases |ts| - i
  {
    if i == |ts| then 0 else Wanted(ts[i], slot, tokens, main) + WantedFrom(ts, slot, tokens, main, i + 1)
  }

  lemma {:induction false} WantedFromSame(ts: seq<Tm>, us: seq<Tm>, slot: Slot, tokens: nat, main: nat, i: nat)
    requires i <= |ts| == |us| && forall j :: i <= j < |ts| ==> us[j] == ts[j]
    ensures WantedFrom(us, slot, tokens, main, i) == WantedFrom(ts, slot, tokens, main, i)
    decreases |ts| - i
  {
    if i < |ts| { WantedFromSame(ts, us, slot, tokens, main, i + 1); }
  }

  lemma {:induction false} GrowOk(slot: Slot, tokens: nat, main: nat, p: Pool, ts: seq<Tm>, i: nat, outs: seq<seq<nat>>)
    requires GInv(p, ts) && i <= |ts| && main > 0
    requires WantedFrom(ts, slot, tokens, main, i) <= |p.free|
    ensures var f := FanOut(Grow(slot, tokens, main), p, ts, i, outs);
      && f.ok && GInv(f.pool, f.tms) && OnlySlots(ts, f.tms, slot) && f.pool.caching == p.caching
      && f.pool.free == p.free[WantedFrom(ts, slot, tokens, main, i)..]
      && |f.outs| == |outs| + |ts| - i
    decreases |ts| - i
  {
    hide Inv, Counted, TmInv, Wanted, Alloc, Keeps;
    if i < |ts| {
      var w := Wanted(ts[i], slot, tokens, main);
      AllocOk(p, ts[i], slot, tokens, main);
      var s := Do(Grow(slot, tokens, main), p, ts[i]);
      var us := ts[i := s.tm];
      GroupStep(p, ts, i, s.pool, s.tm, slot);
      WantedFromSame(ts, us, slot, tokens, main, i + 1);
      GrowOk(slot, tokens, main, s.pool, us, i + 1, outs + [s.out]);
      OnlySlotsStep(ts, i, s.tm, FanOut(Grow(slot, tokens, main), p, ts, i, outs).tms, slot);
      assert p.free[w..][WantedFrom(us, slot, tokens, main, i + 1)..]
          == p.free[WantedFrom(ts, slot, tokens, main, i)..];
    } else {
      assert p.free[0..] == p.free;
    }
  }

  // ---- the estimate covers both -----------------------------------------------------

  lemma {:induction false} CoversPlain(p: Pool, ts: seq<Tm>, slot: Slot, tokens: nat, main: nat, i: nat)
    requires TablesOk(p, ts) && i <= |ts| && main > 0
    ensures WantedFrom(ts, slot, tokens, main, i) <= EstimateFrom(p, ts, slot, tokens, [], main, i)
    decreases |ts| - i
  {
    if i < |ts| {
      assert TmInv(p, ts[i]);
      EstimateCovers(p, ts[i], slot, tokens, main);
      CoversPlain(p, ts, slot, tokens, main, i + 1);
    }
  }

  lemma {:induction false} CoversHit(p: Pool, ts: seq<Tm>, us: seq<Tm>, slot: Slot, tokens: nat, hits: seq<seq<Id>>,
                                     computed: nat, main: nat, i: nat)
    requires TablesOk(p, ts) && i <= |ts| == |us| && main > 0
    requires forall j :: 0 <= j < |ts| ==> Blocks(ts[j], slot) == [] && slot !in ts[j].numCached
    requires forall j :: 0 <= j < |ts| ==> us[j] == AddTm(ts[j], slot, HitOf(hits, ts[j].group.id), computed)
    requires EstimateFrom(p, ts, slot, tokens, hits, main, i) <= |p.meta|
    ensures EvictableFrom(p, ts, hits, i) + WantedFrom(us, slot, tokens, main, i)
         <= EstimateFrom(p, ts, slot, tokens, hits, main, i)
    decreases |ts| - i
  {
    if i < |ts| {
      assert TmInv(p, ts[i]);
      EstimateCoversHit(p, ts[i], slot, tokens, HitOf(hits, ts[i].group.id), computed, main);
      CoversHit(p, ts, us, slot, tokens, hits, computed, main, i + 1);
    }
  }

  // ---- allocate_slots ---------------------------------------------------------------

  ghost predicate StateInv(s: State) {
    && GInv(s.pool, s.tms) && ConfigOk(s.cfg) && s.pool.caching == s.cfg.caching
    && |s.tms| == |s.cfg.groups| && (forall i :: 0 <= i < |s.tms| ==> s.tms[i].group == s.cfg.groups[i])
    && |s.pending| == |s.cfg.groups|
  }

  /** The slot has no table and no cached count in any group. */
  ghost predicate Blank(ts: seq<Tm>, slot: Slot) {
    forall i :: 0 <= i < |ts| ==> Blocks(ts[i], slot) == [] && slot !in ts[i].numCached
  }

  /** What a caller that passes a pending hit must respect: the request holds nothing yet, and
      the hit names blocks of the pool. */
  ghost predicate CallOk(s: State, c: Call) {
    CallHits(s, c) != [] ==> Blank(s.tms, c.slot) && HitsExist(s.pool, CallHits(s, c)) && s.cfg.caching
  }

  lemma FreeBound(p: Pool)
    requires Inv(p)
    ensures |p.free| <= |p.meta|
  {
    DistinctBound(p.free, |p.meta|);
  }

  lemma {:induction false} DistinctBound(s: seq<Id>, n: nat)
    requires forall b: Id :: multiset(s)[b] <= if b < n then 1 else 0
    ensures |s| <= n
    decreases n
  {
    if n == 0 {
      assert multiset(s) == multiset{};
    } else {
      var last: Id := n - 1;
      RemoveFirstMultiset(s, last);
      DistinctBound(RemoveFirst(s, last), n - 1);
    }
  }

  lemma AdmitsCovers(s: State, c: Call, f: Fan)
    requires GInv(f.pool, f.tms) && Admits(s, c, f)
    ensures EstimateFrom(f.pool, f.tms, c.slot, NeedTokens(s, c), CallHits(s, c), MainTokens(s, c), 0) <= |f.pool.meta|
  {
    FreeBound(f.pool);
  }

  lemma FitsPlain(s: State, c: Call, f1: Fan)
    requires c.newTokens > 0 && GInv(f1.pool, f1.tms) && Admits(s, c, f1) && CallHits(s, c) == []
    ensures WantedFrom(f1.tms, c.slot, NeedTokens(s, c), MainTokens(s, c), 0) + Watermark(s, c) <= |f1.pool.free|
  {
    CoversPlain(f1.pool, f1.tms, c.slot, NeedTokens(s, c), MainTokens(s, c), 0);
  }

  lemma FitsHit(s: State, c: Call, f1: Fan)
    requires c.newTokens > 0 && GInv(f1.pool, f1.tms) && Admits(s, c, f1)
    requires Blank(f1.tms, c.slot) && HitsExist(f1.pool, CallHits(s, c)) && f1.pool.caching
    ensures var f2 := All(Add(c.slot, CallHits(s, c), c.computed + c.newComputed), f1.pool, f1.tms);
      && f2.ok && GInv(f2.pool, f2.tms) && OnlySlots(f1.tms, f2.tms, c.slot) && SameHashes(f1.pool, f2.pool)
      && WantedFrom(f2.tms, c.slot, NeedTokens(s, c), MainTokens(s, c), 0) + Watermark(s, c) <= |f2.pool.free|
  {
    hide FanOut, AddTm, EstimateFrom, EvictableFrom, WantedFrom, Inv, Counted, HitsExist, SameHashes, OnlySlots;
    AdmitsCovers(s, c, f1);
    var hits := CallHits(s, c);
    var computed := c.computed + c.newComputed;
    AddOk(c.slot, hits, computed, f1.pool, f1.tms, 0, []);
    AddTables(c.slot, hits, computed, f1.pool, f1.tms, 0, []);
    CoversHit(f1.pool, f1.tms, All(Add(c.slot, hits, computed), f1.pool, f1.tms).tms, c.slot,
              NeedTokens(s, c), hits, computed, MainTokens(s, c), 0);
  }

  /** Holding the hit and then taking new blocks fit the queue and leave the watermark. */
  lemma AdmittedFits(s: State, c: Call, f1: Fan)
    requires c.newTokens > 0 && GInv(f1.pool, f1.tms) && Admits(s, c, f1)
    requires CallHits(s, c) != [] ==> Blank(f1.tms, c.slot) && HitsExist(f1.pool, CallHits(s, c)) && f1.pool.caching
    ensures var f2 := AddAll(f1.pool, f1.tms, c, CallHits(s, c));
      && f2.ok && GInv(f2.pool, f2.tms) && OnlySlots(f1.tms, f2.tms, c.slot) && SameHashes(f1.pool, f2.pool)
      && WantedFrom(f2.tms, c.slot, NeedTokens(s, c), MainTokens(s, c), 0) + Watermark(s, c) <= |f2.pool.free|
  {
    hide FanOut, EstimateFrom, WantedFrom, GInv, HitsExist, Admits;
    if CallHits(s, c) == [] {
      FitsPlain(s, c, f1);
    } else {
      assert !AnyCached(f1.tms, c.slot);
      FitsHit(s, c, f1);
    }
  }

  lemma SkipBlank(ts: seq<Tm>, us: seq<Tm>, slot: Slot)
    requires Blank(ts, slot) && |us| == |ts| && forall j :: 0 <= j < |ts| ==> SameShape(ts[j], us[j], slot)
    ensures Blank(us, slot)
  {
    forall j | 0 <= j < |us| ensures Blocks(us[j], slot) == [] && slot !in us[j].numCached {
      assert SameShape(ts[j], us[j], slot);
      assert Blocks(ts[j], slot) == [];
    }
  }

  /** After giving back skipped blocks: everything still consistent, no holder gained. */
  lemma SkipAllOk(s: State, c: Call)
    requires StateInv(s) && CallOk(s, c)
    ensures var f1 := All(Skip(c.slot, Total(s, c)), s.pool, s.tms);
      && GInv(f1.pool, f1.tms) && OnlySlots(s.tms, f1.tms, c.slot) && f1.pool.caching == s.pool.caching
      && NoneGained(s.pool, f1.pool) && SameHashes(s.pool, f1.pool)
      && (CallHits(s, c) != [] ==> Blank(f1.tms, c.slot) && HitsExist(f1.pool, CallHits(s, c)) && f1.pool.caching)
  {
    var f1 := All(Skip(c.slot, Total(s, c)), s.pool, s.tms);
    PlainOk(Skip(c.slot, Total(s, c)), s.pool, s.tms, 0, []);
    SkipGives(c.slot, Total(s, c), s.pool, s.tms, 0, []);
    SkipShapes(c.slot, Total(s, c), s.pool, s.tms, 0, []);
    if CallHits(s, c) != [] { SkipBlank(s.tms, f1.tms, c.slot); }
  }

  /** A successful admission: what the three phases leave behind, before caching. */
  lemma GrantedOk(s: State, c: Call)
    requires StateInv(s) && CallOk(s, c) && c.newTokens > 0
    requires Admits(s, c, All(Skip(c.slot, Total(s, c)), s.pool, s.tms))
    ensures var f1 := All(Skip(c.slot, Total(s, c)), s.pool, s.tms);
      var f2 := AddAll(f1.pool, f1.tms, c, CallHits(s, c));
      var f3 := All(Grow(c.slot, NeedTokens(s, c), MainTokens(s, c)), f2.pool, f2.tms);
      && f2.ok && f3.ok && GInv(f3.pool, f3.tms) && f3.pool.caching == s.pool.caching
      && OnlySlots(f1.tms, f2.tms, c.slot) && OnlySlots(f2.tms, f3.tms, c.slot)
      && |f3.pool.free| >= Watermark(s, c) && |f3.outs| == |s.tms|
  {
    hide FanOut, Admits, Blank, HitsExist, NoneGained;
    SkipAllOk(s, c);
    var f1 := All(Skip(c.slot, Total(s, c)), s.pool, s.tms);
    AdmittedFits(s, c, f1);
    var f2 := AddAll(f1.pool, f1.tms, c, CallHits(s, c));
    GrowOk(c.slot, NeedTokens(s, c), MainTokens(s, c), f2.pool, f2.tms, 0, []);
  }

  lemma OnlySlotsTrans(ts: seq<Tm>, us: seq<Tm>, vs: seq<Tm>, slot: Slot)
    requires OnlySlots(ts, us, slot) && OnlySlots(us, vs, slot)
    ensures OnlySlots(ts, vs, slot)
  {
    forall i | 0 <= i < |ts| ensures OnlySlot(ts[i], vs[i], slot) {
      assert OnlySlot(ts[i], us[i], slot) && OnlySlot(us[i], vs[i], slot);
    }
  }

  /** The state differs in this slot's tables and the pool only. */
  ghost predicate OnlySlotState(s: State, r: State, slot: Slot) {
    OnlySlots(s.tms, r.tms, slot) && r == s.(pool := r.pool, tms := r.tms, hitLen := r.hitLen)
  }

  lemma CacheAllOk(s: State, slot: Slot, tokens: nat)
    requires StateInv(s)
    ensures StateInv(CacheAll(s, slot, tokens)) && OnlySlotState(s, CacheAll(s, slot, tokens), slot)
    ensures |CacheAll(s, slot, tokens).pool.free| >= |s.pool.free|
    ensures CacheAll(s, slot, tokens).hitLen == s.hitLen
  {
    if s.cfg.caching {
      PlainOk(File(slot, Hashes(s, slot), s.cfg.hashBlock, Cacheable(s.cfg, tokens)), s.pool, s.tms, 0, []);
      GroupsKept(s, CacheAll(s, slot, tokens), slot);
    }
  }

  lemma GroupsKept(s: State, r: State, slot: Slot)
    requires StateInv(s) && GInv(r.pool, r.tms) && OnlySlotState(s, r, slot) && r.pool.caching == s.pool.caching
    ensures StateInv(r)
  {
    forall i | 0 <= i < |r.tms| ensures r.tms[i].group == r.cfg.groups[i] {
      assert OnlySlot(s.tms[i], r.tms[i], slot);
      assert s.tms[i].group == s.cfg.groups[i];
    }
  }

  /**
   * `allocate_slots` never fails on a reachable state: it refuses exactly when the estimate
   * plus the watermark exceeds the queue, and otherwise grants with the watermark still free.
   */
  lemma AllOrNothing(s: State, c: Call)
    requires StateInv(s) && CallOk(s, c) && c.newTokens > 0
    ensures StateInv(AllocateSlots(s, c).0) && OnlySlotState(s, AllocateSlots(s, c).0, c.slot)
    ensures AllocateSlots(s, c).0.hitLen == s.hitLen
    ensures !AllocateSlots(s, c).1.Failed?
    ensures AllocateSlots(s, c).1.Granted? <==> Admits(s, c, All(Skip(c.slot, Total(s, c)), s.pool, s.tms))
    ensures AllocateSlots(s, c).1.Granted? ==> |AllocateSlots(s, c).0.pool.free| >= Watermark(s, c)
    ensures AllocateSlots(s, c).1.Granted? && c.others && c.status in {WAITING, PREEMPTED}
            ==> |AllocateSlots(s, c).0.pool.free| >= s.cfg.watermark
    ensures AllocateSlots(s, c).1.Refused? ==> NoneGained(s.pool, AllocateSlots(s, c).0.pool)
  {
    hide FanOut, Admits, SameHashes, NoneGained, Blank, HitsExist, CacheAll;
    SkipAllOk(s, c);
    var f1 := All(Skip(c.slot, Total(s, c)), s.pool, s.tms);
    if !Admits(s, c, f1) {
      GroupsKept(s, s.(pool := f1.pool, tms := f1.tms), c.slot);
    } else {
      GrantedOk(s, c);
      var f2 := AddAll(f1.pool, f1.tms, c, CallHits(s, c));
      var f3 := All(Grow(c.slot, NeedTokens(s, c), MainTokens(s, c)), f2.pool, f2.tms);
      OnlySlotsTrans(s.tms, f1.tms, f2.tms, c.slot);
      OnlySlotsTrans(s.tms, f2.tms, f3.tms, c.slot);
      var s3 := s.(pool := f3.pool, tms := f3.tms);
      GroupsKept(s, s3, c.slot);
      CacheAllOk(s3, c.slot, Min(MainTokens(s, c), c.reqTokens));
      OnlySlotsTrans(s.tms, f3.tms, CacheAll(s3, c.slot, Min(MainTokens(s, c), c.reqTokens)).tms, c.slot);
    }
  }
}
