/**
 * A refusal means what it says: the estimate is not only enough, it is what the call would really
 * take, so `allocate_slots` refuses exactly when the blocks of the hit that have to leave the queue,
 * the new blocks and the watermark together exceed the queue, or when the hit ends in a state that
 * was only cached in this step.
 */
module Refusals {
  import opened Basics
  import opened PoolSpec
  import opened PoolInv
  import opened PoolCounts
  import opened TypeSpec
  import opened TypeInv
  import opened TypeAlloc
  import opened ManagerSpec
  import opened ManagerInv
  import opened Admission
  import opened GrantLeaves

  /** Without a hit the estimate is exactly what allocating takes, but for the speculative blocks of a
      mamba request that has no state yet. */
  lemma EstimateExact(p: Pool, t: Tm, slot: Slot, tokens: nat, main: nat)
    requires TmInv(p, t) && main > 0
    ensures var e, w := Estimate(p, t, slot, tokens, [], main), Wanted(t, slot, tokens, main);
      && w <= e <= w + (if t.group.kind.Mamba? then t.group.numSpec else 0)
      && (t.group.kind.FullAttention? || slot in t.allocatedReqs ==> e == w)
  {
    hide CDiv;
    if t.group.kind.Mamba? && CDiv(main, Bs(t)) + t.group.numSpec > |Blocks(t, slot)| {
      MambaWanted(p, t, slot, tokens, main);
    }
  }

  /** The hit ends in a state that was cached in this step. */
  predicate TooFresh(p: Pool, t: Tm, hit: seq<Id>) {
    && t.group.kind.Mamba? && hit != []
    && At(p, hit[|hit| - 1]).hash.Some? && At(p, hit[|hit| - 1]).hash.value in t.cachedThisStep
  }

  /** With one it is exactly what holding the hit and allocating behind it take; a hit that may not be
      used yet exceeds any pool. */
  lemma EstimateHitExact(p: Pool, t: Tm, slot: Slot, tokens: nat, hit: seq<Id>, computed: nat, main: nat)
    requires TmInv(p, t) && main > 0 && Blocks(t, slot) == [] && slot !in t.numCached
    requires SkippedBlocks(t, computed) <= |hit|
    ensures TooFresh(p, t, hit) ==> Estimate(p, t, slot, tokens, hit, main) > |p.meta|
    ensures !TooFresh(p, t, hit) ==>
              var e := Estimate(p, t, slot, tokens, hit, main);
              var w := NumEvictable(p, hit) + Wanted(AddTm(t, slot, hit, computed), slot, tokens, main);
              w <= e <= w + (if t.group.kind.Mamba? then t.group.numSpec else 0)
  {
    hide CDiv, SkippedBlocks;
    var u := AddTm(t, slot, hit, computed);
    assert |Blocks(u, slot)| == |hit|;
    assert slot !in t.allocatedReqs;
  }

  // ---- all groups -------------------------------------------------------------------

  ghost predicate NoSpec(ts: seq<Tm>) {
    forall i :: 0 <= i < |ts| ==> ts[i].group.kind.Mamba? ==> ts[i].group.numSpec == 0
  }

  lemma {:induction false} PlainExact(p: Pool, ts: seq<Tm>, slot: Slot, tokens: nat, main: nat, i: nat)
    requires TablesOk(p, ts) && i <= |ts| && main > 0 && NoSpec(ts)
    ensures EstimateFrom(p, ts, slot, tokens, [], main, i) == WantedFrom(ts, slot, tokens, main, i)
    decreases |ts| - i
  {
    hide TmInv, Estimate, Wanted;
    if i < |ts| {
      assert TmInv(p, ts[i]);
      EstimateExact(p, ts[i], slot, tokens, main);
      PlainExact(p, ts, slot, tokens, main, i + 1);
    }
  }

  /** Some group may not use its hit yet. */
  ghost predicate AnyFresh(p: Pool, ts: seq<Tm>, hits: seq<seq<Id>>, i: nat) {
    exists j :: i <= j < |ts| && TooFresh(p, ts[j], HitOf(hits, ts[j].group.id))
  }

  lemma {:induction false} HitExact(p: Pool, ts: seq<Tm>, us: seq<Tm>, slot: Slot, tokens: nat, hits: seq<seq<Id>>,
                                    computed: nat, main: nat, i: nat)
    requires TablesOk(p, ts) && i <= |ts| == |us| && main > 0 && NoSpec(ts) && Blank(ts, slot)
    requires forall j :: 0 <= j < |ts| ==> us[j] == AddTm(ts[j], slot, HitOf(hits, ts[j].group.id), computed)
    requires forall j :: 0 <= j < |ts| ==> SkippedBlocks(ts[j], computed) <= |HitOf(hits, ts[j].group.id)|
    ensures AnyFresh(p, ts, hits, i) ==> EstimateFrom(p, ts, slot, tokens, hits, main, i) > |p.meta|
    ensures !AnyFresh(p, ts, hits, i) ==>
              EstimateFrom(p, ts, slot, tokens, hits, main, i)
              == EvictableFrom(p, ts, hits, i) + WantedFrom(us, slot, tokens, main, i)
    decreases |ts| - i
  {
    hide TmInv, Estimate, Wanted, AddTm, TooFresh, SkippedBlocks;
    if i < |ts| {
      assert TmInv(p, ts[i]) && Blocks(ts[i], slot) == [];
      EstimateHitExact(p, ts[i], slot, tokens, HitOf(hits, ts[i].group.id), computed, main);
      HitExact(p, ts, us, slot, tokens, hits, computed, main, i + 1);
      if AnyFresh(p, ts, hits, i) && !TooFresh(p, ts[i], HitOf(hits, ts[i].group.id)) {
        var j :| i <= j < |ts| && TooFresh(p, ts[j], HitOf(hits, ts[j].group.id));
        assert i + 1 <= j;
      }
    }
  }

  // ---- the call ---------------------------------------------------------------------

  /** What has to stay free. */
  function Reserve(s: State, c: Call): nat {
    if c.others && (c.status == WAITING || c.status == PREEMPTED) then s.cfg.watermark else 0
  }

  /** The tables with the hit in. */
  function TablesWithHit(ts: seq<Tm>, c: Call, hits: seq<seq<Id>>): (us: seq<Tm>)
    ensures |us| == |ts|
  {
    if hits == [] then ts
    else
      seq(|ts|, j requires 0 <= j < |ts| =>
        AddTm(ts[j], c.slot, HitOf(hits, ts[j].group.id), c.computed + c.newComputed))
  }

  /** What the call would take from the queue of a pool: idle blocks of the hit, and new blocks. */
  function Takes(s: State, c: Call, p: Pool, ts: seq<Tm>): nat {
    (if CallHits(s, c) == [] then 0 else EvictableFrom(p, ts, CallHits(s, c), 0))
    + WantedFrom(TablesWithHit(ts, c, CallHits(s, c)), c.slot, Holds(s, c), Computes(s, c), 0)
  }

  /** The hit is as long as the tokens it stands for, in every group. */
  ghost predicate HitFits(s: State, c: Call) {
    CallHits(s, c) != [] ==> forall g :: 0 <= g < |s.tms| ==>
      SkippedBlocks(s.tms[g], c.computed + c.newComputed) <= |HitOf(CallHits(s, c), g)|
  }

  /**
   * Without speculative blocks `allocate_slots` grants exactly when, once skipped blocks have been
   * given back, what the call takes and the reserve fit the queue and the hit may be used.
   */
  lemma GrantsExactly(s: State, c: Call)
    requires StateInv(s) && CallOk(s, c) && c.newTokens > 0 && NoSpec(s.tms) && HitFits(s, c)
    ensures var f := All(Skip(c.slot, Min(c.computed + c.newComputed, s.cfg.maxModelLen)), s.pool, s.tms);
      AllocateSlots(s, c).1.Granted? <==>
        Takes(s, c, f.pool, f.tms) + Reserve(s, c) <= |f.pool.free| && !AnyFresh(f.pool, f.tms, CallHits(s, c), 0)
  {
    hide AllocateSlots, FanOut, Inv, Counted, ConfigOk, HitsExist, NoneGained, EstimateFrom, WantedFrom, EvictableFrom,
         AddTm, SkippedBlocks, AnyFresh, Blank;
    AllOrNothing(s, c);
    SkipAllOk(s, c);
    SkipShapes(c.slot, Total(s, c), s.pool, s.tms, 0, []);
    var f := All(Skip(c.slot, Total(s, c)), s.pool, s.tms);
    var hits := CallHits(s, c);
    SameNoSpec(s.tms, f.tms, c.slot);
    if hits == [] {
      PlainExact(f.pool, f.tms, c.slot, NeedTokens(s, c), MainTokens(s, c), 0);
      NothingFresh(f.pool, f.tms);
    } else {
      SameSkips(s, c, f);
      HitExact(f.pool, f.tms, TablesWithHit(f.tms, c, hits), c.slot, NeedTokens(s, c), hits, c.computed + c.newComputed,
               MainTokens(s, c), 0);
      FreeBound(f.pool);
    }
  }

  lemma SameNoSpec(ts: seq<Tm>, us: seq<Tm>, slot: Slot)
    requires NoSpec(ts) && |us| == |ts| && forall j :: 0 <= j < |ts| ==> SameShape(ts[j], us[j], slot)
    ensures NoSpec(us)
  {
    forall j | 0 <= j < |us| ensures us[j].group == ts[j].group { assert SameShape(ts[j], us[j], slot); }
  }

  lemma NothingFresh(p: Pool, ts: seq<Tm>)
    ensures !AnyFresh(p, ts, [], 0)
  {}

  lemma SameSkips(s: State, c: Call, f: Fan)
    requires StateInv(s) && HitFits(s, c) && CallHits(s, c) != [] && |f.tms| == |s.tms|
    requires forall j :: 0 <= j < |s.tms| ==> SameShape(s.tms[j], f.tms[j], c.slot)
    ensures forall j :: 0 <= j < |f.tms| ==>
              SkippedBlocks(f.tms[j], c.computed + c.newComputed) <= |HitOf(CallHits(s, c), f.tms[j].group.id)|
  {
    forall j | 0 <= j < |f.tms|
      ensures SkippedBlocks(f.tms[j], c.computed + c.newComputed) <= |HitOf(CallHits(s, c), f.tms[j].group.id)|
    {
      GroupTables(s.pool, s.tms, j);
      assert SameShape(s.tms[j], f.tms[j], c.slot);
      SameSkip(s.tms[j], f.tms[j], [], c.computed + c.newComputed);
    }
  }
}
