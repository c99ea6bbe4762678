/**
 * `Coordinator` (coordinator.rs): the groups' managers over one pool. Each operation visits the
 * groups in order and performs the `ManagerSpec` fan-out; the prefix-hit lookup iterates to a
 * fixed point and is proved to find the greatest length every group can resume from.
 */
module Coordinators {
  import opened Basics
  import opened PoolSpec
  import opened PoolInv
  import opened TypeSpec
  import opened TypeInv
  import opened TypeAlloc
  import opened HitSpec
  import opened HitLookup
  import opened HybridHit
  import opened ManagerSpec
  import opened ManagerInv
  import opened Admission
  import opened Journal
  import opened FreeQueue
  import opened BlockPools
  import opened TypeManagers

  /** What an operation demands of the group it is applied to. */
  ghost predicate OpOk(op: Op, p: Pool, t: Tm) {
    match op
    case Add(slot, hits, _) =>
      Blocks(t, slot) == [] && InRange(p, HitOf(hits, t.group.id)) && (p.caching || HitOf(hits, t.group.id) == [])
    case Grow(_, _, main) => main > 0
    case File(slot, hashes, hb, tokens) => Fileable(t, slot, hashes, t.group.blockSize / hb, tokens)
    case _ => true
  }

  class Coordinator {
    const cfg: Config
    const pool: BlockPool
    const managers: seq<TypeManager>
    var uncached: nat

    /** One manager per group, in group order. */
    ghost predicate Wired() {
      && ConfigOk(cfg) && pool.caching == cfg.caching && |managers| == |cfg.groups|
      && (forall i :: 0 <= i < |managers| ==> managers[i].group == cfg.groups[i])
    }

    ghost function Tms(): (r: seq<Tm>)
      reads managers
      ensures |r| == |managers| && forall i :: 0 <= i < |r| ==> r[i] == managers[i].St()
    {
      seq(|managers|, i requires 0 <= i < |managers| reads managers => managers[i].St())
    }

    ghost predicate Ready()
      reads pool, managers
    {
      Wired() && pool.Linked() && GInv(pool.St(), Tms())
    }

    /** What every operation does to the journal. */
    twostate predicate Recorded()
      reads pool, managers
    {
      && pool.journal.Some? == old(pool.journal.Some?)
      && (pool.journal.Some? ==> pool.Base() == old(pool.Base()))
      && (pool.journal.Some? ==> forall i :: 0 <= i < |managers| ==>
          managers[i].Base(pool) == old(managers[i].Base(pool)))
      && pool.Log(OwnComp) == old(pool.Log(OwnComp))
    }

    constructor (c: Config, numBlocks: nat)
      requires ConfigOk(c) && 0 < numBlocks && numBlocks + 2 <= NIL
      ensures cfg == c && Ready() && pool.St() == InitPool(c.caching, numBlocks) && pool.journal == None
      ensures uncached == 0 && |managers| == |c.groups|
      ensures forall i :: 0 <= i < |managers| ==> managers[i].St() == InitTm(c.groups[i])
      ensures fresh(pool) && forall i :: 0 <= i < |managers| ==> fresh(managers[i])
    {
      hide ConfigOk, GInv, InitPool, BlockPool.St, BlockPool.Linked, Inv;
      var ms := Empty(c.groups);
      var p := new BlockPool(numBlocks, c.caching);
      cfg, pool, managers, uncached := c, p, ms, 0;
      new;
      assert forall i :: 0 <= i < |managers| ==> managers[i].St() == InitTm(c.groups[i]);
      InitGroups(pool.St(), Tms(), c, numBlocks);
    }

    static method Empty(groups: seq<Group>) returns (ms: seq<TypeManager>)
      ensures |ms| == |groups|
      ensures forall j :: 0 <= j < |ms| ==> fresh(ms[j]) && ms[j].group == groups[j] && ms[j].St() == InitTm(groups[j])
    {
      ms := [];
      for i := 0 to |groups|
        invariant |ms| == i
        invariant forall j :: 0 <= j < i ==> fresh(ms[j]) && ms[j].group == groups[j] && ms[j].St() == InitTm(groups[j])
      {
        var m := new TypeManager(groups[i]);
        ms := ms + [m];
      }
    }

    lemma GroupReady(i: nat)
      requires Ready() && i < |managers|
      ensures managers[i].Ready(pool) && managers[i].group.id == i
    {
      GroupCovered(pool.St(), Tms(), i);
      GroupTables(pool.St(), Tms(), i);
    }

    /** One group's recorded step is a recorded step of the whole. */
    twostate lemma OneRecorded(i: nat)
      requires Wired() && i < |managers| && managers[i].Recorded(pool)
      requires forall j :: 0 <= j < |managers| && j != i ==> managers[j].St() == old(managers[j].St())
      ensures Recorded()
    {
      hide BlockPool.Base, BlockPool.Log, ReplayTm;
      forall j | 0 <= j < |managers|
        ensures pool.journal.Some? ==> managers[j].Base(pool) == old(managers[j].Base(pool))
      {
        assert managers[j].group.id == j;
      }
    }

    /** One operation on one group. */
    method Apply(op: Op, i: nat) returns (ok: bool, out: seq<nat>)
      requires Ready() && i < |managers| && OpOk(op, pool.St(), managers[i].St())
      modifies pool, managers[i]
      ensures pool.Linked()
      ensures Step(pool.St(), managers[i].St(), ok, out) == Do(op, old(pool.St()), old(managers[i].St()))
      ensures managers[i].Recorded(pool)
    {
      hide BlockPool.Base, BlockPool.Log, BlockPool.St, BlockPool.Linked, ReplayTm, GInv;
      GroupReady(i);
      pool.SameSwitch();
      ok, out := true, [];
      match op
      case Skip(slot, total) => managers[i].RemoveSkippedBlocks(pool, slot, total);
      case Release(slot) => managers[i].FreeSlot(pool, slot);
      case Add(slot, hits, computed) => ok := managers[i].AddLocalComputedBlocks(pool, slot, HitOf(hits, i), computed);
      case Grow(slot, tokens, main) => ok, out := managers[i].AllocateNewBlocks(pool, slot, tokens, main);
      case File(slot, hashes, hb, tokens) =>
        managers[i].CacheBlocks(pool, slot, hashes, managers[i].group.blockSize / hb, tokens);
      case Prefix(slot) =>
        var count := managers[i].CommonPrefixBlocks(pool, slot);
        out := [count];
      case StepStart => managers[i].NewStepStarts(pool);
    }

    /** One operation on one group, seen from the whole. */
    method Visit(op: Op, i: nat) returns (ok: bool, out: seq<nat>)
      requires Ready() && i < |managers| && OpOk(op, pool.St(), Tms()[i])
      modifies pool, managers[i]
      ensures pool.Linked() && (ok ==> Ready())
      ensures var s := Do(op, old(pool.St()), old(Tms())[i]);
        pool.St() == s.pool && Tms() == old(Tms())[i := s.tm] && ok == s.ok && out == s.out
      ensures Recorded()
    {
      hide BlockPool.Base, BlockPool.Log, BlockPool.St, BlockPool.Linked, TypeManager.St, TypeManager.Base, GInv, Do,
           OpOk, ConfigOk;
      OpKept(op, pool.St(), Tms(), i);
      ok, out := Apply(op, i);
      OthersSame(i);
      assert Tms() == old(Tms())[i := managers[i].St()];
      OneRecorded(i);
    }

    /** The groups in order, up to the first error. */
    method Each(op: Op) returns (ok: bool, outs: seq<seq<nat>>)
      requires Ready() && forall i :: 0 <= i < |managers| ==> OpOk(op, pool.St(), Tms()[i])
      modifies pool, managers
      ensures pool.Linked() && Fan(pool.St(), Tms(), ok, outs) == All(op, old(pool.St()), old(Tms()))
      ensures ok ==> Ready()
      ensures Recorded()
    {
      hide BlockPool.Base, BlockPool.Log, BlockPool.St, BlockPool.Linked, TypeManager.St, TypeManager.Base, GInv, Do,
           OpOk, ConfigOk;
      ghost var p, ts := pool.St(), Tms();
      outs := [];
      for i := 0 to |managers|
        invariant Ready() && FanOut(op, pool.St(), Tms(), i, outs) == All(op, p, ts)
        invariant forall j :: i <= j < |managers| ==> OpOk(op, pool.St(), Tms()[j])
        invariant Recorded()
      {
        OpKept(op, pool.St(), Tms(), i);
        var fine, out := Visit(op, i);
        if !fine { return false, outs; }
        outs := outs + [out];
      }
      ok := true;
    }

    // ---- admission ------------------------------------------------------------------

    /** `get_num_blocks_to_allocate`: the estimates of all groups. */
    method BlocksToAllocate(slot: Slot, tokens: nat, hits: seq<seq<Id>>, main: nat) returns (count: nat)
      requires Ready() && HitsExist(pool.St(), hits)
      ensures count == EstimateFrom(pool.St(), Tms(), slot, tokens, hits, main, 0)
    {
      hide BlockPool.St, BlockPool.Linked, TypeManager.St, GInv, Estimate, EstimateFrom, ConfigOk, HitsExist;
      ghost var p, ts := pool.St(), Tms();
      count := 0;
      EstimateNone(p, ts, slot, tokens, hits, main);
      for i := 0 to |managers|
        invariant count + EstimateFrom(p, ts, slot, tokens, hits, main, i)
            == EstimateFrom(p, ts, slot, tokens, hits, main, 0)
      {
        GroupTables(p, ts, i);
        HitExists(p, hits, i);
        EstimateOne(p, ts, slot, tokens, hits, main, i);
        var n := managers[i].BlocksToAllocate(pool, slot, tokens, HitOf(hits, i), main);
        count := count + n;
      }
    }

    /** Does some group track the request already? */
    method Tracked(slot: Slot) returns (b: bool)
      ensures b == AnyCached(Tms(), slot)
    {
      b := false;
      for i := 0 to |managers|
        invariant forall j :: 0 <= j < i ==> slot !in Tms()[j].numCached
      {
        if slot in managers[i].numCached {
          assert slot in Tms()[i].numCached;
          return true;
        }
      }
    }

    /** `allocate_new_computed_blocks`: hold the hit in every group. */
    method AddComputedBlocks(c: Call, hits: seq<seq<Id>>) returns (ok: bool)
      requires Ready()
      requires hits != [] && !AnyCached(Tms(), c.slot) ==>
                 Blank(Tms(), c.slot) && HitsExist(pool.St(), hits) && cfg.caching
      modifies pool, managers
      ensures pool.Linked() && Ready() && ok
      ensures var f := AddAll(old(pool.St()), old(Tms()), c, hits); pool.St() == f.pool && Tms() == f.tms && ok == f.ok
      ensures Recorded()
    {
      hide BlockPool.St, BlockPool.Linked, BlockPool.Base, BlockPool.Log, TypeManager.St, TypeManager.Base, GInv,
           ConfigOk, FanOut;
      ok := true;
      if hits == [] { return; }
      var tracked := Tracked(c.slot);
      if tracked { return; }
      pool.SameSwitch();
      AddOk(c.slot, hits, c.computed + c.newComputed, pool.St(), Tms(), 0, []);
      AddAllowed(pool.St(), Tms(), c.slot, hits, c.computed + c.newComputed);
      var outs;
      ok, outs := Each(Add(c.slot, hits, c.computed + c.newComputed));
    }

    // ---- the prefix hit -------------------------------------------------------------

    /** `find_longest_cache_hit`: the hit length and the blocks of every group. */
    method FindLongestCacheHit(hashes: seq<Digest>, cap: nat) returns (hit: nat, blocks: seq<seq<Id>>)
      requires Wired()
      modifies this`uncached
      ensures var l := Lookup(pool.cached, hashes, cfg.hashBlock);
        && hit == HitIn(cfg, l, cap) && blocks == HitTableIn(cfg, l, hit)
        && uncached == UncachedIn(cfg, l, cap, old(uncached))
    {
      hide Longest, HitBlocks, Placed, ConfigOk, SpecsOk;
      if !cfg.caching { return 0, seq(|managers|, _ => []); }
      var l := Lookup(pool.cached, hashes, cfg.hashBlock);
      SpecsFit(cfg);
      if !Hybrid(cfg) {
        var sg := cfg.specs[0];
        OnlySpec(cfg);
        hit, blocks := LookupGroup(l, sg, sg.blockSize, cap, seq(|managers|, _ => []));
      } else {
        var longest;
        hit, longest, blocks := FixedPoint(l, cfg.specs, |managers|, cfg.schedBlock, cap);
        uncached := Monus(longest, hit);
      }
      AllPlaced(cfg, l, blocks, hit);
    }

    /** Managers are distinct objects. */
    twostate lemma OthersSame(i: nat)
      requires Wired() && i < |managers|
      requires forall m: TypeManager :: m in managers && m != managers[i] ==> m.St() == old(m.St())
      ensures forall j :: 0 <= j < |managers| && j != i ==> managers[j].St() == old(managers[j].St())
    {
      forall j | 0 <= j < |managers| && j != i ensures managers[j].St() == old(managers[j].St()) {
        assert managers[j].group.id == j && managers[i].group.id == i;
        assert managers[j] in managers;
      }
    }
  }

  /** An operation that succeeds on one group keeps the whole in good standing. */
  lemma OpKept(op: Op, p: Pool, ts: seq<Tm>, i: nat)
    requires GInv(p, ts) && i < |ts| && OpOk(op, p, ts[i])
    ensures var s := Do(op, p, ts[i]);
      s.ok ==> GInv(s.pool, ts[i := s.tm]) && (forall t :: OpOk(op, p, t) ==> OpOk(op, s.pool, t))
  {
    hide Inv, TmInv, Counted, Balanced, OnlySlot, Moved, Released, Fileable;
    GroupTables(p, ts, i);
    GroupCovered(p, ts, i);
    var s := Do(op, p, ts[i]);
    if Plain(op) {
      DoOk(op, p, ts[i]);
      GroupStep(p, ts, i, s.pool, s.tm, op.slot);
    } else if op.Add? {
      AddLocalOk(p, ts[i], op.slot, HitOf(op.hits, ts[i].group.id), op.computed);
      GroupStep(p, ts, i, s.pool, s.tm, op.slot);
    } else if op.Grow? && s.ok {
      AllocFits(p, ts[i], op.slot, op.tokens, op.main);
      AllocOk(p, ts[i], op.slot, op.tokens, op.main);
      GroupStep(p, ts, i, s.pool, s.tm, op.slot);
    } else if op.StepStart? {
      NewStepKept(p, ts, i);
    }
  }

  lemma NewStepKept(p: Pool, ts: seq<Tm>, i: nat)
    requires GInv(p, ts) && i < |ts|
    ensures GInv(p, ts[i := NewStep(ts[i])])
  {
    GroupSwap(p, ts, i, p, NewStep(ts[i]));
  }

  /** Allocation succeeds only if the queue holds what it wants. */
  lemma AllocFits(p: Pool, t: Tm, slot: Slot, tokens: nat, main: nat)
    requires TmInv(p, t) && main > 0 && Alloc(p, t, slot, tokens, main).ok
    ensures Wanted(t, slot, tokens, main) <= |p.free|
  {
    hide GetNew;
  }

  // ---- the hit --------------------------------------------------------------------

  lemma EstimateNone(p: Pool, ts: seq<Tm>, slot: Slot, tokens: nat, hits: seq<seq<Id>>, main: nat)
    ensures EstimateFrom(p, ts, slot, tokens, hits, main, |ts|) == 0
  {}

  lemma EstimateOne(p: Pool, ts: seq<Tm>, slot: Slot, tokens: nat, hits: seq<seq<Id>>, main: nat, i: nat)
    requires i < |ts| && ts[i].group.id == i
    ensures EstimateFrom(p, ts, slot, tokens, hits, main, i)
         == Estimate(p, ts[i], slot, tokens, HitOf(hits, i), main)
            + EstimateFrom(p, ts, slot, tokens, hits, main, i + 1)
  {
    hide Estimate;
  }

  lemma HitExists(p: Pool, hits: seq<seq<Id>>, i: nat)
    requires HitsExist(p, hits)
    ensures InRange(p, HitOf(hits, i))
  {}

  lemma AddAllowed(p: Pool, ts: seq<Tm>, slot: Slot, hits: seq<seq<Id>>, computed: nat)
    requires Blank(ts, slot) && HitsExist(p, hits) && p.caching
    requires !AnyCached(ts, slot)
    ensures forall i :: 0 <= i < |ts| ==> OpOk(Add(slot, hits, computed), p, ts[i])
  {}

  /** The specs of a valid configuration partition its groups. */
  lemma SpecsFit(c: Config)
    requires ConfigOk(c)
    ensures SpecsOk(c.specs, |c.groups|, c.hashBlock, c.schedBlock)
  {
    forall j | 0 <= j < |c.specs|
      ensures c.specs[j].blockSize % c.hashBlock == 0 && c.schedBlock % c.specs[j].blockSize == 0
    {
      var g := c.specs[j].gids[0];
      assert g in c.specs[j].gids;
      assert c.groups[g].blockSize == c.specs[j].blockSize;
    }
  }

  /** With one group there is one spec, and it lists that group alone. */
  lemma OnlySpec(c: Config)
    requires ConfigOk(c) && !Hybrid(c)
    ensures c.specs == [c.specs[0]] && c.specs[0].gids != [] && Distinct(c.specs[0].gids)
    ensures c.specs[0].blockSize % c.hashBlock == 0
    ensures forall k :: 0 <= k < |c.specs[0].gids| ==> c.specs[0].gids[k] < |c.groups|
  {
    SpecsFit(c);
    forall k | 0 <= k < |c.specs[0].gids| ensures c.specs[0].gids[k] < |c.groups| {
      assert c.specs[0].gids[k] in c.specs[0].gids;
    }
    FirstGroup(c, 0);
    if |c.specs| > 1 { FirstGroup(c, 1); }
  }

  lemma FirstGroup(c: Config, j: nat)
    requires ConfigOk(c) && !Hybrid(c) && j < |c.specs|
    ensures 0 in c.specs[j].gids
  {
    assert c.specs[j].gids[0] in c.specs[j].gids;
  }

  lemma AllPlaced(c: Config, l: Lookup, blocks: seq<seq<Id>>, len: nat)
    requires ConfigOk(c) && c.caching && |blocks| == |c.groups|
    requires forall j :: 0 <= j < |c.specs| ==> Placed(l, c.specs[j], blocks, len)
    ensures blocks == HitTableIn(c, l, len)
  {
    hide HitBlocks;
    forall g | 0 <= g < |blocks| ensures blocks[g] == HitTableIn(c, l, len)[g] {
      assert Grouped(c, g);
      var j :| 0 <= j < |c.specs| && g in c.specs[j].gids;
      assert Placed(l, c.specs[j], blocks, len);
    }
  }
}
