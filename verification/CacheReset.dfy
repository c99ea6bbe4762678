/**
 * Entry points that take mappings or resident entries away: `evict_blocks`, `reset_prefix_cache`,
 * `table_clear` and `forget`. Counts and queue never change; the index loses exactly what is named.
 */
module CacheReset {
  import opened Basics
  import opened PoolSpec
  import opened PoolInv
  import opened PoolCounts
  import opened TypeSpec
  import opened TypeInv
  import opened HitSpec
  import opened ManagerSpec
  import opened ManagerInv
  import opened Admission

  // ---- as values --------------------------------------------------------------------

  function EvictIds(s: State, ids: seq<Id>): State { s.(pool := EvictAll(s.pool, ids)) }

  function ResetAll(s: State): State { s.(pool := ResetCache(s.pool).0) }

  function TableClear(s: State, slot: Slot): State {
    if slot < |s.table| then s.(table := s.table[slot := None]) else s
  }

  /** `forget`: the request's hashes, hit length and resident entry go with it. */
  function Forget(s: State, slot: Slot): State {
    TableClear(s.(hashes := if slot in s.hashes then s.hashes[slot := []] else s.hashes, hitLen := s.hitLen - {slot}),
               slot)
  }

  // ---- what they keep ---------------------------------------------------------------

  lemma EvictIndex(p: Pool, b: Id)
    requires IndexOk(p) && b < |p.meta|
    ensures forall k, x :: Contain(Evict(p, b).cached, k, x) <==> (Contain(p.cached, k, x) && x != b)
  {
    StripIndex(p, b);
  }

  /** No key reaches an evicted block, every other mapping stays, and nobody's count moves. */
  lemma {:induction false} EvictAllOk(p: Pool, ids: seq<Id>)
    requires Inv(p) && InRange(p, ids)
    ensures Inv(EvictAll(p, ids)) && SameCounts(p, EvictAll(p, ids))
    ensures forall k, x :: Contain(EvictAll(p, ids).cached, k, x) <==> (Contain(p.cached, k, x) && x !in ids)
    decreases |ids|
  {
    hide Evict, IndexOk, FreeOk, NullOk, Contain, KeysOf, Inv;
    if ids != [] {
      var init, b := ids[..|ids| - 1], ids[|ids| - 1];
      assert ids == init + [b] && b in ids;
      assert forall x :: x in init ==> x in ids;
      EvictAllOk(p, init);
      var q := EvictAll(p, init);
      OneEvicted(q, b);
    }
  }

  lemma OneEvicted(p: Pool, b: Id)
    requires Inv(p) && b < |p.meta|
    ensures Inv(Evict(p, b)) && SameCounts(p, Evict(p, b))
    ensures forall k, x :: Contain(Evict(p, b).cached, k, x) <==> (Contain(p.cached, k, x) && x != b)
  {
    hide Evict, IndexOk, FreeOk, NullOk;
    EvictOk(p, b);
    EvictIndex(p, b);
    SameCountsInv(p, Evict(p, b));
  }

  lemma {:induction false} IdleCount(p: Pool, s: seq<Id>, n: nat)
    requires forall b: Id :: multiset(s)[b] == if 0 < b < n && Idle(p, b) then 1 else 0
    ensures |s| < Max(n, 1)
    ensures |s| + 1 == Max(n, 1) <==> forall b: Id :: 0 < b < n ==> Idle(p, b)
    decreases n
  {
    hide RemoveFirst;
    if n <= 1 {
      assert multiset(s) == multiset{};
    } else {
      var last: Id := n - 1;
      RemoveFirstMultiset(s, last);
      assert last in s <==> multiset(s)[last] == 1;
      IdleCount(p, RemoveFirst(s, last), n - 1);
    }
  }

  /** The reset goes through exactly when nobody holds a block, and then nothing is mapped. */
  lemma ResetOk(p: Pool)
    requires Inv(p)
    ensures ResetCache(p).1 <==> forall b: Id :: 0 < b < |p.meta| ==> p.meta[b].ref == 0
    ensures Inv(ResetCache(p).0) && SameCounts(p, ResetCache(p).0)
    ensures ResetCache(p).1 ==> forall k, x :: !Contain(ResetCache(p).0.cached, k, x)
    ensures !ResetCache(p).1 ==> ResetCache(p).0 == p
  {
    IdleCount(p, p.free, |p.meta|);
    var q := ResetCache(p).0;
    if ResetCache(p).1 {
      forall b: Id | 0 < b < |p.meta| ensures p.meta[b].ref == 0 { assert Idle(p, b); }
      forall b: Id ensures KeysOf(q, b) == [] {}
      forall k, x ensures Contain(q.cached, k, x) <==> Owns(q, k, x) {}
      SameCountsInv(p, q);
    } else {
      var b: Id :| 0 < b < |p.meta| && !Idle(p, b);
      assert p.meta[b].ref != 0;
    }
  }

  lemma PoolKept(s: State, q: Pool)
    requires StateInv(s) && Inv(q) && SameCounts(s.pool, q)
    ensures StateInv(s.(pool := q))
  {
    hide Inv, ConfigOk, TmInv;
    forall i | 0 <= i < |s.tms| ensures TmInv(q, s.tms[i]) { TmInvPool(s.pool, q, s.tms[i]); }
  }

  lemma EvictIdsKeeps(s: State, ids: seq<Id>)
    requires StateInv(s) && InRange(s.pool, ids)
    ensures StateInv(EvictIds(s, ids))
  {
    hide Inv, ConfigOk, TmInv, InRange;
    EvictAllOk(s.pool, ids);
    PoolKept(s, EvictAll(s.pool, ids));
  }

  lemma ResetAllKeeps(s: State)
    requires StateInv(s)
    ensures StateInv(ResetAll(s))
  {
    hide Inv, ConfigOk, TmInv;
    ResetOk(s.pool);
    PoolKept(s, ResetCache(s.pool).0);
  }

  lemma ForgetKeeps(s: State, slot: Slot)
    requires StateInv(s)
    ensures StateInv(TableClear(s, slot)) && StateInv(Forget(s, slot))
  {
    hide GInv, ConfigOk;
  }

  /** What a slot's next owner finds: no entry, no hashes, no hit length. */
  lemma ForgetLeavesNothing(s: State, slot: Slot)
    ensures TableGet(Forget(s, slot), slot).None? && Hashes(Forget(s, slot), slot) == []
    ensures slot !in Forget(s, slot).hitLen
    ensures forall x :: x != slot ==>
              TableGet(Forget(s, slot), x) == TableGet(s, x) && Hashes(Forget(s, slot), x) == Hashes(s, x)
  {}
}
