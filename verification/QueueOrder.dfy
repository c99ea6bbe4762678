/**
 * The order in which freed blocks come up for eviction: what no prefix hit can ever use goes first,
 * what is cached goes last, and a request's own blocks go from the tail of its table.
 */
module QueueOrder {
  import opened Basics
  import opened PoolSpec
  import opened PoolInv
  import opened PoolCounts
  import opened TypeSpec
  import opened TypeInv

  /** In the queue, `a` comes up before `b`. */
  ghost predicate Sooner(q: seq<Id>, a: Id, b: Id) {
    exists i, j :: 0 <= i < j < |q| && q[i] == a && q[j] == b
  }

  /** `at` says where the entries of `v` stand in `ids`, in order and before `k`. */
  predicate Stands(v: seq<Id>, ids: seq<Id>, at: seq<nat>, k: nat) {
    && |at| == |v| && k <= |ids|
    && (forall i, j :: 0 <= i < j < |at| ==> at[i] < at[j])
    && (forall i :: 0 <= i < |at| ==> at[i] < k && v[i] == ids[at[i]])
  }

  /** `v` is listed in `ids` in that order, before `k`. */
  ghost predicate Listed(v: seq<Id>, ids: seq<Id>, k: nat) { exists at :: Stands(v, ids, at, k) }

  /** Nobody holds the block any more. */
  predicate Freed(q: Pool, b: Id) { !At(q, b).isNull && At(q, b).ref == 0 }

  /** `v` is what the first `k` listings freed, those that are cached or those that are not, in order. */
  ghost predicate Collects(p: Pool, q: Pool, ids: seq<Id>, k: nat, v: seq<Id>, cached: bool) {
    && k <= |ids| && Listed(v, ids, k)
    && forall b :: b in v <==> b in ids[..k] && Freed(q, b) && At(p, b).hash.Some? == cached
  }

  /** The queue is the old one between two runs taken from `ids` in order: freed blocks without a hash
      in front of it, freed blocks with one behind it. */
  ghost predicate Framed(p: Pool, q: Pool, ids: seq<Id>, bare: seq<Id>, hashed: seq<Id>) {
    && q.free == bare + p.free + hashed
    && Collects(p, q, ids, |ids|, bare, false) && Collects(p, q, ids, |ids|, hashed, true)
  }

  /** The scan, `k` listings in: one reference dropped for each. */
  ghost predicate Dropped(p: Pool, q: Pool, ids: seq<Id>, k: nat) {
    && k <= |ids| && |q.meta| == |p.meta| && q.free == p.free
    && (forall b :: At(q, b).hash == At(p, b).hash && At(q, b).isNull == At(p, b).isNull)
    && (forall b: Id :: b < |p.meta| ==> At(q, b).ref == At(p, b).ref - multiset(ids[..k])[b])
  }

  /** Every block is held at least as often as it is listed. */
  ghost predicate Droppable(p: Pool, ids: seq<Id>) {
    InRange(p, ids) && forall b: Id :: b in ids && !At(p, b).isNull ==> multiset(ids)[b] <= At(p, b).ref
  }

  lemma InDroppable(p: Pool, ids: seq<Id>, b: Id)
    requires Droppable(p, ids) && b in ids
    ensures b < |p.meta|
  {}

  lemma DropOne(p: Pool, q: Pool, ids: seq<Id>, k: nat)
    requires Dropped(p, q, ids, k) && k < |ids| && Droppable(p, ids)
    ensures Dropped(p, Bump(q, ids[k], -1), ids, k + 1)
    ensures !At(p, ids[k]).isNull ==> At(q, ids[k]).ref > 0
  {
    hide InRange;
    var b, r := ids[k], Bump(q, ids[k], -1);
    InDroppable(p, ids, b);
    CountNext(ids, k);
    forall x: Id | x < |p.meta| ensures At(r, x).ref == At(p, x).ref - multiset(ids[..k + 1])[x] {
      assert At(r, x).ref == At(q, x).ref - (if x == b then 1 else 0);
      assert At(q, x).ref == At(p, x).ref - multiset(ids[..k])[x];
    }
  }

  lemma CountNext(ids: seq<Id>, k: nat)
    requires k < |ids|
    ensures forall x: Id :: multiset(ids[..k + 1])[x] == multiset(ids[..k])[x] + if x == ids[k] then 1 else 0
    ensures multiset(ids[..k])[ids[k]] < multiset(ids)[ids[k]]
  {
    assert ids[..k + 1] == ids[..k] + [ids[k]];
    assert ids == ids[..k + 1] + ids[k + 1..];
  }

  lemma ListedNext(v: seq<Id>, ids: seq<Id>, k: nat)
    requires k < |ids| && Listed(v, ids, k)
    ensures Listed(v, ids, k + 1) && Listed(v + [ids[k]], ids, k + 1)
  {
    var at :| Stands(v, ids, at, k);
    assert Stands(v, ids, at, k + 1);
    assert Stands(v + [ids[k]], ids, at + [k], k + 1);
  }

  lemma CollectOne(p: Pool, q: Pool, ids: seq<Id>, k: nat, v: seq<Id>, cached: bool)
    requires Dropped(p, q, ids, k) && k < |ids| && Droppable(p, ids) && Collects(p, q, ids, k, v, cached)
    ensures var b := ids[k];
      var w := if Releases(q, b) && At(q, b).hash.Some? == cached then v + [b] else v;
      Collects(p, Bump(q, b, -1), ids, k + 1, w, cached)
  {
    hide Droppable, Listed;
    var b, r := ids[k], Bump(q, ids[k], -1);
    DropOne(p, q, ids, k);
    ListedNext(v, ids, k);
    assert b in ids;
    assert ids[..k + 1] == ids[..k] + [b];
    assert b < |q.meta| by { InDroppable(p, ids, b); }
    var w := if Releases(q, b) && At(q, b).hash.Some? == cached then v + [b] else v;
    forall x ensures x in w <==> x in ids[..k + 1] && Freed(r, x) && At(p, x).hash.Some? == cached {
      if x != b { assert At(r, x) == At(q, x); }
    }
  }

  lemma {:induction false} DropCollects(p: Pool, q: Pool, ids: seq<Id>, k: nat, bare: seq<Id>, hashed: seq<Id>)
    requires Dropped(p, q, ids, k) && Droppable(p, ids)
    requires Collects(p, q, ids, k, bare, false) && Collects(p, q, ids, k, hashed, true)
    ensures var (r, x, y) := Drop(q, ids[k..], bare, hashed);
      Dropped(p, r, ids, |ids|) && Collects(p, r, ids, |ids|, x, false) && Collects(p, r, ids, |ids|, y, true)
    decreases |ids| - k
  {
    hide Droppable, Collects;
    if k < |ids| {
      assert ids[k..][0] == ids[k] && ids[k..][1..] == ids[k + 1..];
      DropOne(p, q, ids, k);
      CollectOne(p, q, ids, k, bare, false);
      CollectOne(p, q, ids, k, hashed, true);
      DropCollects(p, Bump(q, ids[k], -1), ids, k + 1, BareAfter(q, ids[k], bare), HashedAfter(q, ids[k], hashed));
    } else {
      assert ids[k..] == [] && k == |ids|;
    }
  }

  lemma CanDrop(p: Pool, ids: seq<Id>)
    requires Inv(p) && InRange(p, ids) && Held(p, multiset(ids))
    ensures Droppable(p, ids)
  {}

  /** `free_blocks` frames the queue. */
  lemma FreeFrames(p: Pool, ids: seq<Id>) returns (bare: seq<Id>, hashed: seq<Id>)
    requires Inv(p) && InRange(p, ids) && Held(p, multiset(ids))
    ensures Framed(p, FreeBlocks(p, ids), ids, bare, hashed)
  {
    hide Inv, Held, Drop, Droppable;
    var (q, x, y) := Drop(p, ids, [], []);
    bare, hashed := x, y;
    assert ids[..0] == [] && ids[0..] == ids;
    assert Stands([], ids, [], 0);
    CanDrop(p, ids);
    DropCollects(p, p, ids, 0, [], []);
    SameFreed(p, q, FreeBlocks(p, ids), ids, bare, false);
    SameFreed(p, q, FreeBlocks(p, ids), ids, hashed, true);
  }

  lemma SameFreed(p: Pool, q: Pool, r: Pool, ids: seq<Id>, v: seq<Id>, cached: bool)
    requires Collects(p, q, ids, |ids|, v, cached) && r.meta == q.meta
    ensures Collects(p, r, ids, |ids|, v, cached)
  {
    forall b ensures Freed(r, b) == Freed(q, b) {}
  }

  lemma SoonerIn(a: seq<Id>, b: seq<Id>, x: Id, y: Id)
    requires x in a && y in b
    ensures Sooner(a + b, x, y)
  {
    var i :| 0 <= i < |a| && a[i] == x;
    var j :| 0 <= j < |b| && b[j] == y;
    assert (a + b)[i] == x && (a + b)[|a| + j] == y;
  }

  /** A cached block freed now comes up after every block that was queued before... */
  lemma CachedLast(p: Pool, ids: seq<Id>, a: Id, b: Id)
    requires Inv(p) && InRange(p, ids) && Held(p, multiset(ids))
    requires a in p.free && b in ids && Freed(FreeBlocks(p, ids), b) && At(p, b).hash.Some?
    ensures Sooner(FreeBlocks(p, ids).free, a, b)
  {
    hide Inv, Held, FreeBlocks, Freed;
    var bare, hashed := FreeFrames(p, ids);
    assert ids[..|ids|] == ids;
    SoonerIn(bare + p.free, hashed, a, b);
  }

  /** ...and one no hit can use before all of them. */
  lemma BareFirst(p: Pool, ids: seq<Id>, a: Id, b: Id)
    requires Inv(p) && InRange(p, ids) && Held(p, multiset(ids))
    requires a in p.free && b in ids && Freed(FreeBlocks(p, ids), b) && At(p, b).hash.None?
    ensures Sooner(FreeBlocks(p, ids).free, b, a)
  {
    hide Inv, Held, FreeBlocks, Freed;
    var bare, hashed := FreeFrames(p, ids);
    assert ids[..|ids|] == ids;
    SoonerIn(bare, p.free + hashed, b, a);
    assert bare + (p.free + hashed) == bare + p.free + hashed;
  }

  /** Where `v` stands in distinct `ids`, the order is that of `ids`. */
  lemma StandsInOrder(v: seq<Id>, ids: seq<Id>, at: seq<nat>, i: nat, j: nat)
    requires Stands(v, ids, at, |ids|) && Distinct(ids) && i < j < |ids| && ids[i] in v && ids[j] in v
    ensures Sooner(v, ids[i], ids[j])
  {
    var x :| 0 <= x < |v| && v[x] == ids[i];
    var y :| 0 <= y < |v| && v[y] == ids[j];
    assert at[x] == i && at[y] == j;
  }

  lemma SoonerWithin(a: seq<Id>, v: seq<Id>, b: seq<Id>, x: Id, y: Id)
    requires Sooner(v, x, y)
    ensures Sooner(a + v + b, x, y)
  {
    var i, j :| 0 <= i < j < |v| && v[i] == x && v[j] == y;
    assert (a + v + b)[|a| + i] == x && (a + v + b)[|a| + j] == y;
  }

  /** Freed together, alike in being cached or not, the one listed first comes up first. */
  lemma ListedFirst(p: Pool, ids: seq<Id>, i: nat, j: nat)
    requires Inv(p) && InRange(p, ids) && Held(p, multiset(ids)) && Distinct(ids) && i < j < |ids|
    requires Freed(FreeBlocks(p, ids), ids[i]) && Freed(FreeBlocks(p, ids), ids[j])
    requires At(p, ids[i]).hash.Some? == At(p, ids[j]).hash.Some?
    ensures Sooner(FreeBlocks(p, ids).free, ids[i], ids[j])
  {
    hide Inv, Held, FreeBlocks, Freed, Sooner, Stands, Distinct;
    var bare, hashed := FreeFrames(p, ids);
    assert ids[..|ids|] == ids;
    var v := if At(p, ids[i]).hash.Some? then hashed else bare;
    var at :| Stands(v, ids, at, |ids|);
    StandsInOrder(v, ids, at, i, j);
    if At(p, ids[i]).hash.Some? {
      SoonerWithin(bare + p.free, hashed, [], ids[i], ids[j]);
      assert bare + p.free + hashed + [] == bare + p.free + hashed;
    } else {
      SoonerWithin([], bare, p.free + hashed, ids[i], ids[j]);
      assert [] + bare + (p.free + hashed) == bare + p.free + hashed;
    }
  }

  /** A request that is freed gives its blocks up from the tail: of two that are freed with it, alike
      in being cached or not, the one further on in the table comes up first. */
  lemma TailFirst(p: Pool, t: Tm, slot: Slot, i: nat, j: nat)
    requires Inv(p) && TmInv(p, t) && Covered(p, t) && Distinct(Blocks(t, slot)) && i < j < |Blocks(t, slot)|
    requires var (v, q) := (Blocks(t, slot), Free(p, t, slot).0);
      && Freed(q, v[i]) && Freed(q, v[j]) && At(p, v[i]).hash.Some? == At(p, v[j]).hash.Some?
    ensures Sooner(Free(p, t, slot).0.free, Blocks(t, slot)[j], Blocks(t, slot)[i])
  {
    hide Inv, TmInv, Covered, FreeBlocks, Freed, Sooner, Held;
    var v := Blocks(t, slot);
    var ids := Reverse(v);
    ReverseMultiset(v);
    TableRange(p, t, slot);
    TableHeld(p, t, slot, multiset(v));
    ListedFirst(p, ids, |v| - 1 - j, |v| - 1 - i);
  }

  /** The run of entries one pass nulls, which it gives back from its end. */
  lemma RangeGone(p: Pool, t: Tm, slot: Slot, first: nat, last: nat, i: nat, j: nat) returns (lo: nat, hi: nat)
    requires slot in t.reqBlocks && i < j < |Blocks(t, slot)|
    requires var v, w := Blocks(t, slot), Blocks(RemoveRange(p, t, slot, first, last).1, slot);
      |w| == |v| && v[i] != NULL && w[i] == NULL && v[j] != NULL && w[j] == NULL
    ensures lo <= i < j < hi <= |Blocks(t, slot)|
    ensures RemoveRange(p, t, slot, first, last).0 == FreeBlocks(p, Reverse(Blocks(t, slot)[lo..hi]))
  {
    hide FreeBlocks, Reverse;
    hi := Min(last, |Blocks(t, slot)|);
    lo := RunStart(Blocks(t, slot), first, hi);
    NulledOnly(Blocks(t, slot), lo, hi, i);
    NulledOnly(Blocks(t, slot), lo, hi, j);
  }

  lemma NulledOnly(v: seq<Id>, lo: nat, hi: nat, i: nat)
    requires lo <= hi <= |v| && i < |v| && v[i] != NULL && NullRange(v, lo, hi)[i] == NULL
    ensures lo <= i < hi
  {}

  lemma RangeOk(p: Pool, t: Tm, slot: Slot, lo: nat, hi: nat)
    requires TmInv(p, t) && Covered(p, t) && Distinct(Blocks(t, slot)) && lo <= hi <= |Blocks(t, slot)|
    ensures var ids := Reverse(Blocks(t, slot)[lo..hi]); InRange(p, ids) && Held(p, multiset(ids)) && Distinct(ids)
  {
    hide TmInv, Covered, Held, NullRange;
    var v := Blocks(t, slot);
    ReverseMultiset(v[lo..hi]);
    NullRangeMultiset(v, lo, hi);
    TableRange(p, t, slot);
    TableHeld(p, t, slot, multiset(Reverse(v[lo..hi])));
    assert forall b :: b in v[lo..hi] ==> b in v;
  }

  /** So does what is skipped: of two blocks one pass gives back, the one further on comes up first. */
  lemma SkipTailFirst(p: Pool, t: Tm, slot: Slot, first: nat, last: nat, i: nat, j: nat)
    requires Inv(p) && TmInv(p, t) && Covered(p, t) && Distinct(Blocks(t, slot))
    requires i < j < |Blocks(t, slot)| && slot in t.reqBlocks
    requires var (q, u) := RemoveRange(p, t, slot, first, last);
      var v, w := Blocks(t, slot), Blocks(u, slot);
      && |w| == |v| && v[i] != NULL && w[i] == NULL && v[j] != NULL && w[j] == NULL
      && Freed(q, v[i]) && Freed(q, v[j]) && At(p, v[i]).hash.Some? == At(p, v[j]).hash.Some?
    ensures Sooner(RemoveRange(p, t, slot, first, last).0.free, Blocks(t, slot)[j], Blocks(t, slot)[i])
  {
    hide Inv, TmInv, Covered, FreeBlocks, Freed, Sooner, Held, Distinct, NullRange, RunStart, Reverse, RemoveRange;
    var v := Blocks(t, slot);
    var lo, hi := RangeGone(p, t, slot, first, last, i, j);
    RangeOk(p, t, slot, lo, hi);
    var ids := Reverse(v[lo..hi]);
    assert ids[hi - 1 - j] == v[j] && ids[hi - 1 - i] == v[i];
    ListedFirst(p, ids, hi - 1 - j, hi - 1 - i);
  }
}
