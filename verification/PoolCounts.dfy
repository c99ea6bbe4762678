/** Counts and queue: what `touch`, `get_new_blocks`, `free_blocks` and caching keep. */
module PoolCounts {
  import opened Basics
  import opened PoolSpec
  import opened PoolInv

  /** Counts that only grow leave fewer evictable blocks. */
  lemma {:induction false} EvictableFalls(p: Pool, q: Pool, ids: seq<Id>)
    requires forall b :: At(q, b).isNull == At(p, b).isNull
    requires forall b :: !At(p, b).isNull ==> At(q, b).ref >= At(p, b).ref >= 0
    ensures NumEvictable(q, ids) <= NumEvictable(p, ids)
  {
    if ids == [] {
    } else {
      EvictableFalls(p, q, ids[1..]);
    }
  }

  // ---- touch ------------------------------------------------------------------------

  function TouchOne(p: Pool, b: Id): Pool {
    if At(p, b).ref == 0 && !At(p, b).isNull then Bump(p.(free := RemoveFirst(p.free, b)), b, 1)
    else Bump(p, b, 1)
  }

  lemma PulledQueue(p: Pool, b: Id, q: Pool)
    requires FreeOk(p) && Idle(p, b) && |q.meta| == |p.meta| && q.free == RemoveFirst(p.free, b)
    requires forall x :: 0 <= x < |p.meta| ==> q.meta[x].ref == p.meta[x].ref + (if x == b then 1 else 0)
    ensures FreeOk(q) && |q.free| == |p.free| - 1 && b in p.free
  {
    RemoveFirstMultiset(p.free, b);
    assert b in multiset(p.free);
    forall x: Id ensures multiset(q.free)[x] == if Idle(q, x) then 1 else 0 {
      assert multiset(p.free)[x] == if Idle(p, x) then 1 else 0;
    }
  }

  lemma TouchOneOk(p: Pool, b: Id)
    requires NullOk(p) && FreeOk(p) && b < |p.meta|
    ensures Idle(p, b) <==> At(p, b).ref == 0 && !At(p, b).isNull
    ensures Idle(p, b) ==> b in p.free
    ensures NullOk(TouchOne(p, b)) && FreeOk(TouchOne(p, b)) && SameHashes(p, TouchOne(p, b))
    ensures Moved(p, TouchOne(p, b), multiset{b}, multiset{})
    ensures |TouchOne(p, b).free| == |p.free| - (if Idle(p, b) then 1 else 0)
  {
    var q := TouchOne(p, b);
    if Idle(p, b) {
      PulledQueue(p, b, q);
    } else {
      forall x: Id ensures Idle(q, x) == Idle(p, x) {}
    }
  }

  lemma MoreHeld(p: Pool, q: Pool, plus: multiset<Id>)
    requires NullOk(p) && FreeOk(p) && Moved(p, q, plus, multiset{}) && SameHashes(p, q)
    ensures forall b :: At(q, b).isNull == At(p, b).isNull
    ensures forall b :: !At(p, b).isNull ==> At(q, b).ref >= At(p, b).ref >= 0
  {
    forall b: Id ensures !At(p, b).isNull ==> At(q, b).ref >= At(p, b).ref >= 0 {
      if 0 < b < |p.meta| { assert q.meta[b].ref == p.meta[b].ref + plus[b]; }
    }
  }

  lemma MovedTrans(p: Pool, q: Pool, r: Pool, a: multiset<Id>, b: multiset<Id>)
    requires SameHashes(p, q) && Moved(p, q, a, multiset{}) && SameHashes(q, r) && Moved(q, r, b, multiset{})
    ensures SameHashes(p, r) && Moved(p, r, a + b, multiset{})
  {}

  /** `touch` never fails, holds each block once per listing, and takes at most the
      evictable ones from the queue. */
  lemma {:induction false} TouchCounts(p: Pool, ids: seq<Id>)
    requires NullOk(p) && FreeOk(p) && InRange(p, ids)
    ensures Touch(p, ids).1
    ensures NullOk(Touch(p, ids).0) && FreeOk(Touch(p, ids).0) && SameHashes(p, Touch(p, ids).0)
    ensures Moved(p, Touch(p, ids).0, multiset(ids), multiset{})
    ensures |Touch(p, ids).0.free| >= |p.free| - NumEvictable(p, ids)
    decreases |ids|
  {
    hide FreeOk, NullOk, TouchOne;
    if ids == [] {
    } else {
      var b := ids[0];
      var rest := ids[1..];
      assert ids == [b] + rest;
      assert b in ids && forall x: Id :: x in rest ==> x in ids;
      TouchOneOk(p, b);
      var q := TouchOne(p, b);
      TouchUnfold(p, ids);
      TouchCounts(q, rest);
      MovedTrans(p, q, Touch(q, rest).0, multiset{b}, multiset(rest));
      MoreHeld(p, q, multiset{b});
      EvictableFalls(p, q, rest);
    }
  }

  lemma TouchUnfold(p: Pool, ids: seq<Id>)
    requires ids != [] && (At(p, ids[0]).ref == 0 && !At(p, ids[0]).isNull ==> ids[0] in p.free)
    ensures Touch(p, ids) == Touch(TouchOne(p, ids[0]), ids[1..])
  {}

  lemma TouchOk(p: Pool, ids: seq<Id>)
    requires Inv(p) && InRange(p, ids)
    ensures Touch(p, ids).1 && Inv(Touch(p, ids).0) && SameHashes(p, Touch(p, ids).0)
    ensures Moved(p, Touch(p, ids).0, multiset(ids), multiset{})
    ensures |Touch(p, ids).0.free| >= |p.free| - NumEvictable(p, ids)
  {
    TouchCounts(p, ids);
    SameHashesIndex(p, Touch(p, ids).0);
  }

  // ---- get_new_blocks ---------------------------------------------------------------

  function TakeOne(p: Pool, b: Id): Pool {
    Bump(if p.caching then Evict(p, b) else p, b, 1)
  }

  lemma TakeOneIndex(p: Pool, b: Id)
    requires IndexOk(p) && b < |p.meta|
    ensures IndexOk(TakeOne(p, b))
    ensures forall k, x :: Contain(TakeOne(p, b).cached, k, x) <==> (Contain(p.cached, k, x) && !(p.caching && x == b))
  {
    var e := if p.caching then Evict(p, b) else p;
    if p.caching {
      EvictOk(p, b);
      StripIndex(p, b);
    }
    SameIndex(e, TakeOne(p, b));
  }

  lemma TakeOneCounts(p: Pool, b: Id)
    requires IndexOk(p) && b < |p.meta|
    ensures |TakeOne(p, b).meta| == |p.meta| && TakeOne(p, b).free == p.free && TakeOne(p, b).caching == p.caching
    ensures forall x: Id :: At(TakeOne(p, b), x).ref == At(p, x).ref + (if x == b then 1 else 0)
    ensures forall x: Id :: At(TakeOne(p, b), x).isNull == At(p, x).isNull
    ensures forall x: Id :: x != b ==> At(TakeOne(p, b), x) == At(p, x)
  {
    if p.caching { EvictOk(p, b); }
  }

  lemma {:induction false} TakeIndex(p: Pool, ids: seq<Id>)
    requires IndexOk(p) && InRange(p, ids)
    ensures IndexOk(Take(p, ids))
    ensures forall k, x :: Contain(Take(p, ids).cached, k, x)
                      <==> (Contain(p.cached, k, x) && !(p.caching && x in ids))
    decreases |ids|
  {
    hide IndexOk, Evict;
    if ids == [] {
    } else {
      var q := TakeOne(p, ids[0]);
      assert ids == [ids[0]] + ids[1..];
      assert ids[0] in ids && forall x :: x in ids[1..] ==> x in ids;
      TakeOneIndex(p, ids[0]);
      TakeOneCounts(p, ids[0]);
      TakeIndex(q, ids[1..]);
    }
  }

  lemma {:induction false} TakeCounts(p: Pool, ids: seq<Id>)
    requires IndexOk(p) && InRange(p, ids)
    ensures |Take(p, ids).meta| == |p.meta| && Take(p, ids).free == p.free && Take(p, ids).caching == p.caching
    ensures forall x: Id :: x < |p.meta| ==> At(Take(p, ids), x).ref == At(p, x).ref + multiset(ids)[x]
    ensures forall x: Id :: At(Take(p, ids), x).isNull == At(p, x).isNull
    ensures forall x: Id :: x !in ids ==> At(Take(p, ids), x) == At(p, x)
    decreases |ids|
  {
    hide IndexOk, Evict, Contain;
    if ids == [] {
    } else {
      var q := TakeOne(p, ids[0]);
      assert ids == [ids[0]] + ids[1..];
      assert ids[0] in ids && forall x :: x in ids[1..] ==> x in ids;
      TakeOneIndex(p, ids[0]);
      TakeOneCounts(p, ids[0]);
      TakeCounts(q, ids[1..]);
    }
  }

  lemma FirstKey(p: Pool, b: Id)
    requires KeysOf(p, b) != []
    ensures Owns(p, KeysOf(p, b)[0], b)
  {}

  /** Blocks no key reaches have no hash. */
  lemma Unfiled(p: Pool, b: Id)
    requires IndexOk(p) && forall k :: !Contain(p.cached, k, b)
    ensures KeysOf(p, b) == []
  {
    if KeysOf(p, b) != [] { FirstKey(p, b); }
  }

  lemma FrontIdle(p: Pool, n: nat)
    requires FreeOk(p) && n <= |p.free|
    ensures Distinct(p.free) && Distinct(p.free[..n]) && InRange(p, p.free)
    ensures forall x :: x in p.free[..n] ==> Idle(p, x)
  {
    DistinctMultiset(p.free);
    forall x | x in p.free ensures Idle(p, x) { assert x in multiset(p.free); }
  }

  /** `get_new_blocks` hands out the front of the queue: distinct blocks nobody held. */
  lemma GetNewOk(p: Pool, n: nat)
    requires Inv(p) && n <= |p.free|
    ensures Inv(GetNew(p, n).0)
    ensures Moved(p, GetNew(p, n).0, multiset(GetNew(p, n).1), multiset{})
    ensures GetNew(p, n).0.caching == p.caching && GetNew(p, n).0.free == p.free[n..]
    ensures Distinct(GetNew(p, n).1) && forall x :: x in GetNew(p, n).1 ==> Idle(p, x)
    ensures forall x: Id :: x !in GetNew(p, n).1 ==> At(GetNew(p, n).0, x) == At(p, x)
  {
    FrontIdle(p, n);
    var r := p.(free := p.free[n..]);
    SameIndex(p, r);
    GetNewParts(p, r, n);
  }

  lemma GetNewParts(p: Pool, r: Pool, n: nat)
    requires Inv(p) && n <= |p.free| && r == p.(free := p.free[n..]) && IndexOk(r) && InRange(r, p.free[..n])
    ensures Inv(Take(r, p.free[..n])) && Moved(p, Take(r, p.free[..n]), multiset(p.free[..n]), multiset{})
    ensures Take(r, p.free[..n]).caching == p.caching && Take(r, p.free[..n]).free == p.free[n..]
    ensures forall x: Id :: x !in p.free[..n] ==> At(Take(r, p.free[..n]), x) == At(p, x)
  {
    hide Evict, Contain;
    TakeIndex(r, p.free[..n]);
    TakeCounts(r, p.free[..n]);
    GetNewQueue(p, n, Take(r, p.free[..n]));
    TakeMoved(p, r, Take(r, p.free[..n]), p.free[..n]);
  }

  lemma TakeMoved(p: Pool, r: Pool, q: Pool, ids: seq<Id>)
    requires |q.meta| == |p.meta| && r.meta == p.meta
    requires forall x: Id :: x < |p.meta| ==> At(q, x).ref == At(r, x).ref + multiset(ids)[x]
    ensures Moved(p, q, multiset(ids), multiset{})
  {
    forall b: Id | 0 < b < |p.meta| ensures q.meta[b].ref == p.meta[b].ref + multiset(ids)[b] {
      assert At(q, b).ref == At(r, b).ref + multiset(ids)[b];
    }
  }

  /** With caching on, no key reaches a block just handed out; every other mapping stays. */
  lemma GetNewUnreachable(p: Pool, n: nat)
    requires Inv(p) && n <= |p.free| && p.caching
    ensures forall k, x :: Contain(GetNew(p, n).0.cached, k, x) <==> (Contain(p.cached, k, x) && x !in GetNew(p, n).1)
    ensures forall x :: x in GetNew(p, n).1 ==> KeysOf(GetNew(p, n).0, x) == []
  {
    var ids := p.free[..n];
    var r := p.(free := p.free[n..]);
    SameIndex(p, r);
    FrontIdle(p, n);
    TakeIndex(r, ids);
    forall x | x in ids ensures KeysOf(Take(r, ids), x) == [] { Unfiled(Take(r, ids), x); }
  }

  lemma GetNewQueue(p: Pool, n: nat, q: Pool)
    requires NullOk(p) && FreeOk(p) && n <= |p.free| && |q.meta| == |p.meta| && q.free == p.free[n..]
    requires forall x: Id :: x < |p.meta| ==> At(q, x).ref == At(p, x).ref + multiset(p.free[..n])[x]
    requires forall x: Id :: At(q, x).isNull == At(p, x).isNull
    ensures NullOk(q) && FreeOk(q)
  {
    assert p.free == p.free[..n] + p.free[n..];
    assert multiset(p.free) == multiset(p.free[..n]) + multiset(q.free);
    forall b | 0 <= b < |q.meta| ensures q.meta[b].isNull <==> b == NULL {
      assert At(q, b).isNull == At(p, b).isNull;
    }
    forall b | 0 < b < |q.meta| ensures q.meta[b].ref >= 0 { assert At(q, b).ref >= 0; }
    forall b: Id ensures multiset(q.free)[b] == if Idle(q, b) then 1 else 0 {
      assert multiset(p.free)[b] == if Idle(p, b) then 1 else 0;
      if 0 < b < |q.meta| { assert At(q, b).ref == At(p, b).ref + multiset(p.free[..n])[b]; }
    }
  }

  // ---- free_blocks ------------------------------------------------------------------

  ghost predicate Held(p: Pool, ids: multiset<Id>) {
    forall b :: 0 < b < |p.meta| ==> ids[b] <= p.meta[b].ref
  }

  function BareAfter(p: Pool, b: Id, bare: seq<Id>): seq<Id> {
    if Releases(p, b) && At(p, b).hash.None? then bare + [b] else bare
  }

  function HashedAfter(p: Pool, b: Id, hashed: seq<Id>): seq<Id> {
    if Releases(p, b) && At(p, b).hash.Some? then hashed + [b] else hashed
  }

  lemma DropOneOk(p: Pool, b: Id, bare: seq<Id>, hashed: seq<Id>)
    requires NullOk(p) && Queued(p, multiset(bare) + multiset(p.free) + multiset(hashed))
    requires b < |p.meta| && (b != NULL ==> p.meta[b].ref > 0)
    ensures NullOk(Bump(p, b, -1)) && SameHashes(p, Bump(p, b, -1))
    ensures Moved(p, Bump(p, b, -1), multiset{}, multiset{b})
    ensures Queued(Bump(p, b, -1),
                   multiset(BareAfter(p, b, bare)) + multiset(p.free) + multiset(HashedAfter(p, b, hashed)))
  {
    var q := Bump(p, b, -1);
    forall x: Id ensures Idle(q, x) <==> Idle(p, x) || (x == b && Releases(p, b)) {}
    assert Releases(p, b) ==> !Idle(p, b);
  }

  lemma {:induction false} DropOk(p: Pool, ids: seq<Id>, bare: seq<Id>, hashed: seq<Id>)
    requires NullOk(p) && Queued(p, multiset(bare) + multiset(p.free) + multiset(hashed))
    requires InRange(p, ids) && Held(p, multiset(ids))
    ensures NullOk(Drop(p, ids, bare, hashed).0) && SameHashes(p, Drop(p, ids, bare, hashed).0)
    ensures Drop(p, ids, bare, hashed).0.free == p.free
    ensures Moved(p, Drop(p, ids, bare, hashed).0, multiset{}, multiset(ids))
    ensures Queued(Drop(p, ids, bare, hashed).0,
                   multiset(Drop(p, ids, bare, hashed).1) + multiset(p.free) + multiset(Drop(p, ids, bare, hashed).2))
    decreases |ids|
  {
    if ids == [] {
    } else {
      var b := ids[0];
      var rest := ids[1..];
      assert ids == [b] + rest;
      assert multiset(ids) == multiset{b} + multiset(rest);
      assert b in ids && forall x: Id :: x in rest ==> x in ids;
      DropOneOk(p, b, bare, hashed);
      DropOk(Bump(p, b, -1), rest, BareAfter(p, b, bare), HashedAfter(p, b, hashed));
    }
  }

  /** `free_blocks` drops one reference per listing and queues exactly the released blocks. */
  lemma FreeBlocksOk(p: Pool, ids: seq<Id>)
    requires Inv(p) && InRange(p, ids) && Held(p, multiset(ids))
    ensures Inv(FreeBlocks(p, ids)) && SameHashes(p, FreeBlocks(p, ids))
    ensures Moved(p, FreeBlocks(p, ids), multiset{}, multiset(ids))
    ensures |FreeBlocks(p, ids).free| >= |p.free|
  {
    hide IndexOk, Drop;
    assert multiset([]) + multiset(p.free) + multiset([]) == multiset(p.free);
    DropOk(p, ids, [], []);
    SameHashesIndex(p, FreeBlocks(p, ids));
  }

  // ---- caching ----------------------------------------------------------------------

  lemma CacheOneOk(p: Pool, b: Id, k: HashKey, tokens: nat)
    requires NullOk(p) && IndexOk(p) && b < |p.meta|
    ensures IndexOk(CacheOne(p, b, k, tokens)) && SameCounts(p, CacheOne(p, b, k, tokens))
    ensures forall x: Id :: x != b ==> At(CacheOne(p, b, k, tokens), x) == At(p, x)
    ensures forall j, x :: Contain(CacheOne(p, b, k, tokens).cached, j, x)
                       ==> Contain(p.cached, j, x) || (x == b && j == k && b != NULL)
    ensures forall j, x :: x != b && Contain(p.cached, j, x) ==> Contain(CacheOne(p, b, k, tokens).cached, j, x)
  {
    if !At(p, b).isNull {
      var q := if At(p, b).hash.Some? then RemoveHashes(p, b) else p;
      if At(p, b).hash.Some? {
        RemoveHashesOk(p, b);
        StripIndex(p, b);
      }
      InsertHashOk(q, k, b, tokens);
    }
  }

  lemma SameCountsInv(p: Pool, q: Pool)
    requires NullOk(p) && FreeOk(p) && SameCounts(p, q)
    ensures NullOk(q) && FreeOk(q)
  {
    forall b: Id ensures Idle(q, b) == Idle(p, b) {}
  }

  lemma {:induction false} CacheFullOk(p: Pool, blocks: seq<Id>, hashes: seq<Digest>, stride: nat,
                                       from: nat, to: nat, bs: nat, group: nat)
    requires Inv(p) && InRange(p, blocks)
    ensures Inv(CacheFull(p, blocks, hashes, stride, from, to, bs, group))
    ensures SameCounts(p, CacheFull(p, blocks, hashes, stride, from, to, bs, group))
    decreases Monus(to, from)
  {
    if from >= to {
    } else {
      var k := KeyAt(hashes, stride, group, from);
      if from < |blocks| && k.Some? {
        assert blocks[from] in blocks;
        var q := CacheOne(p, blocks[from], k.value, (from + 1) * bs);
        CacheOneOk(p, blocks[from], k.value, (from + 1) * bs);
        SameCountsInv(p, q);
        CacheFullOk(q, blocks, hashes, stride, from + 1, to, bs, group);
      } else {
        CacheFullOk(p, blocks, hashes, stride, from + 1, to, bs, group);
      }
    }
  }

  /** Filing one block puts it under the key. */
  lemma CacheOneFiles(p: Pool, b: Id, k: HashKey, tokens: nat)
    requires Inv(p) && 0 < b < |p.meta|
    ensures Contain(CacheOne(p, b, k, tokens).cached, k, b)
  {
    var q := if At(p, b).hash.Some? then RemoveHashes(p, b) else p;
    if At(p, b).hash.Some? {
      RemoveHashesOk(p, b);
      StripIndex(p, b);
      StripAgrees(p, b);
    }
    KeyLookup(q, k, b);
  }

  /** A block filed anew carries the key as its hash, with the tokens it stands for. */
  lemma CacheOneNotes(p: Pool, b: Id, k: HashKey, tokens: nat)
    requires Inv(p) && 0 < b < |p.meta| && (At(p, b).hash.Some? || !Contain(p.cached, k, b))
    ensures At(CacheOne(p, b, k, tokens), b).hash == Some(k)
    ensures At(CacheOne(p, b, k, tokens), b).hashTokens == Some(tokens)
  {
    if At(p, b).hash.Some? {
      RemoveHashesOk(p, b);
      StripIndex(p, b);
      StripAgrees(p, b);
      KeyLookup(RemoveHashes(p, b), k, b);
    }
  }

  lemma {:induction false} CacheFullKeeps(p: Pool, blocks: seq<Id>, hashes: seq<Digest>, stride: nat,
                                          from: nat, to: nat, bs: nat, group: nat, k: HashKey, b: Id)
    requires Inv(p) && InRange(p, blocks) && Contain(p.cached, k, b)
    requires forall i :: from <= i < to && i < |blocks| ==> blocks[i] != b
    ensures Contain(CacheFull(p, blocks, hashes, stride, from, to, bs, group).cached, k, b)
    decreases Monus(to, from)
  {
    hide CacheOne, Inv, Contain, KeyAt;
    if from < to {
      var key := KeyAt(hashes, stride, group, from);
      var q := p;
      if from < |blocks| && key.Some? {
        OneFiled(p, blocks, from, key.value, (from + 1) * bs, k, b);
        q := CacheOne(p, blocks[from], key.value, (from + 1) * bs);
      }
      CacheFullKeeps(q, blocks, hashes, stride, from + 1, to, bs, group, k, b);
    }
  }

  /** One iteration keeps the invariant and another block's mapping. */
  lemma OneFiled(p: Pool, blocks: seq<Id>, i: nat, key: HashKey, tokens: nat, k: HashKey, b: Id)
    requires Inv(p) && InRange(p, blocks) && i < |blocks| && Contain(p.cached, k, b) && blocks[i] != b
    ensures var q := CacheOne(p, blocks[i], key, tokens); Inv(q) && InRange(q, blocks) && Contain(q.cached, k, b)
  {
    hide CacheOne, Contain;
    assert blocks[i] in blocks;
    CacheOneOk(p, blocks[i], key, tokens);
    SameCountsInv(p, CacheOne(p, blocks[i], key, tokens));
  }

  /** Every full block in the range ends under the key of its own boundary, unless it is the null
      block or the table lists it again further on. */
  lemma {:induction false} CacheFullFiles(p: Pool, blocks: seq<Id>, hashes: seq<Digest>, stride: nat,
                                          from: nat, to: nat, bs: nat, group: nat, j: nat)
    requires Inv(p) && InRange(p, blocks) && from <= j < to && j < |blocks| && blocks[j] != NULL
    requires KeyAt(hashes, stride, group, j).Some?
    requires forall i :: j < i < to && i < |blocks| ==> blocks[i] != blocks[j]
    ensures Contain(CacheFull(p, blocks, hashes, stride, from, to, bs, group).cached,
                    KeyAt(hashes, stride, group, j).value, blocks[j])
    decreases Monus(to, from)
  {
    hide CacheOne, Contain, KeyAt;
    var key := KeyAt(hashes, stride, group, from);
    var q := p;
    if from < |blocks| && key.Some? {
      assert blocks[from] in blocks;
      q := CacheOne(p, blocks[from], key.value, (from + 1) * bs);
      CacheOneOk(p, blocks[from], key.value, (from + 1) * bs);
      SameCountsInv(p, q);
    }
    if from == j {
      CacheOneFiles(p, blocks[j], key.value, (j + 1) * bs);
      CacheFullKeeps(q, blocks, hashes, stride, j + 1, to, bs, group, key.value, blocks[j]);
    } else {
      CacheFullFiles(q, blocks, hashes, stride, from + 1, to, bs, group, j);
    }
  }
}
