/**
 * `BlockArena` and `BlockPool` (block_pool.rs): the block array with the free queue threaded
 * through it, the prefix-cache index, and the journal that every write passes.
 *
 * `St()` is the pool as a value, and each method is proved to perform the `PoolSpec` operation
 * on it. `Base()` is the cells with every recorded write undone; while the journal is armed no
 * method changes it.
 */
module BlockPools {
  import opened Basics
  import opened PoolSpec
  import opened PoolInv
  import opened PoolCounts
  import opened FreeQueue
  import opened Journal

  lemma MetaAt(a: Arena, n: nat, b: Id)
    requires b < n <= |a|
    ensures |Metas(a, n)| == n && Metas(a, n)[b] == a[b].meta
  {}

  lemma InitShape(caching: bool, n: nat)
    requires n > 0
    ensures Metas(NewArena(n), n) == Repeat(BLANK, n) && |Ids(n)| == n && Ids(n)[0] == 0
    ensures InitPool(caching, n)
         == Pool(caching, Repeat(BLANK, n)[0 := BLANK.(isNull := true)], Ids(n)[1..], map[], map[], [])
  {}

  /** The pool as a value, from its cells. */
  function PoolOf(n: nat, caching: bool, c: PoolCells): Pool {
    Pool(caching, Metas(c.arena, n), Order(c.arena, n, c.numFree), c.cached, c.aliases, c.evicted)
  }

  /** The links thread a queue of as many blocks as the counter says. */
  ghost predicate LinkedOf(n: nat, c: PoolCells) {
    var q := Order(c.arena, n, c.numFree);
    n > 0 && |c.arena| == n + 2 && Chain(c.arena, n, q) && |q| == c.numFree
  }

  class BlockPool {
    const n: nat
    const caching: bool
    var arena: Arena
    var numFree: nat
    var cached: IndexMap
    var aliases: map<Id, seq<HashKey>>
    var evicted: seq<Id>
    var journal: Option<seq<Undo>>

    ghost function Queue(): seq<Id>
      reads this
    {
      Order(arena, n, numFree)
    }

    ghost predicate Linked()
      reads this
    {
      LinkedOf(n, Cells())
    }

    ghost function St(): Pool
      reads this
    {
      PoolOf(n, caching, Cells())
    }

    lemma SameSwitch()
      ensures St().caching == caching && |St().meta| == n
    {}

    lemma FreeCount()
      requires Linked()
      ensures |St().free| == numFree
    {}

    lemma BlockMeta(id: Id)
      requires id < |St().meta| && Linked()
      ensures id < |arena| && At(St(), id) == arena[id].meta
    {
      MetaAt(arena, n, id);
    }

    ghost function Cells(): PoolCells
      reads this
    {
      PoolCells(arena, numFree, cached, aliases, evicted)
    }

    /** The entries recorded for one component. */
    ghost function Log(c: Comp): seq<Undo>
      reads this
    {
      if journal.Some? then Project(journal.value, c) else []
    }

    ghost function Base(): PoolCells
      reads this
    {
      ReplayPool(Cells(), Log(PoolComp))
    }

    /** What every pool operation does to the journal. */
    twostate predicate Recorded()
      reads this
    {
      && journal.Some? == old(journal.Some?)
      && (journal.Some? ==> Base() == old(Base()))
      && (forall c :: c != PoolComp ==> Log(c) == old(Log(c)))
    }

    /** A pool whose queue lists every block but the null one, in id order. */
    constructor (numBlocks: nat, enableCaching: bool)
      requires 0 < numBlocks && numBlocks + 2 <= NIL
      ensures Linked() && n == numBlocks && caching == enableCaching
      ensures St() == InitPool(enableCaching, numBlocks) && journal == None
    {
      n := numBlocks;
      caching := enableCaching;
      arena := NewArena(numBlocks);
      numFree := numBlocks;
      cached, aliases, evicted, journal := map[], map[], [], None;
      new;
      hide NewArena, InitPool, Ids, Chain, Inv, Order, Metas;
      NewArenaChain(n);
      OrderIs(arena, n, Ids(n));
      InitShape(caching, n);
      var ok, id := Popleft();
      ChainShape(arena, n, Queue());
      assert arena[id].meta == BLANK by { MetaAt(arena, n, id); }
      SetMeta(id, arena[id].meta.(isNull := true));
      InitInv(caching, n);
    }

    // ---- the recording sites --------------------------------------------------------

    /** Append one entry while the journal is armed. */
    method Note(op: Undo)
      modifies this`journal
      ensures journal == if old(journal).Some? then Some(old(journal).value + [op]) else None
      ensures St() == old(St()) && Cells() == old(Cells()) && Linked() == old(Linked())
    {
      if journal.Some? { journal := Some(journal.value + [op]); }
    }

    lemma Pushed(c: Comp, ops: seq<Undo>, op: Undo)
      requires journal == Some(ops + [op])
      ensures Log(c) == if CompOf(op) == c then Project(ops, c) + [op] else Project(ops, c)
    {
      ProjectPush(ops, op, c);
    }

    /** The one place a block is written. */
    method Write(id: Id, b: Block)
      requires id < |arena|
      modifies this
      ensures Cells() == old(Cells()).(arena := old(arena)[id := b])
      ensures Recorded()
    {
      ghost var c := Cells();
      var op := UBlock(id, arena[id]);
      Note(op);
      arena := arena[id := b];
      if old(journal).Some? {
        forall k
          ensures Log(k) == if k == PoolComp then old(Log(k)) + [op] else old(Log(k))
        {
          Pushed(k, old(journal).value, op);
        }
        PoolWrite(c, Cells(), old(Log(PoolComp)), op);
      }
    }

    method SetFree(count: nat)
      modifies this
      ensures Cells() == old(Cells()).(numFree := count)
      ensures Recorded()
    {
      ghost var c := Cells();
      var op := Undo.FreeCount(numFree);
      Note(op);
      numFree := count;
      if old(journal).Some? {
        forall k
          ensures Log(k) == if k == PoolComp then old(Log(k)) + [op] else old(Log(k))
        {
          Pushed(k, old(journal).value, op);
        }
        PoolWrite(c, Cells(), old(Log(PoolComp)), op);
      }
    }

    /** Record one key's mapping, then replace the index by one that differs at that key only. */
    method SetIndex(key: HashKey, m: IndexMap)
      requires PutOr(m, key, Get(cached, key)) == cached
      modifies this
      ensures Cells() == old(Cells()).(cached := m)
      ensures Recorded()
    {
      ghost var c := Cells();
      var op := Index(key, Get(cached, key));
      Note(op);
      cached := m;
      if old(journal).Some? {
        forall k
          ensures Log(k) == if k == PoolComp then old(Log(k)) + [op] else old(Log(k))
        {
          Pushed(k, old(journal).value, op);
        }
        PoolWrite(c, Cells(), old(Log(PoolComp)), op);
      }
    }

    method SetAliases(id: Id, keys: Option<seq<HashKey>>)
      modifies this
      ensures Cells() == old(Cells()).(aliases := PutOr(old(aliases), id, keys))
      ensures Recorded()
    {
      ghost var c := Cells();
      var op := CachedByBlock(id, Get(aliases, id));
      Note(op);
      aliases := PutOr(aliases, id, keys);
      assert PutOr(aliases, id, Get(c.aliases, id)) == c.aliases;
      if old(journal).Some? {
        forall k
          ensures Log(k) == if k == PoolComp then old(Log(k)) + [op] else old(Log(k))
        {
          Pushed(k, old(journal).value, op);
        }
        PoolWrite(c, Cells(), old(Log(PoolComp)), op);
      }
    }

    method PushEvicted(id: Id)
      modifies this
      ensures Cells() == old(Cells()).(evicted := old(evicted) + [id])
      ensures Recorded()
    {
      ghost var c := Cells();
      var op := EvictedLen(|evicted|);
      Note(op);
      evicted := evicted + [id];
      if old(journal).Some? {
        forall k
          ensures Log(k) == if k == PoolComp then old(Log(k)) + [op] else old(Log(k))
        {
          Pushed(k, old(journal).value, op);
        }
        PoolWrite(c, Cells(), old(Log(PoolComp)), op);
      }
    }

    /** Change a block's bookkeeping, not its links. */
    method SetMeta(id: Id, m: Meta)
      requires Linked() && id < n
      modifies this
      ensures Linked() && St() == Put(old(St()), id, m) && arena[id].meta == m
      ensures Recorded()
    {
      ghost var a, q := arena, Queue();
      Write(id, arena[id].(meta := m));
      RelabelChain(a, n, q, id, m);
      OrderIs(arena, n, q);
    }

    // ---- the free queue -------------------------------------------------------------

    method Popleft() returns (ok: bool, id: Id)
      requires Linked()
      modifies this
      ensures ok == (old(numFree) > 0)
      ensures ok ==> Linked() && id == old(St()).free[0] && St() == old(St()).(free := old(St()).free[1..])
      ensures ok ==> arena == PopOne(old(arena), n)
      ensures !ok ==> Cells() == old(Cells())
      ensures Recorded()
    {
      ghost var a, q := arena, Queue();
      assert arena[Node(n, q, -1)].next == Node(n, q, 0);
      var first := arena[n].next;
      if first == n + 1 || first == NIL { return false, 0; }
      assert first == q[0];
      var next := arena[first].next;
      assert arena[Node(n, q, 0)].next == Node(n, q, 1);
      Write(n, Next(arena[n], next));
      Write(next, Prev(arena[next], n));
      Write(first, Cut(arena[first]));
      SetFree(numFree - 1);
      BridgeChain(a, n, q, 0);
      assert arena == Bridge(a, first);
      assert q[..0] + q[1..] == q[1..];
      OrderIs(arena, n, q[1..]);
      PopIs(a, n, q);
      return true, first;
    }

    /** The loop of `popleft_n`: cut the first `k` blocks out, leaving the ends dangling. */
    method CutFront(k: nat, ghost q: seq<Id>) returns (out: seq<Id>, curr: nat)
      requires n > 0 && Chain(arena, n, q) && k <= |q|
      modifies this
      ensures out == q[..k] && curr == Node(n, q, k)
      ensures Cells() == old(Cells()).(arena := Unlinked(old(arena), q[..k]))
      ensures Recorded()
    {
      hide Chain, ReplayPool, Project, Unlinked;
      ghost var c := Cells();
      ChainShape(arena, n, q);
      ChainNext(arena, n, q, -1);
      out := [];
      curr := arena[n].next;
      UnlinkNone(c.arena, q);
      for i := 0 to k
        invariant curr == Node(n, q, i) && out == q[..i]
        invariant Cells() == c.(arena := Unlinked(c.arena, q[..i]))
        invariant Recorded()
      {
        out := out + [curr];
        var last := curr;
        ChainNext(c.arena, n, q, i);
        UnlinkNext(c.arena, q, i);
        curr := arena[curr].next;
        Write(last, Cut(arena[last]));
      }
    }

    method PopleftN(k: nat) returns (out: seq<Id>)
      requires Linked() && k <= numFree
      modifies this
      ensures Linked() && out == old(St()).free[..k] && St() == old(St()).(free := old(St()).free[k..])
      ensures arena == Pops(old(arena), n, k)
      ensures Recorded()
    {
      ghost var a, q := arena, Queue();
      if k == 0 { return []; }
      hide Chain, Inv, Base, Log, Order, Metas, Unlinked, Pops;
      SetFree(numFree - k);
      var curr: nat;
      out, curr := CutFront(k, q);
      ChainShape(a, n, q);
      ChainNext(a, n, q, k - 1);
      PopFrontChain(a, n, q, k);
      if curr != NIL {
        Write(n, Next(arena[n], curr));
        Write(curr, Prev(arena[curr], n));
      }
      OrderIs(arena, n, q[k..]);
      FrontIsPops(a, n, q, k);
    }

    /** Bridge a block's neighbours and cut it loose. */
    method Unlink(id: Id)
      requires id < |arena| && arena[id].prev < |arena| && arena[id].next < |arena| && numFree > 0
      requires arena[id].prev != id && arena[id].next != id && arena[id].prev != arena[id].next
      modifies this
      ensures Cells() == old(Cells()).(arena := Bridge(old(arena), id), numFree := old(numFree) - 1)
      ensures Recorded()
    {
      hide Inv, Base, Log, Order, Metas, Chain;
      ghost var a := arena;
      var prev, next := arena[id].prev, arena[id].next;
      Write(prev, Next(arena[prev], next));
      Write(next, Prev(arena[next], prev));
      Write(id, Cut(arena[id]));
      SetFree(numFree - 1);
      assert arena == Bridge(a, id);
    }

    /** Unlink one block; an error if it is not queued. */
    method Remove(id: Id) returns (ok: bool)
      requires Linked() && id < n
      modifies this
      ensures ok == (id in old(St()).free)
      ensures ok ==> Linked() && St() == old(St()).(free := RemoveFirst(old(St()).free, id))
      ensures !ok ==> Cells() == old(Cells())
      ensures Recorded()
    {
      hide Inv, Base, Log, Order, Metas, Chain, RemoveFirst, LinkRun, Bridge;
      ghost var a, q := arena, Queue();
      ChainShape(arena, n, q);
      ChainLinked(a, n, q, id);
      if arena[id].prev == NIL || arena[id].next == NIL { return false; }
      ghost var k :| 0 <= k < |q| && q[k] == id;
      BridgeChain(a, n, q, k);
      NodeApart(n, q, k - 1, k);
      NodeApart(n, q, k, k + 1);
      NodeApart(n, q, k - 1, k + 1);
      RemoveFirstSplit(q, id, k);
      RemoveFirstMultiset(q, id);
      Unlink(id);
      OrderIs(arena, n, RemoveFirst(q, id));
      ChainShape(arena, n, RemoveFirst(q, id));
      return true;
    }

    /** Link a run of blocks between two neighbours of the queue. */
    method Splice(from: nat, ids: seq<Id>, to: nat, ghost k: nat)
      requires Linked() && ids != [] && Loose(n, Queue(), ids) && k <= numFree
      requires from == Node(n, Queue(), k - 1) && to == Node(n, Queue(), k)
      modifies this
      ensures Linked() && St() == old(St()).(free := old(St()).free[..k] + ids + old(St()).free[k..])
      ensures Recorded()
    {
      hide Inv, Base, Log, Order, Metas, Chain;
      ghost var c, q := Cells(), Queue();
      ChainShape(arena, n, q);
      var prev := from;
      LinkedChain(arena, n, q, k, ids);
      assert ids[0..] == ids;
      for i := 0 to |ids|
        invariant prev == if i == 0 then from else ids[i - 1]
        invariant |arena| == |c.arena| && LinkRun(arena, prev, ids[i..]) == LinkRun(c.arena, from, ids)
        invariant Cells() == c.(arena := arena)
        invariant Recorded()
      {
        assert ids[i..][0] == ids[i] && ids[i..][1..] == ids[i + 1..];
        Write(ids[i], Prev(arena[ids[i]], prev));
        Write(prev, Next(arena[prev], ids[i]));
        prev := ids[i];
      }
      Write(prev, Next(arena[prev], to));
      Write(to, Prev(arena[to], prev));
      SetFree(numFree + |ids|);
      assert arena == FreeQueue.Linked(c.arena, from, ids, to);
      OrderIs(arena, n, q[..k] + ids + q[k..]);
    }

    method PrependN(ids: seq<Id>)
      requires Linked() && Loose(n, Queue(), ids)
      modifies this
      ensures Linked() && St() == old(St()).(free := ids + old(St()).free)
      ensures Recorded()
    {
      if ids == [] { return; }
      ghost var q := Queue();
      assert arena[Node(n, q, -1)].next == Node(n, q, 0);
      Splice(n, ids, arena[n].next, 0);
      assert q[..0] + ids + q[0..] == ids + q;
    }

    method AppendN(ids: seq<Id>)
      requires Linked() && Loose(n, Queue(), ids)
      modifies this
      ensures Linked() && St() == old(St()).(free := old(St()).free + ids)
      ensures Recorded()
    {
      if ids == [] { return; }
      ghost var q := Queue();
      assert arena[Node(n, q, |q|)].prev == Node(n, q, |q| - 1);
      Splice(arena[n + 1].prev, ids, n + 1, |q|);
      assert q[..|q|] + ids + q[|q|..] == q + ids;
    }

    // ---- hashes ---------------------------------------------------------------------

    /** `_remove_cached_block_hashes`: how many keys were mapped to the block. */
    method RemoveCachedBlockHashes(id: Id) returns (removed: nat)
      requires Linked() && id < n
      modifies this
      ensures Linked() && St() == RemoveHashes(old(St()), id)
      ensures removed == Popped(old(St()).cached, KeysOf(old(St()), id), id)
      ensures Recorded()
    {
      hide Chain, Inv, Base, Log, Order, Metas, Pop;
      ChainShape(arena, n, Queue());
      MetaAt(arena, n, id);
      ghost var p := St();
      removed := 0;
      var keys := if arena[id].meta.hash.Some? then [arena[id].meta.hash.value] else [];
      if id in aliases {
        keys := keys + aliases[id];
        SetAliases(id, None);
      }
      assert keys == KeysOf(p, id);
      assert aliases == p.aliases - {id};
      if keys == [] { return; }
      assert keys[0..] == keys;
      for i := 0 to |keys|
        invariant Cells() == old(Cells()).(aliases := p.aliases - {id}, cached := cached)
        invariant PopAll(cached, keys[i..], id) == PopAll(p.cached, keys, id)
        invariant removed + Popped(cached, keys[i..], id) == Popped(p.cached, keys, id)
        invariant Recorded()
      {
        assert keys[i..][0] == keys[i] && keys[i..][1..] == keys[i + 1..];
        if Contain(cached, keys[i], id) { removed := removed + 1; }
        PopUndone(cached, keys[i], id);
        SetIndex(keys[i], Pop(cached, keys[i], id));
      }
      SetMeta(id, arena[id].meta.(hash := None, hashTokens := None));
    }

    /** `_insert_block_hash`. */
    method InsertBlockHash(key: HashKey, id: Id, tokens: nat)
      requires Linked() && id < n
      modifies this
      ensures Linked() && St() == InsertHash(old(St()), key, id, tokens)
      ensures Recorded()
    {
      hide Chain, Inv, Base, Log, Order, Metas, Insert;
      ChainShape(arena, n, Queue());
      MetaAt(arena, n, id);
      if arena[id].meta.hash == Some(key) || Contain(cached, key, id) { return; }
      if arena[id].meta.hash.None? {
        SetMeta(id, arena[id].meta.(hash := Some(key), hashTokens := Some(tokens)));
      } else {
        SetAliases(id, Some((if id in aliases then aliases[id] else []) + [key]));
      }
      InsertUndone(cached, key, id);
      SetIndex(key, Insert(cached, key, id));
    }

    /** The body of the `cache_full_blocks` loop. */
    method CacheBlock(id: Id, key: HashKey, tokens: nat)
      requires Linked() && id < n
      modifies this
      ensures Linked() && St() == CacheOne(old(St()), id, key, tokens)
      ensures Recorded()
    {
      hide Chain, Inv, Base, Log, Order, Metas, RemoveHashes, InsertHash;
      ChainShape(arena, n, Queue());
      MetaAt(arena, n, id);
      if arena[id].meta.isNull { return; }
      if arena[id].meta.hash.Some? {
        var _ := RemoveCachedBlockHashes(id);
      }
      InsertBlockHash(key, id, tokens);
    }

    /** `cache_full_blocks`: the request has a block and a hash for every full block. */
    method CacheFullBlocks(blocks: seq<Id>, hashes: seq<Digest>, stride: nat, from: nat, to: nat, bs: nat, group: nat)
      requires Linked() && InRange(St(), blocks)
      requires to <= |blocks| && to * stride <= |hashes| && stride > 0
      modifies this
      ensures Linked() && St() == CacheFull(old(St()), blocks, hashes, stride, from, to, bs, group)
      ensures Recorded()
    {
      hide Chain, Inv, Base, Log, Order, Metas, CacheOne, KeyAt;
      ghost var p := St();
      if from >= to { return; }
      for i := from to to
        invariant Linked()
        invariant CacheFull(St(), blocks, hashes, stride, i, to, bs, group)
            == CacheFull(p, blocks, hashes, stride, from, to, bs, group)
        invariant Recorded()
      {
        assert blocks[i] in blocks;
        KeyInRange(hashes, stride, group, i, to);
        CacheBlock(blocks[i], HashKey(hashes[(i + 1) * stride - 1], group), (i + 1) * bs);
      }
    }

    /** `_maybe_evict_cached_block`. */
    method MaybeEvict(id: Id)
      requires Linked() && id < n
      modifies this
      ensures Linked() && St() == Evict(old(St()), id)
      ensures Recorded()
    {
      hide Chain, Inv, Base, Log, Order, Metas, RemoveHashes, Popped;
      var evictions := RemoveCachedBlockHashes(id);
      if evictions == 0 { return; }
      PushEvicted(id);
    }

    /** `evict_blocks`. */
    method EvictBlocks(ids: seq<Id>)
      requires Linked() && InRange(St(), ids)
      modifies this
      ensures Linked() && St() == EvictAll(old(St()), ids)
      ensures Recorded()
    {
      hide Chain, Inv, Base, Log, Order, Evict;
      assert ids[..0] == [];
      for i := 0 to |ids|
        invariant Linked() && St() == EvictAll(old(St()), ids[..i])
        invariant Recorded()
      {
        assert ids[..i + 1][..i] == ids[..i];
        assert ids[i] in ids;
        MaybeEvict(ids[i]);
      }
      assert ids[..|ids|] == ids;
    }

    /** `reset_prefix_cache`: sweeps every block, outside any recording. */
    method ResetPrefixCache() returns (ok: bool)
      requires Linked() && journal.None?
      modifies this`arena, this`cached, this`aliases
      ensures Linked() && (St(), ok) == ResetCache(old(St()))
    {
      hide Chain, Order, Stripped;
      if n - numFree != 1 { return false; }
      ghost var a, q, p := arena, Queue(), St();
      cached, aliases := map[], map[];
      for i := 0 to |arena|
        invariant cached == map[] && aliases == map[] && |arena| == |a|
        invariant forall x :: 0 <= x < |a| ==> arena[x] == if x < i then a[x].(meta := Stripped(a[x].meta)) else a[x]
      {
        arena := arena[i := arena[i].(meta := Stripped(arena[i].meta))];
      }
      StrippedChain(a, arena, n, q);
      OrderIs(arena, n, q);
      assert St().meta == ResetCache(p).0.meta;
      ok := true;
    }

    // ---- holding and releasing ------------------------------------------------------

    /** Evict one block and take a reference to it. */
    method TakeBlock(id: Id)
      requires Linked() && id < n
      modifies this
      ensures Linked() && St() == TakeOne(old(St()), id)
      ensures Recorded()
    {
      hide Chain, Inv, Base, Log, Order, Metas, Evict;
      if caching { MaybeEvict(id); }
      ChainShape(arena, n, Queue());
      MetaAt(arena, n, id);
      SetMeta(id, arena[id].meta.(ref := arena[id].meta.ref + 1));
    }

    /** `get_new_blocks`: the front of the queue, or an error when it is too short. */
    method GetNewBlocks(k: nat) returns (ok: bool, out: seq<Id>)
      requires Linked() && Inv(St())
      modifies this
      ensures ok == (k <= |old(St()).free|)
      ensures Linked() && (ok ==> (St(), out) == GetNew(old(St()), k))
      ensures !ok ==> St() == old(St()) && out == []
      ensures Recorded()
    {
      hide Linked, St, Inv, Base, Log, TakeOne;
      FreeCount();
      if k > numFree { return false, []; }
      ghost var p := St();
      FrontInRange(p, k);
      SameSwitch();
      out := PopleftN(k);
      ghost var r := St();
      assert out[0..] == out;
      for i := 0 to |out|
        invariant Linked() && Take(St(), out[i..]) == Take(r, out)
        invariant Recorded()
      {
        assert out[i..][0] == out[i] && out[i..][1..] == out[i + 1..];
        assert out[i] in out;
        TakeUnfold(St(), out[i..]);
        TakeBlock(out[i]);
      }
      TakeNone(St());
      assert out[|out|..] == [];
      GetNewOk(p, k);
      ok := true;
    }

    /** `touch`. */
    method TouchBlocks(ids: seq<Id>) returns (ok: bool)
      requires Linked() && InRange(St(), ids)
      modifies this
      ensures Linked() && (St(), ok) == Touch(old(St()), ids)
      ensures Recorded()
    {
      hide Chain, Inv, Base, Log, Order, Metas, RemoveFirst;
      ghost var p := St();
      assert ids[0..] == ids;
      for i := 0 to |ids|
        invariant Linked() && Touch(St(), ids[i..]) == Touch(p, ids)
        invariant Recorded()
      {
        assert ids[i..][0] == ids[i] && ids[i..][1..] == ids[i + 1..];
        var b := ids[i];
        assert b in ids;
        ChainShape(arena, n, Queue());
        MetaAt(arena, n, b);
        if arena[b].meta.ref == 0 && !arena[b].meta.isNull {
          var removed := Remove(b);
          if !removed { return false; }
          ChainShape(arena, n, Queue());
          MetaAt(arena, n, b);
        }
        SetMeta(b, arena[b].meta.(ref := arena[b].meta.ref + 1));
      }
      return true;
    }

    /** `free_blocks`: drop one reference per listing, then queue what was released. */
    method FreeAll(ids: seq<Id>)
      requires Linked() && Inv(St()) && InRange(St(), ids) && Held(St(), multiset(ids))
      modifies this
      ensures Linked() && St() == FreeBlocks(old(St()), ids)
      ensures Recorded()
    {
      hide Chain, Inv, Base, Log, Order, Metas, Held;
      ghost var p := St();
      ReleasedLoose(p, n, ids);
      var hashed, bare := [], [];
      assert ids[0..] == ids;
      for i := 0 to |ids|
        invariant Linked() && Drop(St(), ids[i..], bare, hashed) == Drop(p, ids, [], [])
        invariant Recorded()
      {
        assert ids[i..][0] == ids[i] && ids[i..][1..] == ids[i + 1..];
        var b := ids[i];
        assert b in ids;
        ChainShape(arena, n, Queue());
        MetaAt(arena, n, b);
        SetMeta(b, arena[b].meta.(ref := arena[b].meta.ref - 1));
        ChainShape(arena, n, Queue());
        if arena[b].meta.ref == 0 && !arena[b].meta.isNull {
          if arena[b].meta.hash.None? { bare := bare + [b]; } else { hashed := hashed + [b]; }
        }
      }
      PrependN(bare);
      AppendN(hashed);
    }

    /** Put one recorded value back. */
    method Restore(op: Undo)
      modifies this`arena, this`numFree, this`cached, this`aliases, this`evicted
      ensures Cells() == UndoPool(old(Cells()), op)
    {
      match op
      case UBlock(id, block) => if id < |arena| { arena := arena[id := block]; }
      case FreeCount(count) => numFree := count;
      case Index(key, entry) => cached := PutOr(cached, key, entry);
      case CachedByBlock(id, keys) => aliases := PutOr(aliases, id, keys);
      case EvictedLen(count) => evicted := evicted[..Min(count, |evicted|)];
      case _ =>
    }
  }

  lemma TakeUnfold(p: Pool, ids: seq<Id>)
    requires ids != []
    ensures Take(p, ids) == Take(TakeOne(p, ids[0]), ids[1..])
  {}

  lemma TakeNone(p: Pool)
    ensures Take(p, []) == p
  {}

  lemma PopUndone(m: IndexMap, k: HashKey, b: Id)
    ensures PutOr(Pop(m, k, b), k, Get(m, k)) == m
  {
    hide RemoveFirst;
  }

  lemma InsertUndone(m: IndexMap, k: HashKey, b: Id)
    ensures PutOr(Insert(m, k, b), k, Get(m, k)) == m
  {}

  lemma KeyInRange(hashes: seq<Digest>, stride: nat, group: nat, i: nat, to: nat)
    requires i < to && to * stride <= |hashes| && stride > 0
    ensures 0 <= (i + 1) * stride - 1 < |hashes|
    ensures KeyAt(hashes, stride, group, i) == Some(HashKey(hashes[(i + 1) * stride - 1], group))
  {
    hide KeyAt;
    MulOrder(1, i + 1, stride);
    MulOrder(i + 1, to, stride);
    KeyAtIs(hashes, stride, group, i);
  }

  lemma KeyAtIs(hashes: seq<Digest>, stride: nat, group: nat, i: nat)
    requires 0 <= (i + 1) * stride - 1 < |hashes|
    ensures KeyAt(hashes, stride, group, i) == Some(HashKey(hashes[(i + 1) * stride - 1], group))
  {}

  lemma FrontInRange(p: Pool, k: nat)
    requires Inv(p) && k <= |p.free|
    ensures forall x :: x in p.free[..k] ==> x < |p.meta|
  {
    FrontIdle(p, k);
  }

  /** What `free_blocks` queues may be queued: distinct, and not queued already. */
  lemma ReleasedLoose(p: Pool, n: nat, ids: seq<Id>)
    requires Inv(p) && |p.meta| == n && InRange(p, ids) && Held(p, multiset(ids))
    ensures var (q, bare, hashed) := Drop(p, ids, [], []);
      q.free == p.free && Loose(n, p.free, bare) && Loose(n, bare + p.free, hashed)
  {
    hide Drop;
    DropOk(p, ids, [], []);
    var (q, bare, hashed) := Drop(p, ids, [], []);
    QueuedDistinct(q, bare, p.free, hashed);
  }

  lemma QueuedDistinct(q: Pool, a: seq<Id>, b: seq<Id>, c: seq<Id>)
    requires Queued(q, multiset(a) + multiset(b) + multiset(c))
    ensures Loose(|q.meta|, b, a) && Loose(|q.meta|, a + b, c)
  {
    var m := multiset(a) + multiset(b) + multiset(c);
    forall x: Id ensures multiset(a)[x] <= 1 && multiset(c)[x] <= 1 && m[x] <= 1 && (m[x] > 0 ==> x < |q.meta|) {
      assert m[x] == multiset(a)[x] + multiset(b)[x] + multiset(c)[x];
    }
    DistinctMultiset(a);
    DistinctMultiset(c);
    forall i | 0 <= i < |a| ensures a[i] < |q.meta| && a[i] !in b {
      assert a[i] in multiset(a);
      assert m[a[i]] == multiset(a)[a[i]] + multiset(b)[a[i]] + multiset(c)[a[i]];
    }
    forall i | 0 <= i < |c| ensures c[i] < |q.meta| && c[i] !in a + b {
      assert c[i] in multiset(c);
      assert m[c[i]] == multiset(a)[c[i]] + multiset(b)[c[i]] + multiset(c)[c[i]];
    }
  }
}
