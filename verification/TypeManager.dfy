/**
 * `TypeManager` (single_type.rs): one group's block tables, rewritten in place against the
 * shared pool. Each method performs the `TypeSpec` operation on the pair of values and, while
 * the pool's journal is armed, leaves both sides' undone state unchanged.
 */
module TypeManagers {
  import opened Basics
  import opened PoolSpec
  import opened PoolInv
  import opened PoolCounts
  import opened TypeSpec
  import opened TypeInv
  import opened TypeAlloc
  import opened Journal
  import opened BlockPools

  /** What the program asserts of a caching call: the request has a block and a hash for every
      block that is to be filed. */
  predicate Fileable(t: Tm, slot: Slot, hashes: seq<Digest>, stride: nat, tokens: nat) {
    var to := tokens / Bs(t);
    NumCached(t, slot) < to ==> to <= |Blocks(t, slot)| && to * stride <= |hashes| && stride > 0
  }

  class TypeManager {
    const group: Group
    var reqBlocks: map<Slot, seq<Id>>
    var numCached: map<Slot, nat>
    var newIds: seq<Id>
    var cachedThisStep: set<HashKey>
    var lastState: map<Slot, nat>
    var allocatedReqs: set<Slot>

    constructor (g: Group)
      ensures group == g && St() == InitTm(g)
    {
      group := g;
      reqBlocks, numCached, newIds, cachedThisStep, lastState, allocatedReqs := map[], map[], [], {}, map[], {};
    }

    function St(): Tm
      reads this
    {
      Tm(group, reqBlocks, numCached, newIds, cachedThisStep, lastState, allocatedReqs)
    }

    ghost function Base(pool: BlockPool): Tm
      reads this, pool
    {
      ReplayTm(St(), pool.Log(GroupComp(group.id)))
    }

    /** What every operation does to the journal. */
    twostate predicate Recorded(pool: BlockPool)
      reads this, pool
    {
      && pool.journal.Some? == old(pool.journal.Some?)
      && (pool.journal.Some? ==> pool.Base() == old(pool.Base()) && Base(pool) == old(Base(pool)))
      && (forall c :: c != PoolComp && c != GroupComp(group.id) ==> pool.Log(c) == old(pool.Log(c)))
    }

    ghost predicate Ready(pool: BlockPool)
      reads this, pool
    {
      pool.Linked() && Settled(pool.St(), St())
    }

    // ---- the recording sites --------------------------------------------------------

    method Note(pool: BlockPool, op: Undo)
      requires CompOf(op) == GroupComp(group.id)
      modifies pool`journal
      ensures pool.journal.Some? == old(pool.journal.Some?)
      ensures pool.journal.Some? ==> pool.Log(GroupComp(group.id)) == old(pool.Log(GroupComp(group.id))) + [op]
      ensures pool.Base() == old(pool.Base()) && pool.St() == old(pool.St()) && pool.Linked() == old(pool.Linked())
      ensures forall c :: c != GroupComp(group.id) ==> pool.Log(c) == old(pool.Log(c))
    {
      pool.Note(op);
      if old(pool.journal).Some? {
        forall k ensures pool.Log(k) == if k == GroupComp(group.id) then old(pool.Log(k)) + [op] else old(pool.Log(k)) {
          pool.Pushed(k, old(pool.journal).value, op);
        }
      }
    }

    lemma Wrote(pool: BlockPool, t: Tm, ops: seq<Undo>, op: Undo)
      requires pool.journal.Some? && pool.Log(GroupComp(group.id)) == ops + [op] && UndoTm(St(), op) == t
      ensures Base(pool) == ReplayTm(t, ops)
    {
      TmWrite(t, St(), ops, op);
    }

    method PutNumCached(pool: BlockPool, slot: Slot, number: Option<nat>)
      modifies this`numCached, pool`journal
      ensures St() == old(St()).(numCached := PutOr(old(numCached), slot, number))
      ensures Recorded(pool) && pool.St() == old(pool.St()) && pool.Linked() == old(pool.Linked())
    {
      hide BlockPool.Base, BlockPool.Log, BlockPool.St, BlockPool.Linked, BlockPool.Cells, ReplayTm;
      ghost var t, ops := St(), pool.Log(GroupComp(group.id));
      var op := NumCachedBlock(group.id, slot, Get(numCached, slot));
      Note(pool, op);
      numCached := PutOr(numCached, slot, number);
      assert PutOr(numCached, slot, Get(t.numCached, slot)) == t.numCached;
      if pool.journal.Some? { Wrote(pool, t, ops, op); }
    }

    method PutLastState(pool: BlockPool, slot: Slot, number: Option<nat>)
      modifies this`lastState, pool`journal
      ensures St() == old(St()).(lastState := PutOr(old(lastState), slot, number))
      ensures Recorded(pool) && pool.St() == old(pool.St()) && pool.Linked() == old(pool.Linked())
    {
      hide BlockPool.Base, BlockPool.Log, BlockPool.St, BlockPool.Linked, BlockPool.Cells, ReplayTm;
      ghost var t, ops := St(), pool.Log(GroupComp(group.id));
      var op := LastStateIdx(group.id, slot, Get(lastState, slot));
      Note(pool, op);
      lastState := PutOr(lastState, slot, number);
      assert PutOr(lastState, slot, Get(t.lastState, slot)) == t.lastState;
      if pool.journal.Some? { Wrote(pool, t, ops, op); }
    }

    method PutAllocated(pool: BlockPool, slot: Slot, present: bool)
      modifies this`allocatedReqs, pool`journal
      ensures St()
          == old(St()).(allocatedReqs := if present then old(allocatedReqs) + {slot} else old(allocatedReqs) - {slot})
      ensures Recorded(pool) && pool.St() == old(pool.St()) && pool.Linked() == old(pool.Linked())
    {
      hide BlockPool.Base, BlockPool.Log, BlockPool.St, BlockPool.Linked, BlockPool.Cells, ReplayTm;
      ghost var t, ops := St(), pool.Log(GroupComp(group.id));
      var op := AllocatedReq(group.id, slot, slot in allocatedReqs);
      Note(pool, op);
      allocatedReqs := if present then allocatedReqs + {slot} else allocatedReqs - {slot};
      assert UndoTm(St(), op) == t;
      if pool.journal.Some? { Wrote(pool, t, ops, op); }
    }

    method PushNewIds(pool: BlockPool, ids: seq<Id>)
      modifies this`newIds, pool`journal
      ensures St() == old(St()).(newIds := old(newIds) + ids)
      ensures Recorded(pool) && pool.St() == old(pool.St()) && pool.Linked() == old(pool.Linked())
    {
      hide BlockPool.Base, BlockPool.Log, BlockPool.St, BlockPool.Linked, BlockPool.Cells, ReplayTm;
      ghost var t, ops := St(), pool.Log(GroupComp(group.id));
      var op := NewBlockIdsLen(group.id, |newIds|);
      Note(pool, op);
      newIds := newIds + ids;
      assert UndoTm(St(), op) == t;
      if pool.journal.Some? { Wrote(pool, t, ops, op); }
    }

    method AddStepKey(pool: BlockPool, key: HashKey)
      modifies this`cachedThisStep, pool`journal
      ensures St() == old(St()).(cachedThisStep := old(cachedThisStep) + {key})
      ensures Recorded(pool) && pool.St() == old(pool.St()) && pool.Linked() == old(pool.Linked())
    {
      hide BlockPool.Base, BlockPool.Log, BlockPool.St, BlockPool.Linked, BlockPool.Cells, ReplayTm;
      ghost var t, ops := St(), pool.Log(GroupComp(group.id));
      var op := CachedThisStepInsert(group.id, key, key in cachedThisStep);
      Note(pool, op);
      cachedThisStep := cachedThisStep + {key};
      assert UndoTm(St(), op) == t;
      if pool.journal.Some? { Wrote(pool, t, ops, op); }
    }

    /** `blocks_mut`: reading a table creates its entry. */
    method EnsureEntry(pool: BlockPool, slot: Slot)
      modifies this`reqBlocks, pool`journal
      ensures St() == TouchEntry(old(St()), slot)
      ensures Recorded(pool) && pool.St() == old(pool.St()) && pool.Linked() == old(pool.Linked())
    {
      if slot !in reqBlocks {
        ghost var t, ops := St(), pool.Log(GroupComp(group.id));
        var op := ReqBlocksInsert(group.id, slot);
        Note(pool, op);
        reqBlocks := reqBlocks[slot := []];
        assert UndoTm(St(), op) == t;
        if pool.journal.Some? { Wrote(pool, t, ops, op); }
      }
    }

    /** Record the length of a table, then append to it. */
    method Append(pool: BlockPool, slot: Slot, ids: seq<Id>)
      requires slot in reqBlocks
      modifies this`reqBlocks, pool`journal
      ensures St() == SetBlocks(old(St()), slot, old(reqBlocks)[slot] + ids)
      ensures Recorded(pool) && pool.St() == old(pool.St()) && pool.Linked() == old(pool.Linked())
    {
      ghost var t, ops := St(), pool.Log(GroupComp(group.id));
      var op := ReqBlocksLen(group.id, slot, |reqBlocks[slot]|);
      Note(pool, op);
      reqBlocks := reqBlocks[slot := reqBlocks[slot] + ids];
      assert UndoTm(St(), op) == t;
      if pool.journal.Some? { Wrote(pool, t, ops, op); }
    }

    method NullEntry(pool: BlockPool, slot: Slot, i: nat)
      requires slot in reqBlocks && i < |reqBlocks[slot]|
      modifies this`reqBlocks, pool`journal
      ensures St() == SetBlocks(old(St()), slot, old(reqBlocks)[slot][i := NULL])
      ensures Recorded(pool) && pool.St() == old(pool.St()) && pool.Linked() == old(pool.Linked())
    {
      ghost var t, ops := St(), pool.Log(GroupComp(group.id));
      var op := ReqBlocksSet(group.id, slot, i, reqBlocks[slot][i]);
      Note(pool, op);
      var v: seq<Id> := reqBlocks[slot];
      var w := v[i := NULL];
      reqBlocks := reqBlocks[slot := w];
      assert w[i := v[i]] == v;
      assert UndoTm(St(), op) == t;
      if pool.journal.Some? { Wrote(pool, t, ops, op); }
    }

    /** Take a whole table out. */
    method TakeTable(pool: BlockPool, slot: Slot) returns (blocks: seq<Id>)
      modifies this`reqBlocks, pool`journal
      ensures blocks == Blocks(old(St()), slot) && St() == old(St()).(reqBlocks := old(reqBlocks) - {slot})
      ensures Recorded(pool) && pool.St() == old(pool.St()) && pool.Linked() == old(pool.Linked())
    {
      blocks := [];
      if slot in reqBlocks {
        ghost var t, ops := St(), pool.Log(GroupComp(group.id));
        blocks := reqBlocks[slot];
        var op := ReqBlocksRemove(group.id, slot, blocks);
        Note(pool, op);
        reqBlocks := reqBlocks - {slot};
        assert UndoTm(St(), op) == t;
        if pool.journal.Some? { Wrote(pool, t, ops, op); }
      } else {
        assert reqBlocks - {slot} == reqBlocks;
      }
    }

    // ---- releasing ------------------------------------------------------------------

    /** The loop of `_remove_blocks_in_range`: null entries downwards until one is null already. */
    method NullRun(pool: BlockPool, slot: Slot, first: nat, hi: nat) returns (freed: seq<Id>, lo: nat)
      requires slot in reqBlocks && first < hi <= |reqBlocks[slot]|
      modifies this`reqBlocks, pool`journal
      ensures lo == RunStart(old(reqBlocks)[slot], first, hi) && lo <= hi
      ensures freed == Reverse(old(reqBlocks)[slot][lo..hi])
      ensures St() == SetBlocks(old(St()), slot, NullRange(old(reqBlocks)[slot], lo, hi))
      ensures Recorded(pool) && pool.St() == old(pool.St()) && pool.Linked() == old(pool.Linked())
    {
      hide BlockPool.Base, BlockPool.Log, BlockPool.St, BlockPool.Linked, BlockPool.Cells, ReplayTm, NullRange;
      ghost var t, v := St(), reqBlocks[slot];
      var i := hi;
      freed := [];
      NullNone(v, hi);
      while i > first && reqBlocks[slot][i - 1] != NULL
        invariant first <= i <= hi && slot in reqBlocks
        invariant St() == SetBlocks(t, slot, NullRange(v, i, hi))
        invariant freed == Reverse(v[i..hi])
        invariant forall k :: i <= k < hi ==> v[k] != NULL
        invariant Recorded(pool) && pool.St() == old(pool.St()) && pool.Linked() == old(pool.Linked())
      {
        NullBelow(v, i, hi);
        i := i - 1;
        NullMore(v, i, hi);
        freed := freed + [reqBlocks[slot][i]];
        NullEntry(pool, slot, i);
      }
      if i > first { NullBelow(v, i, hi); }
      RunStartIs(v, first, hi, i);
      lo := i;
    }

    /** `_remove_blocks_in_range`. */
    method RemoveBlocksInRange(pool: BlockPool, slot: Slot, first: nat, last: nat)
      requires Ready(pool)
      modifies this, pool
      ensures Ready(pool) && (pool.St(), St()) == RemoveRange(old(pool.St()), old(St()), slot, first, last)
      ensures Recorded(pool)
    {
      hide BlockPool.Base, BlockPool.Log, BlockPool.St, BlockPool.Linked, BlockPool.Cells, ReplayTm, Settled,
           FreeBlocks, NullRange, Released, Keeps, RunStart, Inv, Held;
      ghost var p, t := pool.St(), St();
      RangeSettled(p, t, slot, first, last);
      if slot !in reqBlocks || first >= last { return; }
      var hi := Min(last, |reqBlocks[slot]|);
      if hi <= first { return; }
      var freed, lo := NullRun(pool, slot, first, hi);
      RunHeld(p, t, slot, lo, hi);
      FreeNone(p);
      assert pool.St() == p && pool.Linked();
      if freed != [] { pool.FreeAll(freed); }
    }

    /** The align-mode tail of `remove_skipped_blocks`. */
    method DropState(pool: BlockPool, slot: Slot, computed: nat)
      requires Ready(pool)
      modifies this, pool
      ensures Ready(pool) && (pool.St(), St()) == DropLastState(old(pool.St()), old(St()), slot, computed)
      ensures Recorded(pool)
    {
      hide BlockPool.Base, BlockPool.Log, BlockPool.St, BlockPool.Linked, BlockPool.Cells, ReplayTm, Settled,
           FreeBlocks, Inv, Held, CDiv;
      ghost var p, t := pool.St(), St();
      if slot !in lastState || slot !in reqBlocks { return; }
      var i := lastState[slot];
      if i < CDiv(computed, group.blockSize) - 1 && i < |reqBlocks[slot]| && reqBlocks[slot][i] != NULL {
        var b := reqBlocks[slot][i];
        StateSettled(p, t, slot, computed);
        NullEntry(pool, slot, i);
        OneHeld(p, t, slot, i);
        assert pool.St() == p && pool.Linked();
        pool.FreeAll([b]);
      }
    }

    /** `remove_skipped_blocks`. */
    method RemoveSkippedBlocks(pool: BlockPool, slot: Slot, total: nat)
      requires Ready(pool)
      modifies this, pool
      ensures Ready(pool) && (pool.St(), St()) == RemoveSkipped(old(pool.St()), old(St()), slot, total)
      ensures Recorded(pool)
    {
      hide BlockPool.Base, BlockPool.Log, BlockPool.St, BlockPool.Linked, BlockPool.Cells, ReplayTm, Settled,
           RemoveRange, DropLastState;
      if group.kind.FullAttention? { return; }
      var computed := Monus(total, group.numSpec);
      if computed > 1 {
        TouchSettled(pool.St(), St(), slot);
        EnsureEntry(pool, slot);
        RemoveBlocksInRange(pool, slot, 0, Min((computed - 1) / group.blockSize, |reqBlocks[slot]|));
      }
      DropState(pool, slot, computed);
    }

    /** `free`: the tail of the table first, so that it is evicted first. */
    method FreeSlot(pool: BlockPool, slot: Slot)
      requires Ready(pool)
      modifies this, pool
      ensures Ready(pool) && (pool.St(), St()) == Free(old(pool.St()), old(St()), slot)
      ensures Recorded(pool)
    {
      hide BlockPool.Base, BlockPool.Log, BlockPool.St, BlockPool.Linked, BlockPool.Cells, ReplayTm, Settled,
           FreeBlocks, Inv, Held;
      ghost var p, t := pool.St(), St();
      SlotSettled(p, t, slot);
      if group.kind.Mamba? {
        PutAllocated(pool, slot, false);
        PutLastState(pool, slot, None);
      }
      var blocks := TakeTable(pool, slot);
      PutNumCached(pool, slot, None);
      assert blocks == Blocks(t, slot) && St() == Free(p, t, slot).1;
      assert pool.St() == p && pool.Linked();
      pool.FreeAll(Reverse(blocks));
    }

    // ---- prefix hits ----------------------------------------------------------------

    /** `add_local_computed_blocks`: the request holds nothing yet. */
    method AddLocalComputedBlocks(pool: BlockPool, slot: Slot, hit: seq<Id>, computed: nat) returns (ok: bool)
      requires Ready(pool) && InRange(pool.St(), hit) && Blocks(St(), slot) == [] && (pool.caching || hit == [])
      modifies this, pool
      ensures ok && Ready(pool)
      ensures Step(pool.St(), St(), ok, []) == AddLocal(old(pool.St()), old(St()), slot, hit, computed)
      ensures Recorded(pool)
    {
      hide BlockPool.Base, BlockPool.Log, BlockPool.St, BlockPool.Linked, BlockPool.Cells, ReplayTm, Settled, Touch,
           Kept, SkippedBlocks, AddLocal, Inv, TmInv, Covered, Repeat;
      ghost var p, t := pool.St(), St();
      pool.SameSwitch();
      HitSettled(p, t, slot, hit, computed);
      var skipped := SkippedBlocks(St(), computed);
      var kept := Kept(St(), hit, computed);
      ok := true;
      if pool.caching {
        ok := pool.TouchBlocks(kept);
        if !ok { return; }
      }
      EnsureEntry(pool, slot);
      Append(pool, slot, Repeat<Id>(NULL, skipped) + kept);
      PutNumCached(pool, slot, Some(|reqBlocks[slot]|));
      assert Blocks(t, slot) + (Repeat<Id>(NULL, skipped) + kept) == Blocks(t, slot) + Repeat<Id>(NULL, skipped) + kept;
      assert St() == AddTm(t, slot, hit, computed);
    }

    // ---- allocation -----------------------------------------------------------------

    /** `allocate_new_blocks` for full attention. */
    method AllocateFull(pool: BlockPool, slot: Slot, tokens: nat) returns (ok: bool, out: seq<Id>)
      requires Ready(pool)
      modifies this, pool
      ensures pool.Linked() && Step(pool.St(), St(), ok, out) == AllocFull(old(pool.St()), old(St()), slot, tokens)
      ensures Recorded(pool)
    {
      hide BlockPool.Base, BlockPool.Log, BlockPool.St, BlockPool.Linked, BlockPool.Cells, ReplayTm, Inv, TmInv,
           Covered, GetNew, CDiv;
      ghost var p, t := pool.St(), St();
      EnsureEntry(pool, slot);
      var need, have := CDiv(tokens, group.blockSize), |reqBlocks[slot]|;
      if need <= have { return true, []; }
      assert pool.St() == p && pool.Linked();
      ok, out := pool.GetNewBlocks(need - have);
      GetNewFront(p, need - have);
      if !ok { return; }
      Append(pool, slot, out);
      PushNewIds(pool, out);
    }

    /** Record several entries, oldest first. */
    method NoteAll(pool: BlockPool, ops: seq<Undo>)
      requires forall i :: 0 <= i < |ops| ==> CompOf(ops[i]) == GroupComp(group.id)
      modifies pool`journal
      ensures pool.journal.Some? == old(pool.journal.Some?)
      ensures pool.journal.Some? ==> pool.Log(GroupComp(group.id)) == old(pool.Log(GroupComp(group.id))) + ops
      ensures pool.Base() == old(pool.Base()) && pool.St() == old(pool.St()) && pool.Linked() == old(pool.Linked())
      ensures forall c :: c != GroupComp(group.id) ==> pool.Log(c) == old(pool.Log(c))
    {
      hide BlockPool.Base, BlockPool.Log, BlockPool.St, BlockPool.Linked, BlockPool.Cells, CompOf;
      assert ops[..0] == [];
      for i := 0 to |ops|
        invariant pool.journal.Some? == old(pool.journal.Some?)
        invariant pool.journal.Some? ==> pool.Log(GroupComp(group.id)) == old(pool.Log(GroupComp(group.id))) + ops[..i]
        invariant pool.Base() == old(pool.Base()) && pool.St() == old(pool.St()) && pool.Linked() == old(pool.Linked())
        invariant forall c :: c != GroupComp(group.id) ==> pool.Log(c) == old(pool.Log(c))
      {
        Note(pool, ops[i]);
        assert ops[..i + 1] == ops[..i] + [ops[i]];
      }
      assert ops[..|ops|] == ops;
    }

    /** The in-place growth of `mamba_align_allocate`: pad with nulls, then move the entries the
        new chunk skips to the end. The undo entries are collected and recorded at the end. */
    method GrowTable(pool: BlockPool, slot: Slot, skipped: nat, recycle: bool)
      requires slot in reqBlocks
      modifies this`reqBlocks, pool`journal
      ensures var v := old(reqBlocks)[slot];
        St() == SetBlocks(old(St()), slot, GrownTable(v, skipped, group.numSpec, recycle))
      ensures Recorded(pool) && pool.St() == old(pool.St()) && pool.Linked() == old(pool.Linked())
    {
      hide BlockPool.Base, BlockPool.Log, BlockPool.St, BlockPool.Linked, BlockPool.Cells, UndoTm, ReplayTm;
      ghost var t := St();
      var prev := |reqBlocks[slot]|;
      var ops := [ReqBlocksLen(group.id, slot, prev)];
      UndoesLen(t, slot);
      var v: seq<Id> := reqBlocks[slot] + Repeat<Id>(NULL, Monus(skipped, prev));
      UndoesPad(t, slot, reqBlocks[slot], Repeat<Id>(NULL, Monus(skipped, prev)), ops);
      if recycle {
        var i := Monus(prev, group.numSpec);
        while i < prev && i < skipped
          invariant Monus(prev, group.numSpec) <= i <= prev <= |v|
          invariant Recycle(v, i, prev, skipped) == GrownTable(t.reqBlocks[slot], skipped, group.numSpec, recycle)
          invariant Undoes(t, slot, v, ops)
          invariant forall k :: 0 <= k < |ops| ==> CompOf(ops[k]) == GroupComp(group.id)
          modifies {}
        {
          UndoesMove(t, slot, v, ops, i);
          ops := ops + [ReqBlocksSet(group.id, slot, i, v[i])];
          v := (v + [v[i]])[i := NULL];
          i := i + 1;
        }
      }
      UndoesAll(t, slot, v, ops, pool.Log(GroupComp(group.id)));
      reqBlocks := reqBlocks[slot := v];
      NoteAll(pool, ops);
    }

    /** The first half of `mamba_align_allocate`: mark the state to be dropped, grow the table. */
    method GrowMamba(pool: BlockPool, slot: Slot, need: nat)
      requires slot in reqBlocks && need > |reqBlocks[slot]| && need > group.numSpec
      requires slot in allocatedReqs ==> HasState(St(), slot)
      modifies this`reqBlocks, this`lastState, pool`journal
      ensures St() == MambaGrown(old(St()), slot, need)
      ensures Recorded(pool) && pool.St() == old(pool.St()) && pool.Linked() == old(pool.Linked())
    {
      hide BlockPool.Base, BlockPool.Log, BlockPool.St, BlockPool.Linked, BlockPool.Cells, ReplayTm, MambaTable,
           GrownTable;
      var prev := |reqBlocks[slot]|;
      GrownIs(St(), slot, need);
      if slot in allocatedReqs {
        PutLastState(pool, slot, Some(prev - 1 - group.numSpec));
      } else if prev > 0 {
        PutLastState(pool, slot, Some(prev - 1));
      }
      GrowTable(pool, slot, need - group.numSpec - 1, slot in allocatedReqs);
    }

    /** The second half: take the missing blocks and append them. */
    method FillMamba(pool: BlockPool, slot: Slot, k: nat) returns (ok: bool)
      requires pool.Linked() && Inv(pool.St()) && slot in reqBlocks
      modifies this, pool
      ensures ok == (k <= |old(pool.St()).free|) && pool.Linked()
      ensures ok ==> pool.St() == GetNew(old(pool.St()), k).0
      ensures ok ==> St() == MambaFilled(old(St()), slot, old(pool.St()).free[..k])
      ensures !ok ==> pool.St() == old(pool.St()) && St() == old(St())
      ensures Recorded(pool)
    {
      hide BlockPool.Base, BlockPool.Log, BlockPool.St, BlockPool.Linked, BlockPool.Cells, ReplayTm, Inv, GetNew;
      GetNewFront(pool.St(), k);
      var ids;
      ok, ids := pool.GetNewBlocks(k);
      if !ok { return; }
      Append(pool, slot, ids);
      PutAllocated(pool, slot, true);
    }

    /** `mamba_align_allocate`. */
    method AllocateMamba(pool: BlockPool, slot: Slot, main: nat) returns (ok: bool, out: seq<Id>)
      requires Ready(pool) && group.kind.Mamba? && main > 0
      modifies this, pool
      ensures pool.Linked() && Step(pool.St(), St(), ok, out) == AllocMamba(old(pool.St()), old(St()), slot, main)
      ensures Recorded(pool)
    {
      hide BlockPool.Base, BlockPool.Log, BlockPool.St, BlockPool.Linked, BlockPool.Cells, ReplayTm, Inv, TmInv,
           Covered, GetNew, CDiv, MambaTable, MambaGrown, MambaFilled;
      ghost var p, t := pool.St(), St();
      EnsureEntry(pool, slot);
      var prev := |reqBlocks[slot]|;
      var need := CDiv(main, group.blockSize) + group.numSpec;
      if need <= prev { return true, []; }
      MambaFits(p, t, slot, main);
      GrownEntry(t, slot, need);
      GrowMamba(pool, slot, need);
      assert pool.St() == p && pool.Linked();
      ghost var n := need - |reqBlocks[slot]|;
      if n <= |p.free| { FilledTable(St(), slot, p.free[..n]); }
      ok := FillMamba(pool, slot, need - |reqBlocks[slot]|);
      out := if ok then reqBlocks[slot][prev..] else [];
    }

    /** `allocate_new_blocks`; no error when the queue holds what is wanted. */
    method AllocateNewBlocks(pool: BlockPool, slot: Slot, tokens: nat, main: nat) returns (ok: bool, out: seq<Id>)
      requires Ready(pool) && main > 0
      modifies this, pool
      ensures pool.Linked() && Step(pool.St(), St(), ok, out) == Alloc(old(pool.St()), old(St()), slot, tokens, main)
      ensures Wanted(old(St()), slot, tokens, main) <= |old(pool.St()).free| ==> ok && Ready(pool)
      ensures Recorded(pool)
    {
      hide BlockPool.Base, BlockPool.Log, BlockPool.St, BlockPool.Linked, BlockPool.Cells, ReplayTm, AllocFull,
           AllocMamba, Settled, Wanted;
      AllocSettled(pool.St(), St(), slot, tokens, main);
      if group.kind.Mamba? {
        ok, out := AllocateMamba(pool, slot, main);
      } else {
        ok, out := AllocateFull(pool, slot, tokens);
      }
    }

    // ---- caching and per-step bookkeeping -------------------------------------------

    /** `cache_blocks`. */
    method CacheBlocks(pool: BlockPool, slot: Slot, hashes: seq<Digest>, stride: nat, tokens: nat)
      requires Ready(pool) && Fileable(St(), slot, hashes, stride, tokens)
      modifies this, pool
      ensures Ready(pool)
      ensures (pool.St(), St()) == TypeSpec.CacheBlocks(old(pool.St()), old(St()), slot, hashes, stride, tokens)
      ensures Recorded(pool)
    {
      hide BlockPool.Base, BlockPool.Log, BlockPool.St, BlockPool.Linked, BlockPool.Cells, ReplayTm, Settled,
           CacheFull, StepKeys;
      ghost var p, t := pool.St(), St();
      FileSettled(p, t, slot, hashes, stride, tokens);
      var from, to := NumCached(St(), slot), tokens / group.blockSize;
      if from >= to { return; }
      EnsureEntry(pool, slot);
      var blocks := reqBlocks[slot];
      pool.CacheFullBlocks(blocks, hashes, stride, from, to, group.blockSize, group.id);
      PutNumCached(pool, slot, Some(to));
      assert forall b :: b in blocks[from..to] ==> b in blocks;
      if group.kind.Mamba? { RememberKeys(pool, blocks[from..to]); }
    }

    /** Mamba remembers the keys filed in this step. */
    method RememberKeys(pool: BlockPool, blocks: seq<Id>)
      requires pool.Linked() && InRange(pool.St(), blocks)
      modifies this`cachedThisStep, pool`journal
      ensures St() == old(St()).(cachedThisStep := old(cachedThisStep) + StepKeys(pool.St(), blocks))
      ensures Recorded(pool) && pool.St() == old(pool.St()) && pool.Linked() == old(pool.Linked())
    {
      hide BlockPool.Base, BlockPool.Log, BlockPool.St, BlockPool.Linked, BlockPool.Cells, ReplayTm, StepKeys;
      ghost var t, p := St(), pool.St();
      NoKeys(p, blocks);
      for i := 0 to |blocks|
        invariant St() == t.(cachedThisStep := t.cachedThisStep + StepKeys(p, blocks[..i]))
        invariant Recorded(pool) && pool.St() == p && pool.Linked() == old(pool.Linked())
      {
        assert blocks[i] in blocks;
        pool.BlockMeta(blocks[i]);
        MoreKeys(p, blocks, i);
        var m := pool.arena[blocks[i]].meta;
        if !m.isNull && m.hash.Some? { AddStepKey(pool, m.hash.value); }
      }
      assert blocks[..|blocks|] == blocks;
    }

    /** `new_step_starts`: the whole set is recorded, as it is cleared. */
    method NewStepStarts(pool: BlockPool)
      modifies this`cachedThisStep, pool`journal
      ensures St() == NewStep(old(St()))
      ensures Recorded(pool) && pool.St() == old(pool.St()) && pool.Linked() == old(pool.Linked())
    {
      hide BlockPool.Base, BlockPool.Log, BlockPool.St, BlockPool.Linked, BlockPool.Cells, ReplayTm;
      if group.kind.Mamba? && cachedThisStep != {} {
        ghost var t, ops := St(), pool.Log(GroupComp(group.id));
        var op := CachedThisStep(group.id, cachedThisStep);
        Note(pool, op);
        cachedThisStep := {};
        assert UndoTm(St(), op) == t;
        if pool.journal.Some? { Wrote(pool, t, ops, op); }
      }
    }

    /** `get_num_common_prefix_blocks`: leading blocks every request of the group holds. */
    method CommonPrefixBlocks(pool: BlockPool, slot: Slot) returns (count: nat)
      requires Ready(pool)
      modifies this`reqBlocks, pool`journal
      ensures Ready(pool) && pool.St() == old(pool.St())
      ensures St() == CommonEntry(old(St()), slot) && count == CommonPrefix(pool.St(), old(St()), slot)
      ensures Recorded(pool)
    {
      hide BlockPool.Base, BlockPool.Log, BlockPool.St, BlockPool.Linked, BlockPool.Cells, ReplayTm, Settled;
      ghost var p := pool.St();
      count := 0;
      if group.kind.Mamba? { return; }
      TouchSettled(p, St(), slot);
      TableInRange(p, St(), slot);
      EnsureEntry(pool, slot);
      var v, reqs := reqBlocks[slot], |reqBlocks|;
      assert v[0..] == v;
      while count < |v|
        invariant count <= |v|
        invariant count + SharedPrefix(p, v[count..], reqs) == SharedPrefix(p, v, reqs)
        modifies {}
      {
        assert v[count] in v;
        pool.BlockMeta(v[count]);
        assert v[count..][0] == v[count] && v[count..][1..] == v[count + 1..];
        if pool.arena[v[count]].meta.ref != reqs { return; }
        count := count + 1;
      }
    }

    // ---- the admission estimate -----------------------------------------------------

    /** `_get_num_evictable_blocks`. */
    method CountEvictable(pool: BlockPool, blocks: seq<Id>) returns (count: nat)
      requires pool.Linked() && InRange(pool.St(), blocks)
      ensures count == NumEvictable(pool.St(), blocks)
    {
      hide BlockPool.St, BlockPool.Linked;
      count := 0;
      assert blocks[0..] == blocks;
      for i := 0 to |blocks|
        invariant count + NumEvictable(pool.St(), blocks[i..]) == NumEvictable(pool.St(), blocks)
      {
        assert blocks[i] in blocks;
        assert blocks[i..][0] == blocks[i] && blocks[i..][1..] == blocks[i + 1..];
        pool.BlockMeta(blocks[i]);
        var m := pool.arena[blocks[i]].meta;
        if m.ref == 0 && !m.isNull { count := count + 1; }
      }
    }

    /** `get_num_blocks_to_allocate`. */
    method BlocksToAllocate(pool: BlockPool, slot: Slot, tokens: nat, hit: seq<Id>, main: nat) returns (count: nat)
      requires pool.Linked() && InRange(pool.St(), hit)
      ensures count == Estimate(pool.St(), St(), slot, tokens, hit, main)
    {
      hide BlockPool.St, BlockPool.Linked, NumEvictable, CDiv;
      var have := |Blocks(St(), slot)|;
      pool.SameSwitch();
      if group.kind.Mamba? {
        if hit != [] {
          var last := hit[|hit| - 1];
          assert last in hit;
          pool.BlockMeta(last);
          var h := pool.arena[last].meta.hash;
          if h.Some? && h.value in cachedThisStep { return pool.n + 1; }
        }
        var need := CDiv(main, group.blockSize) + group.numSpec - |hit| - have;
        var state := if need <= 0 then 0 else if slot in allocatedReqs then 1 else 1 + group.numSpec;
        var evictable := CountEvictable(pool, hit);
        return state + evictable;
      }
      if slot in numCached { return Monus(CDiv(tokens, group.blockSize), have); }
      var evictable := CountEvictable(pool, hit);
      return Monus(CDiv(tokens, group.blockSize), |hit| + have) + evictable;
    }

    /** Put one recorded value back. */
    method Restore(op: Undo)
      modifies this
      ensures St() == UndoTm(old(St()), op)
    {
      match op
      case NumCachedBlock(_, slot, number) => numCached := PutOr(numCached, slot, number);
      case NewBlockIdsLen(_, count) => newIds := newIds[..Min(count, |newIds|)];
      case CachedThisStep(_, hashes) => cachedThisStep := hashes;
      case CachedThisStepInsert(_, key, was) => if !was { cachedThisStep := cachedThisStep - {key}; }
      case LastStateIdx(_, slot, number) => lastState := PutOr(lastState, slot, number);
      case AllocatedReq(_, slot, was) =>
        allocatedReqs := if was then allocatedReqs + {slot} else allocatedReqs - {slot};
      case _ => RestoreTable(op);
    }

    method RestoreTable(op: Undo)
      requires !(op.NumCachedBlock? || op.NewBlockIdsLen? || op.CachedThisStep? || op.CachedThisStepInsert?
                 || op.LastStateIdx? || op.AllocatedReq?)
      modifies this`reqBlocks
      ensures St() == UndoTm(old(St()), op)
    {
      match op
      case ReqBlocksLen(_, slot, count) =>
        if slot in reqBlocks { reqBlocks := reqBlocks[slot := reqBlocks[slot][..Min(count, |reqBlocks[slot]|)]]; }
      case ReqBlocksSet(_, slot, index, id) =>
        if slot in reqBlocks && index < |reqBlocks[slot]| {
          var v: seq<Id> := reqBlocks[slot][index := id];
          reqBlocks := reqBlocks[slot := v];
        }
      case ReqBlocksInsert(_, slot) => reqBlocks := reqBlocks - {slot};
      case ReqBlocksRemove(_, slot, blocks) => reqBlocks := reqBlocks[slot := blocks];
      case _ =>
    }
  }

  lemma RangeSettled(p: Pool, t: Tm, slot: Slot, first: nat, last: nat)
    requires Settled(p, t)
    ensures Settled(RemoveRange(p, t, slot, first, last).0, RemoveRange(p, t, slot, first, last).1)
  {
    RemoveRangeOk(p, t, slot, first, last);
    KeepsSettled(p, t, RemoveRange(p, t, slot, first, last).0, RemoveRange(p, t, slot, first, last).1, slot);
  }

  lemma FreeNone(p: Pool)
    ensures FreeBlocks(p, []) == p
  {}

  lemma NullBelow(v: seq<Id>, i: nat, hi: nat)
    requires 0 < i <= hi <= |v|
    ensures NullRange(v, i, hi)[i - 1] == v[i - 1]
  {}

  lemma NullNone(v: seq<Id>, hi: nat)
    requires hi <= |v|
    ensures NullRange(v, hi, hi) == v && Reverse(v[hi..hi]) == []
  {}

  lemma NullMore(v: seq<Id>, i: nat, hi: nat)
    requires i < hi <= |v|
    ensures NullRange(v, i, hi) == NullRange(v, i + 1, hi)[i := NULL] && NullRange(v, i + 1, hi)[i] == v[i]
    ensures Reverse(v[i..hi]) == Reverse(v[i + 1..hi]) + [v[i]]
  {}

  lemma {:induction false} RunStartIs(v: seq<Id>, first: nat, hi: nat, i: nat)
    requires first <= i <= hi <= |v| && (forall k :: i <= k < hi ==> v[k] != NULL) && (i > first ==> v[i - 1] == NULL)
    ensures RunStart(v, first, hi) == i
    decreases hi
  {
    if i < hi { RunStartIs(v, first, hi - 1, i); }
  }

  /** Some of one slot's blocks may be released, in any order. */
  lemma PartHeld(p: Pool, t: Tm, slot: Slot, ids: seq<Id>)
    requires Settled(p, t) && multiset(ids) <= multiset(Blocks(t, slot))
    ensures Inv(p) && Held(p, multiset(ids)) && InRange(p, ids)
  {
    hide Inv, Held;
    TableHeld(p, t, slot, multiset(ids));
    TableRange(p, t, slot);
    forall b | b in ids ensures b < |p.meta| {
      assert b in multiset(ids);
      assert b in Blocks(t, slot);
    }
  }

  lemma RunHeld(p: Pool, t: Tm, slot: Slot, lo: nat, hi: nat)
    requires Settled(p, t) && lo <= hi <= |Blocks(t, slot)|
    ensures Inv(p) && Held(p, multiset(Reverse(Blocks(t, slot)[lo..hi])))
    ensures InRange(p, Reverse(Blocks(t, slot)[lo..hi]))
  {
    hide Settled, Held, Inv, NullRange;
    var v := Blocks(t, slot);
    var r := Reverse(v[lo..hi]);
    ReverseMultiset(v[lo..hi]);
    NullRangeMultiset(v, lo, hi);
    PartHeld(p, t, slot, r);
  }

  lemma StateSettled(p: Pool, t: Tm, slot: Slot, computed: nat)
    requires Settled(p, t)
    ensures Settled(DropLastState(p, t, slot, computed).0, DropLastState(p, t, slot, computed).1)
  {
    DropLastStateOk(p, t, slot, computed);
    KeepsSettled(p, t, DropLastState(p, t, slot, computed).0, DropLastState(p, t, slot, computed).1, slot);
  }

  lemma OneHeld(p: Pool, t: Tm, slot: Slot, i: nat)
    requires Settled(p, t) && i < |Blocks(t, slot)|
    ensures Inv(p) && Held(p, multiset([Blocks(t, slot)[i]])) && InRange(p, [Blocks(t, slot)[i]])
  {
    PartHeld(p, t, slot, [Blocks(t, slot)[i]]);
  }

  lemma TouchSettled(p: Pool, t: Tm, slot: Slot)
    requires Settled(p, t)
    ensures Settled(p, TouchEntry(t, slot))
  {
    TouchEntryOk(p, t, slot);
    KeepsSettled(p, t, p, TouchEntry(t, slot), slot);
  }

  lemma SlotSettled(p: Pool, t: Tm, slot: Slot)
    requires Settled(p, t)
    ensures Settled(Free(p, t, slot).0, Free(p, t, slot).1)
    ensures Inv(p) && Held(p, multiset(Reverse(Blocks(t, slot)))) && InRange(p, Reverse(Blocks(t, slot)))
  {
    FreeSlotOk(p, t, slot);
    KeepsSettled(p, t, Free(p, t, slot).0, Free(p, t, slot).1, slot);
    RunHeld(p, t, slot, 0, |Blocks(t, slot)|);
    assert Blocks(t, slot)[0..|Blocks(t, slot)|] == Blocks(t, slot);
  }

  lemma HitSettled(p: Pool, t: Tm, slot: Slot, hit: seq<Id>, computed: nat)
    requires Settled(p, t) && InRange(p, hit) && Blocks(t, slot) == [] && (p.caching || hit == [])
    ensures InRange(p, Kept(t, hit, computed)) && Touch(p, Kept(t, hit, computed)).1
    ensures !p.caching ==> Touch(p, Kept(t, hit, computed)).0 == p
    ensures AddLocal(p, t, slot, hit, computed)
         == Step(Touch(p, Kept(t, hit, computed)).0, AddTm(t, slot, hit, computed), true, [])
    ensures Settled(AddLocal(p, t, slot, hit, computed).pool, AddLocal(p, t, slot, hit, computed).tm)
  {
    AddLocalOk(p, t, slot, hit, computed);
    KeptEvictable(p, t, hit, computed);
    TouchOk(p, Kept(t, hit, computed));
    AddLocalShape(p, t, slot, hit, computed);
    assert !p.caching ==> Kept(t, hit, computed) == [];
    KeepsSettled(p, t, AddLocal(p, t, slot, hit, computed).pool, AddLocal(p, t, slot, hit, computed).tm, slot);
  }

  lemma AllocSettled(p: Pool, t: Tm, slot: Slot, tokens: nat, main: nat)
    requires Settled(p, t) && main > 0
    ensures Wanted(t, slot, tokens, main) <= |p.free| ==>
      Alloc(p, t, slot, tokens, main).ok
      && Settled(Alloc(p, t, slot, tokens, main).pool, Alloc(p, t, slot, tokens, main).tm)
  {
    if Wanted(t, slot, tokens, main) <= |p.free| {
      AllocOk(p, t, slot, tokens, main);
      KeepsSettled(p, t, Alloc(p, t, slot, tokens, main).pool, Alloc(p, t, slot, tokens, main).tm, slot);
    }
  }

  lemma GetNewFront(p: Pool, n: nat)
    ensures n <= |p.free| ==> GetNew(p, n).1 == p.free[..n]
  {}

  // ---- the in-place growth ----------------------------------------------------------

  /** A table of `v` padded to `skipped` entries, with the entries below it recycled. */
  function GrownTable(v: seq<Id>, skipped: nat, spec: nat, recycle: bool): seq<Id> {
    var padded := v + Repeat<Id>(NULL, Monus(skipped, |v|));
    if recycle then Recycle(padded, Monus(|v|, spec), |v|, skipped) else padded
  }

  lemma GrownIs(t: Tm, slot: Slot, need: nat)
    requires need > t.group.numSpec
    ensures MambaTable(t, slot, need)
         == GrownTable(Blocks(t, slot), need - t.group.numSpec - 1, t.group.numSpec, slot in t.allocatedReqs)
  {}

  lemma MambaFits(p: Pool, t: Tm, slot: Slot, main: nat)
    requires TmInv(p, t) && t.group.kind.Mamba? && main > 0 && CDiv(main, Bs(t)) + t.group.numSpec > |Blocks(t, slot)|
    ensures |Blocks(t, slot)| <= |MambaTable(t, slot, CDiv(main, Bs(t)) + t.group.numSpec)|
              < CDiv(main, Bs(t)) + t.group.numSpec
    ensures CDiv(main, Bs(t)) > 0 && (slot in t.allocatedReqs ==> HasState(t, slot))
  {
    CDivBounds(main, Bs(t));
    MambaWanted(p, t, slot, 0, main);
  }

  lemma GrownEntry(t: Tm, slot: Slot, need: nat)
    ensures MambaGrown(TouchEntry(t, slot), slot, need) == MambaGrown(t, slot, need)
    ensures slot in MambaGrown(t, slot, need).reqBlocks
    ensures Blocks(MambaGrown(t, slot, need), slot) == MambaTable(t, slot, need)
  {}

  lemma FilledTable(t: Tm, slot: Slot, ids: seq<Id>)
    ensures Blocks(MambaFilled(t, slot, ids), slot) == Blocks(t, slot) + ids
    ensures slot in MambaFilled(t, slot, ids).reqBlocks
  {}

  /** Replaying `ops` on a table that starts with `v` gives back the table of `t`. */
  ghost predicate Undoes(t: Tm, slot: Slot, v: seq<Id>, ops: seq<Undo>) {
    forall x: seq<Id> :: ReplayTm(SetBlocks(t, slot, v + x), ops) == t
  }

  lemma UndoesLen(t: Tm, slot: Slot)
    requires slot in t.reqBlocks
    ensures Undoes(t, slot, t.reqBlocks[slot], [ReqBlocksLen(t.group.id, slot, |t.reqBlocks[slot]|)])
  {
    var v := t.reqBlocks[slot];
    var op := ReqBlocksLen(t.group.id, slot, |v|);
    forall x: seq<Id> ensures ReplayTm(SetBlocks(t, slot, v + x), [op]) == t {
      assert (v + x)[..|v|] == v;
      assert UndoTm(SetBlocks(t, slot, v + x), op) == t;
      TmWrite(t, SetBlocks(t, slot, v + x), [], op);
      assert [] + [op] == [op];
    }
  }

  lemma UndoesPad(t: Tm, slot: Slot, v: seq<Id>, pad: seq<Id>, ops: seq<Undo>)
    requires Undoes(t, slot, v, ops)
    ensures Undoes(t, slot, v + pad, ops)
  {
    forall x: seq<Id> ensures ReplayTm(SetBlocks(t, slot, v + pad + x), ops) == t {
      assert v + pad + x == v + (pad + x);
    }
  }

  lemma UndoesMove(t: Tm, slot: Slot, v: seq<Id>, ops: seq<Undo>, i: nat)
    requires Undoes(t, slot, v, ops) && i < |v|
    ensures Undoes(t, slot, (v + [v[i]])[i := NULL], ops + [ReqBlocksSet(t.group.id, slot, i, v[i])])
  {
    var w := (v + [v[i]])[i := NULL];
    var op := ReqBlocksSet(t.group.id, slot, i, v[i]);
    forall x: seq<Id> ensures ReplayTm(SetBlocks(t, slot, w + x), ops + [op]) == t {
      assert (w + x)[i := v[i]] == v + ([v[i]] + x);
      TmWrite(SetBlocks(t, slot, v + ([v[i]] + x)), SetBlocks(t, slot, w + x), ops, op);
    }
  }

  lemma {:induction false} ReplayConcat(t: Tm, a: seq<Undo>, b: seq<Undo>)
    ensures ReplayTm(t, a + b) == ReplayTm(ReplayTm(t, b), a)
    decreases |b|
  {
    if b == [] {
      assert a + b == a;
    } else {
      assert (a + b)[..|a + b| - 1] == a + b[..|b| - 1];
      ReplayConcat(UndoTm(t, b[|b| - 1]), a, b[..|b| - 1]);
    }
  }

  lemma UndoesAll(t: Tm, slot: Slot, v: seq<Id>, ops: seq<Undo>, log: seq<Undo>)
    requires Undoes(t, slot, v, ops)
    ensures ReplayTm(SetBlocks(t, slot, v), log + ops) == ReplayTm(t, log)
  {
    assert v + [] == v;
    ReplayConcat(SetBlocks(t, slot, v), log, ops);
  }

  // ---- caching ----------------------------------------------------------------------

  lemma FileSettled(p: Pool, t: Tm, slot: Slot, hashes: seq<Digest>, stride: nat, tokens: nat)
    requires Settled(p, t)
    ensures InRange(p, Blocks(t, slot))
    ensures Settled(TypeSpec.CacheBlocks(p, t, slot, hashes, stride, tokens).0,
                    TypeSpec.CacheBlocks(p, t, slot, hashes, stride, tokens).1)
    ensures |TypeSpec.CacheBlocks(p, t, slot, hashes, stride, tokens).0.meta| == |p.meta|
  {
    TableRange(p, t, slot);
    CacheBlocksOk(p, t, slot, hashes, stride, tokens);
    KeepsSettled(p, t, TypeSpec.CacheBlocks(p, t, slot, hashes, stride, tokens).0,
                 TypeSpec.CacheBlocks(p, t, slot, hashes, stride, tokens).1, slot);
  }

  lemma TableInRange(p: Pool, t: Tm, slot: Slot)
    requires Settled(p, t)
    ensures InRange(p, Blocks(t, slot))
  {
    TableRange(p, t, slot);
  }

  lemma NoKeys(p: Pool, v: seq<Id>)
    ensures StepKeys(p, v[..0]) == {}
  {}

  lemma MoreKeys(p: Pool, v: seq<Id>, i: nat)
    requires i < |v|
    ensures StepKeys(p, v[..i + 1]) == StepKeys(p, v[..i])
                                     + if !At(p, v[i]).isNull && At(p, v[i]).hash.Some? then {At(p, v[i]).hash.value}
                                       else {}
  {
    assert v[..i + 1] == v[..i] + [v[i]];
  }
}
