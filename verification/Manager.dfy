/**
 * `Manager` (manager.rs): admission, prefix hits, the resident request table, and the journal
 * that makes a run reversible. `St()` is the manager as a value; each method performs the
 * `ManagerSpec` operation on it and, while the journal is armed, leaves the undone state alone.
 */
module Managers {
  import opened Basics
  import opened PoolSpec
  import opened PoolInv
  import opened TypeSpec
  import opened TypeInv
  import opened HitSpec
  import opened ManagerSpec
  import opened ManagerInv
  import opened Admission
  import opened RunInv
  import opened TableSpec
  import opened Served
  import opened CacheReset
  import opened FreeQueue
  import opened Journal
  import opened BlockPools
  import opened TypeManagers
  import opened Coordinators

  /** Everything the journal can restore, links included. */
  datatype Cells = Cells(pool: PoolCells, tms: seq<Tm>, own: OwnCells)

  /** A group's tables with an entry undone, if the entry is that group's. */
  function UndoneTm(t: Tm, group: nat, op: Undo): Tm {
    if CompOf(op) == GroupComp(group) then UndoTm(t, op) else t
  }

  class Manager {
    const coord: Coordinator
    var hashes: map<Slot, seq<Digest>>
    var table: seq<Option<Entry>>
    var hitLen: map<Slot, nat>
    var pending: seq<seq<Id>>

    constructor (c: Config, numBlocks: nat)
      requires ConfigOk(c) && 0 < numBlocks && numBlocks + 2 <= NIL
      ensures Ready() && coord.pool.journal == None && coord.cfg == c
      ensures fresh(coord) && fresh(coord.pool) && forall i :: 0 <= i < |coord.managers| ==> fresh(coord.managers[i])
      ensures St()
          == State(c, InitPool(c.caching, numBlocks),
                   seq(|c.groups|, i requires 0 <= i < |c.groups| => InitTm(c.groups[i])),
                   map[], [], map[], seq(|c.groups|, _ => []), 0)
    {
      var k := new Coordinator(c, numBlocks);
      coord, hashes, table, hitLen, pending := k, map[], [], map[], seq(|c.groups|, _ => []);
      new;
      hide GInv, ConfigOk, InitPool, InitTm, BlockPool.St, BlockPool.Linked, TypeManager.St, Coordinator.Ready;
      assert coord.Tms() == seq(|c.groups|, i requires 0 <= i < |c.groups| => InitTm(c.groups[i]));
    }

    /** The manager as a value, from its cells and the fields no journal records. */
    ghost function StOf(c: Cells): State
      reads this, coord
    {
      State(coord.cfg, PoolOf(coord.pool.n, coord.pool.caching, c.pool), c.tms, hashes, c.own.table, c.own.hitLen,
            pending, coord.uncached)
    }

    ghost function St(): State
      reads this, coord, coord.pool, coord.managers
    {
      State(coord.cfg, coord.pool.St(), coord.Tms(), hashes, table, hitLen, pending, coord.uncached)
    }

    ghost predicate Ready()
      reads this, coord.pool, coord.managers
    {
      coord.Ready() && |pending| == |coord.cfg.groups|
    }

    lemma ReadyInv()
      requires Ready()
      ensures StateInv(St())
    {
      coord.pool.SameSwitch();
    }

    /** The numbers other modules read straight from the fields. */
    lemma Numbers()
      requires Ready()
      ensures St().uncached == coord.uncached && |St().pool.free| == coord.pool.numFree
    {}

    lemma TableMatches(slot: Slot)
      ensures TableGet(slot) == ManagerSpec.TableGet(St(), slot) && (TableGet(slot).Some? ==> slot < |table|)
    {}

    lemma GroupCount()
      requires Ready()
      ensures |St().tms| == |coord.managers|
    {}

    lemma InvReady()
      requires StateInv(St()) && coord.Wired() && coord.pool.Linked()
      ensures Ready()
    {}

    ghost function Own(): OwnCells
      reads this
    {
      OwnCells(hitLen, table)
    }

    ghost function Now(): Cells
      reads this, coord.pool, coord.managers
    {
      Cells(coord.pool.Cells(), coord.Tms(), Own())
    }

    ghost function OwnBase(): OwnCells
      reads this, coord.pool
    {
      ReplayOwn(Own(), coord.pool.Log(OwnComp))
    }

    /** The cells with every recorded write undone. */
    ghost function Base(): Cells
      reads this, coord.pool, coord.managers
    {
      Cells(coord.pool.Base(),
            seq(|coord.managers|, i requires 0 <= i < |coord.managers| reads coord.pool, coord.managers =>
              coord.managers[i].Base(coord.pool)),
            OwnBase())
    }

    /** The state a rollback would leave. */
    ghost function Undone(): State
      reads this, coord, coord.pool, coord.managers
    {
      StOf(Base())
    }

    /** The undone state is in good standing. */
    ghost predicate Sound()
      reads this, coord, coord.pool, coord.managers
    {
      StateInv(Undone()) && LinkedOf(coord.pool.n, Base().pool)
    }

    /** What every operation does to the journal. */
    twostate predicate Recorded()
      reads this, coord.pool, coord.managers
    {
      coord.pool.journal.Some? == old(coord.pool.journal.Some?) && (coord.pool.journal.Some? ==> Base() == old(Base()))
    }

    /** The coordinator's recorded step is one of the manager. */
    twostate lemma CoordRecorded()
      requires coord.Recorded() && Own() == old(Own())
      ensures Recorded()
    {
      hide BlockPool.Base, BlockPool.Log, ReplayTm, ReplayOwn, TypeManager.Base;
      if coord.pool.journal.Some? {
        assert Base().tms == old(Base()).tms;
      }
    }

    function TableGet(slot: Slot): Option<Entry>
      reads this
    {
      if slot < |table| then table[slot] else None
    }

    // ---- recording the manager's own cells ------------------------------------------

    method Note(op: Undo)
      requires CompOf(op) == OwnComp
      modifies coord.pool`journal
      ensures coord.pool.journal.Some? == old(coord.pool.journal.Some?)
      ensures coord.pool.journal.Some? ==> coord.pool.Log(OwnComp) == old(coord.pool.Log(OwnComp)) + [op]
      ensures coord.pool.Base() == old(coord.pool.Base())
      ensures coord.pool.St() == old(coord.pool.St()) && coord.pool.Linked() == old(coord.pool.Linked())
      ensures forall c :: c != OwnComp ==> coord.pool.Log(c) == old(coord.pool.Log(c))
    {
      var pool := coord.pool;
      pool.Note(op);
      if old(pool.journal).Some? {
        forall k ensures pool.Log(k) == if k == OwnComp then old(pool.Log(k)) + [op] else old(pool.Log(k)) {
          pool.Pushed(k, old(pool.journal).value, op);
        }
      }
    }

    /** One recorded write to the manager's own cells. */
    twostate lemma OwnRecorded(op: Undo)
      requires coord.pool.journal.Some? == old(coord.pool.journal.Some?)
      requires coord.pool.journal.Some? ==> coord.pool.Log(OwnComp) == old(coord.pool.Log(OwnComp)) + [op]
      requires coord.pool.Base() == old(coord.pool.Base()) && coord.Tms() == old(coord.Tms())
      requires forall c :: c != OwnComp ==> coord.pool.Log(c) == old(coord.pool.Log(c))
      requires UndoOwn(Own(), op) == old(Own())
      ensures Recorded()
    {
      hide BlockPool.Base, BlockPool.Log, ReplayTm, ReplayOwn, UndoOwn;
      if coord.pool.journal.Some? {
        OwnWrite(old(Own()), Own(), old(coord.pool.Log(OwnComp)), op);
        assert Base().tms == old(Base()).tms by {
          forall i | 0 <= i < |coord.managers|
            ensures coord.managers[i].Base(coord.pool) == old(coord.managers[i].Base(coord.pool))
          {
            assert coord.Tms()[i] == old(coord.Tms())[i];
          }
        }
      }
    }

    /** `free`'s last step: forget how long the request's hit was. */
    method DropHitLen(slot: Slot)
      modifies this`hitLen, coord.pool`journal
      ensures St() == old(St()).(hitLen := old(hitLen) - {slot}) && coord.pool.Linked() == old(coord.pool.Linked())
      ensures Recorded()
    {
      hide BlockPool.Base, BlockPool.Log, BlockPool.St, BlockPool.Linked, ReplayTm, ReplayOwn, TypeManager.Base;
      ghost var m := hitLen;
      var op := HitLen(slot, Get(hitLen, slot));
      Note(op);
      hitLen := hitLen - {slot};
      assert PutOr(hitLen, slot, Get(m, slot)) == m;
      OwnRecorded(op);
    }

    /** `table_set`: the table may grow only while nothing is being recorded. */
    method TableSet(slot: Slot, e: Entry)
      requires coord.pool.journal.Some? ==> slot < |table|
      modifies this`table, coord.pool`journal
      ensures St() == ManagerSpec.TableSet(old(St()), slot, e) && Ready() == old(Ready())
      ensures Recorded()
    {
      hide BlockPool.Base, BlockPool.Log, BlockPool.St, BlockPool.Linked, ReplayTm, ReplayOwn, TypeManager.Base;
      if slot >= |table| {
        table := table + Repeat(None, slot + 1 - |table|);
        table := table[slot := Some(e)];
        return;
      }
      ghost var t := table;
      var op := TableEntry(slot, table[slot]);
      Note(op);
      table := table[slot := Some(e)];
      assert table[slot := t[slot]] == t;
      OwnRecorded(op);
    }

    // ---- admission ------------------------------------------------------------------

    function HashesOf(slot: Slot): seq<Digest>
      reads this
    {
      if slot in hashes then hashes[slot] else []
    }

    /** `cache_blocks`: only whole scheduler blocks when several groups must agree. */
    method CacheBlocks(slot: Slot, tokens: nat)
      requires Ready() && coord.cfg.caching
      requires forall i :: 0 <= i < |coord.managers| ==>
        Fileable(coord.Tms()[i], slot, Hashes(St(), slot), coord.Tms()[i].group.blockSize / coord.cfg.hashBlock,
                 Cacheable(coord.cfg, tokens))
      modifies coord.pool, coord.managers
      ensures Ready() && St() == CacheAll(old(St()), slot, tokens)
      ensures coord.Recorded()
    {
      hide BlockPool.Base, BlockPool.Log, BlockPool.St, BlockPool.Linked, TypeManager.St, TypeManager.Base, FanOut,
           GInv, ConfigOk, Fileable;
      var op := File(slot, HashesOf(slot), coord.cfg.hashBlock, Cacheable(coord.cfg, tokens));
      PlainOk(op, coord.pool.St(), coord.Tms(), 0, []);
      var _, _ := coord.Each(op);
    }

    /** The second half of `allocate_slots`, once the estimate fits: nothing in it can fail. */
    method Grant(c: Call, hits: seq<seq<Id>>, tokens: nat, main: nat, ghost s: State) returns (out: Outcome)
      requires Ready() && StateInv(s) && CallOk(s, c) && Hashed(s, c.slot, c.reqTokens) && c.newTokens > 0
      requires var f1 := All(Skip(c.slot, Total(s, c)), s.pool, s.tms);
        Admits(s, c, f1) && St() == s.(pool := f1.pool, tms := f1.tms) && hits == CallHits(s, c)
      requires tokens == NeedTokens(s, c) && main == MainTokens(s, c)
      modifies coord.pool, coord.managers
      ensures Ready() && (St(), out) == ManagerSpec.AllocateSlots(s, c)
      ensures coord.Recorded()
    {
      hide BlockPool.Base, BlockPool.Log, BlockPool.St, BlockPool.Linked, TypeManager.St, TypeManager.Base,
           FanOut, GInv, ConfigOk, Blank, HitsExist, NoneGained, SameHashes, Admits, AddAll, CacheAll, Fileable,
           OnlySlots, Cacheable;
      SkipAllOk(s, c);
      GrantedOk(s, c);
      if s.cfg.caching { GrantedFileable(s, c); }
      var _ := coord.AddComputedBlocks(c, hits);
      var _, outs := coord.Each(Grow(c.slot, tokens, main));
      out := Granted(outs);
      CacheOff(St(), c.slot, Min(main, c.reqTokens));
      if coord.cfg.caching { CacheBlocks(c.slot, Min(main, c.reqTokens)); }
    }

    /** `allocate_slots`: give skipped blocks back, test the estimate, then grant or refuse. */
    method AllocateSlots(c: Call) returns (out: Outcome)
      requires Ready() && CallOk(St(), c) && Hashed(St(), c.slot, c.reqTokens)
      modifies coord.pool, coord.managers
      ensures Ready() && (St(), out) == ManagerSpec.AllocateSlots(old(St()), c)
      ensures c.newTokens > 0 ==> !out.Failed?
      ensures Recorded()
    {
      hide BlockPool.Base, BlockPool.Log, BlockPool.St, BlockPool.Linked, TypeManager.St, TypeManager.Base, Base,
           FanOut, GInv, ConfigOk, Blank, HitsExist, NoneGained, SameHashes, EstimateFrom, AddAll, CacheAll, OnlySlots,
           Hashed, Cacheable;
      if c.newTokens == 0 { return Failed; }
      ghost var s := St();
      ReadyInv();
      AllOrNothing(s, c);
      SkipAllOk(s, c);
      var hits := if c.usePending && HasHit(pending) then pending else [];
      var total := Min(c.computed + c.newComputed, coord.cfg.maxModelLen);
      var main := total + c.newTokens;
      var tokens := Min(main + c.lookahead, coord.cfg.maxModelLen);
      var watermark := if c.others && (c.status == WAITING || c.status == PREEMPTED) then coord.cfg.watermark else 0;
      var _, _ := coord.Each(Skip(c.slot, total));
      NoHits(coord.pool.St());
      var need := coord.BlocksToAllocate(c.slot, tokens, hits, main);
      coord.pool.FreeCount();
      if need + watermark > coord.pool.numFree {
        out := Refused;
      } else {
        out := Grant(c, hits, tokens, main, s);
      }
      CoordRecorded();
    }

    /** `free`: preemption and request death alike. */
    method FreeSlot(slot: Slot)
      requires Ready()
      modifies this`hitLen, coord.pool, coord.managers
      ensures Ready() && St() == ManagerSpec.FreeSlot(old(St()), slot)
      ensures Recorded()
    {
      hide BlockPool.Base, BlockPool.Log, BlockPool.St, BlockPool.Linked, TypeManager.St, TypeManager.Base, Base,
           FanOut, GInv, ConfigOk;
      PlainOk(Release(slot), coord.pool.St(), coord.Tms(), 0, []);
      var _, _ := coord.Each(Release(slot));
      CoordRecorded();
      DropHitLen(slot);
    }

    /** `new_step_starts`. */
    method NewStepStarts()
      requires Ready()
      modifies coord.pool, coord.managers
      ensures Ready() && St() == StartStep(old(St()))
      ensures Recorded()
    {
      hide BlockPool.Base, BlockPool.Log, BlockPool.St, BlockPool.Linked, TypeManager.St, TypeManager.Base, Base,
           FanOut, GInv, ConfigOk;
      StepStartOk(coord.pool.St(), coord.Tms(), 0, []);
      var _, _ := coord.Each(StepStart);
      CoordRecorded();
    }

    /** `get_num_common_prefix_blocks`: one count per group. */
    method CommonPrefixBlocks(slot: Slot) returns (counts: seq<nat>)
      requires Ready()
      modifies coord.pool, coord.managers
      ensures Ready() && (St(), counts) == CommonPrefixAll(old(St()), slot)
      ensures Recorded()
    {
      hide BlockPool.Base, BlockPool.Log, BlockPool.St, BlockPool.Linked, TypeManager.St, TypeManager.Base, Base,
           FanOut, GInv, ConfigOk;
      ghost var s := St();
      if !coord.cfg.caching { return Repeat<nat>(0, |coord.managers|); }
      PlainOk(Prefix(slot), coord.pool.St(), coord.Tms(), 0, []);
      var _, outs := coord.Each(Prefix(slot));
      counts := seq(|outs|, i requires 0 <= i < |outs| => if outs[i] == [] then 0 else outs[i][0]);
      assert counts == CommonPrefixAll(s, slot).1;
      CoordRecorded();
    }

    // ---- prefix hits ----------------------------------------------------------------

    /** `get_computed_blocks`: not recorded, so only while the journal is off. */
    method GetComputedBlocks(slot: Slot, tokens: nat, skip: bool) returns (hit: nat)
      requires Ready() && coord.pool.journal.None?
      modifies this`pending, this`hitLen, coord`uncached
      ensures Ready() && (St(), hit) == GetComputed(old(St()), slot, tokens, skip)
    {
      hide BlockPool.Linked, TypeManager.St, GInv, ConfigOk, Longest, HitBlocks;
      if !coord.cfg.caching || skip {
        pending := seq(|pending|, _ => []);
        hitLen := hitLen[slot := 0];
        return 0;
      }
      hit, pending := coord.FindLongestCacheHit(HashesOf(slot), Monus(tokens, 1));
      hitLen := hitLen[slot := hit];
    }

    /** `peek_cache_hit`. */
    method PeekCacheHit(slot: Slot, tokens: nat) returns (hit: nat)
      requires Ready() && coord.pool.journal.None?
      modifies coord`uncached
      ensures Ready() && (St(), hit) == Peek(old(St()), slot, tokens)
    {
      hide BlockPool.Linked, TypeManager.St, GInv, ConfigOk, Longest, HitBlocks;
      if !coord.cfg.caching { return 0; }
      var blocks;
      hit, blocks := coord.FindLongestCacheHit(HashesOf(slot), Monus(tokens, 1));
    }

    // ---- between steps --------------------------------------------------------------

    /** `update_step`: the table half, from the accepted counts. */
    method UpdateStep(reports: seq<Report>)
      modifies this`table, coord.pool`journal
      ensures St() == UpdateTable(old(St()), reports) && Ready() == old(Ready())
      ensures Recorded()
    {
      hide BlockPool.Base, BlockPool.Log, BlockPool.St, BlockPool.Linked, Base, Ready, St;
      assert reports[0..] == reports;
      for i := 0 to |reports|
        invariant UpdateTable(St(), reports[i..]) == UpdateTable(old(St()), reports) && Ready() == old(Ready())
        invariant Recorded()
      {
        assert reports[i..][0] == reports[i] && reports[i..][1..] == reports[i + 1..];
        TableMatches(reports[i].slot);
        var e := TableGet(reports[i].slot);
        if e.Some? { TableSet(reports[i].slot, Updated(e.value, reports[i])); }
      }
    }

    /** `table_burst`. */
    method TableBurst(slots: seq<Slot>, delta: int)
      modifies this`table, coord.pool`journal
      ensures St() == BurstTable(old(St()), slots, delta) && Ready() == old(Ready())
      ensures Recorded()
    {
      hide BlockPool.Base, BlockPool.Log, BlockPool.St, BlockPool.Linked, Base, Ready, St;
      assert slots[0..] == slots;
      for i := 0 to |slots|
        invariant BurstTable(St(), slots[i..], delta) == BurstTable(old(St()), slots, delta) && Ready() == old(Ready())
        invariant Recorded()
      {
        assert slots[i..][0] == slots[i] && slots[i..][1..] == slots[i + 1..];
        TableMatches(slots[i]);
        var e := TableGet(slots[i]);
        if e.Some? { TableSet(slots[i], Burst(e.value, delta)); }
      }
    }

    /** `push_hashes`. */
    method PushHashes(slot: Slot, ds: seq<Digest>)
      requires coord.pool.journal.None?
      modifies this`hashes
      ensures St() == TableSpec.PushHashes(old(St()), slot, ds) && Ready() == old(Ready())
    {
      hashes := hashes[slot := HashesOf(slot) + ds];
    }

    /** `table_clear`. */
    method TableClear(slot: Slot)
      modifies this`table, coord.pool`journal
      ensures St() == CacheReset.TableClear(old(St()), slot) && Ready() == old(Ready())
      ensures coord.pool.journal.Some? == old(coord.pool.journal.Some?) && Recorded()
    {
      hide BlockPool.Base, BlockPool.Log, BlockPool.St, BlockPool.Linked, ReplayTm, ReplayOwn, TypeManager.Base;
      if slot >= |table| { return; }
      ghost var t := table;
      var op := TableEntry(slot, table[slot]);
      Note(op);
      table := table[slot := None];
      assert table[slot := t[slot]] == t;
      OwnRecorded(op);
    }

    /** `forget`: request death. */
    method Forget(slot: Slot)
      requires coord.pool.journal.None?
      modifies this`hashes, this`hitLen, this`table, coord.pool`journal
      ensures St() == CacheReset.Forget(old(St()), slot) && Ready() == old(Ready()) && coord.pool.journal.None?
    {
      hide BlockPool.St, BlockPool.Linked, Recorded;
      if slot in hashes { hashes := hashes[slot := []]; }
      hitLen := hitLen - {slot};
      TableClear(slot);
    }

    /** `remove_skipped_blocks`. */
    method SkipBlocks(slot: Slot, total: nat)
      requires Ready()
      modifies coord.pool, coord.managers
      ensures Ready() && St() == SkipSlot(old(St()), slot, total)
      ensures Recorded()
    {
      hide BlockPool.Base, BlockPool.Log, BlockPool.St, BlockPool.Linked, TypeManager.St, TypeManager.Base, Base,
           FanOut, GInv, ConfigOk;
      PlainOk(Skip(slot, total), coord.pool.St(), coord.Tms(), 0, []);
      var _, _ := coord.Each(Skip(slot, total));
      CoordRecorded();
    }

    /** `evict_blocks`. */
    method EvictBlocks(ids: seq<Id>)
      requires Ready() && InRange(St().pool, ids) && coord.pool.journal.None?
      modifies coord.pool
      ensures Ready() && St() == EvictIds(old(St()), ids) && coord.pool.journal.None?
    {
      hide BlockPool.St, BlockPool.Linked, BlockPool.Base, BlockPool.Log, TypeManager.St, GInv, ConfigOk, EvictAll;
      ReadyInv();
      EvictIdsKeeps(St(), ids);
      coord.pool.EvictBlocks(ids);
      InvReady();
    }

    /** `reset_prefix_cache`. */
    method ResetPrefixCache() returns (ok: bool)
      requires Ready() && coord.pool.journal.None?
      modifies coord.pool`arena, coord.pool`cached, coord.pool`aliases
      ensures Ready() && St() == ResetAll(old(St())) && coord.pool.journal.None?
      ensures ok == ResetCache(old(St()).pool).1
    {
      hide BlockPool.St, BlockPool.Linked, TypeManager.St, GInv, ConfigOk, ResetCache;
      ReadyInv();
      ResetAllKeeps(St());
      ok := coord.pool.ResetPrefixCache();
      InvReady();
    }

    /** `cache_blocks` as an entry point: nothing happens with caching off. */
    method FileBlocks(slot: Slot, tokens: nat)
      requires Ready() && coord.pool.journal.None? && CanFile(St(), slot, tokens)
      modifies coord.pool, coord.managers
      ensures Ready() && St() == CacheAll(old(St()), slot, tokens) && coord.pool.journal.None?
    {
      hide BlockPool.St, BlockPool.Linked, BlockPool.Base, BlockPool.Log, TypeManager.St, TypeManager.Base, FanOut,
           GInv, ConfigOk, Fileable;
      CacheOff(St(), slot, tokens);
      if coord.cfg.caching { CacheBlocks(slot, tokens); }
    }

    // ---- the journal ----------------------------------------------------------------

    /** Start recording. */
    method ArmJournal()
      requires coord.pool.journal.None?
      modifies coord.pool`journal
      ensures coord.pool.journal == Some([]) && Base() == Now() && Undone() == St()
      ensures St() == old(St()) && Now() == old(Now()) && Ready() == old(Ready()) && (Ready() ==> Sound())
    {
      coord.pool.journal := Some([]);
      assert Base().tms == coord.Tms();
      if Ready() { ReadyInv(); }
    }

    /** Stop recording and keep what was done. */
    method CommitJournal()
      modifies coord.pool`journal
      ensures coord.pool.journal == None
      ensures St() == old(St()) && Now() == old(Now()) && Ready() == old(Ready())
    {
      coord.pool.journal := None;
    }

    /** Put one recorded value back where it belongs. */
    method Restore(op: Undo)
      requires coord.Wired()
      modifies this`hitLen, this`table, coord.pool, coord.managers
      ensures Now() == UndoCells(old(Now()), op) && coord.pool.journal == old(coord.pool.journal)
    {
      hide UndoPool, UndoTms, UndoOwn, BlockPool.Cells, TypeManager.St, ConfigOk;
      OtherCells(op, coord.pool.Cells(), Own());
      OtherTms(op, coord.Tms());
      match CompOf(op)
      case PoolComp =>
        coord.pool.Restore(op);
        assert coord.Tms() == old(coord.Tms());
      case GroupComp(g) => RestoreGroup(g, op);
      case OwnComp =>
        RestoreOwn(op);
        assert coord.Tms() == old(coord.Tms());
    }

    method RestoreGroup(g: nat, op: Undo)
      requires coord.Wired() && CompOf(op) == GroupComp(g)
      modifies coord.managers
      ensures coord.Tms() == UndoTms(old(coord.Tms()), op)
    {
      hide UndoTm, TypeManager.St, ConfigOk;
      ghost var tms := coord.Tms();
      if g < |coord.managers| {
        coord.managers[g].Restore(op);
        coord.OthersSame(g);
      }
      assert coord.Tms() == UndoTms(tms, op);
    }

    method RestoreOwn(op: Undo)
      requires CompOf(op) == OwnComp
      modifies this`hitLen, this`table
      ensures Own() == UndoOwn(old(Own()), op)
    {
      match op
      case HitLen(slot, number) => hitLen := PutOr(hitLen, slot, number);
      case TableEntry(slot, prior) =>
        if slot >= |table| { table := table + Repeat(None, slot + 1 - |table|); }
        table := table[slot := prior];
    }

    /** Stop recording and undo: one reversed pass over the log gives back every cell as it was
        when the journal was armed. */
    method RollbackJournal()
      requires coord.Wired()
      modifies this`hitLen, this`table, coord.pool, coord.managers
      ensures coord.pool.journal == None
      ensures Now() == if old(coord.pool.journal).Some? then old(Base()) else old(Now())
    {
      hide Replayed, UndoCells, BlockPool.Cells, ReplayPool, ReplayTm, ReplayOwn, Project, TypeManager.St,
           TypeManager.Base;
      if coord.pool.journal.None? { return; }
      var ops := coord.pool.journal.value;
      BaseReplayed(ops);
      ghost var base := Base();
      assert ops[..|ops|] == ops;
      CommitJournal();
      var i := |ops|;
      while i > 0
        invariant 0 <= i <= |ops| && Replayed(Now(), ops[..i]) == base && coord.pool.journal == None
      {
        i := i - 1;
        ReplayedStep(Now(), ops, i);
        Restore(ops[i]);
      }
      ReplayedNone(Now());
    }

    /** With nothing recorded there is nothing to undo. */
    lemma Unarmed()
      ensures coord.pool.journal.None? ==> Base() == Now() && Undone() == St() && (Ready() ==> Sound())
    {
      if coord.pool.journal.None? {
        assert Base().tms == coord.Tms();
        if Ready() { ReadyInv(); }
      }
    }

    lemma Wires()
      requires Ready()
      ensures coord.Wired()
    {}

    /** A recorded run leaves the undone state alone. */
    twostate lemma StillUndone()
      requires Recorded() && old(coord.pool.journal).Some?
      requires hashes == old(hashes) && pending == old(pending) && coord.uncached == old(coord.uncached)
      ensures Undone() == old(Undone()) && Sound() == old(Sound())
    {}

    /** `rollback_journal`, with what the caller sees: the manager of before the recorded run. */
    method Rollback()
      requires coord.Wired() && coord.pool.journal.Some? && Sound()
      modifies this`hitLen, this`table, coord.pool, coord.managers
      ensures coord.pool.journal == None && Now() == old(Base())
      ensures Ready() && St() == old(Undone())
    {
      hide Base, StateInv, LinkedOf, BlockPool.Cells, TypeManager.St;
      RollbackJournal();
      Standing(Now());
    }

    lemma Standing(c: Cells)
      requires coord.Wired() && Now() == c && StateInv(StOf(c)) && LinkedOf(coord.pool.n, c.pool)
      ensures Ready() && St() == StOf(c)
    {}

    lemma BaseReplayed(ops: seq<Undo>)
      requires coord.Wired() && coord.pool.journal == Some(ops)
      ensures Base() == Replayed(Now(), ops)
    {
      hide ReplayPool, ReplayTm, ReplayOwn, Project;
      assert Base().tms == Replayed(Now(), ops).tms;
    }
  }

  lemma NoHits(p: Pool)
    ensures HitsExist(p, [])
  {}

  lemma CacheOff(s: State, slot: Slot, tokens: nat)
    ensures !s.cfg.caching ==> CacheAll(s, slot, tokens) == s
  {}

  function UndoTms(ts: seq<Tm>, op: Undo): seq<Tm> {
    seq(|ts|, i requires 0 <= i < |ts| => UndoneTm(ts[i], i, op))
  }

  /** One entry undone. */
  function UndoCells(c: Cells, op: Undo): Cells {
    Cells(UndoPool(c.pool, op), UndoTms(c.tms, op), UndoOwn(c.own, op))
  }

  /** A whole log undone, newest entry first. */
  function Replayed(c: Cells, ops: seq<Undo>): Cells {
    Cells(ReplayPool(c.pool, Project(ops, PoolComp)),
          seq(|c.tms|, i requires 0 <= i < |c.tms| => ReplayTm(c.tms[i], Project(ops, GroupComp(i)))),
          ReplayOwn(c.own, Project(ops, OwnComp)))
  }

  lemma ReplayedNone(c: Cells)
    ensures Replayed(c, []) == c
  {
    assert Replayed(c, []).tms == c.tms;
  }

  lemma ReplayedStep(c: Cells, ops: seq<Undo>, i: nat)
    requires i < |ops|
    ensures Replayed(UndoCells(c, ops[i]), ops[..i]) == Replayed(c, ops[..i + 1])
  {
    hide Project, UndoneTm;
    OtherCells(ops[i], c.pool, c.own);
    PoolRestored(c.pool, ops, i);
    OwnRestored(c.own, ops, i);
    forall j | 0 <= j < |c.tms|
      ensures Replayed(UndoCells(c, ops[i]), ops[..i]).tms[j] == Replayed(c, ops[..i + 1]).tms[j]
    {
      TmRestored(c.tms[j], j, ops, i);
    }
    assert Replayed(UndoCells(c, ops[i]), ops[..i]).tms == Replayed(c, ops[..i + 1]).tms;
  }

  /** An entry touches one component. */
  lemma OtherCells(op: Undo, c: PoolCells, d: OwnCells)
    ensures CompOf(op) != PoolComp ==> UndoPool(c, op) == c
    ensures CompOf(op) != OwnComp ==> UndoOwn(d, op) == d
  {}

  lemma OtherTms(op: Undo, ts: seq<Tm>)
    ensures CompOf(op) == PoolComp || CompOf(op) == OwnComp ==> UndoTms(ts, op) == ts
  {
    if CompOf(op) == PoolComp || CompOf(op) == OwnComp { assert UndoTms(ts, op) == ts; }
  }

  lemma PoolRestored(c: PoolCells, ops: seq<Undo>, i: nat)
    requires i < |ops|
    ensures ReplayPool(UndoPool(c, ops[i]), Project(ops[..i], PoolComp))
        == ReplayPool(c, Project(ops[..i + 1], PoolComp))
  {
    ReplayAll(ops, i, PoolComp);
    PoolWrite(UndoPool(c, ops[i]), c, Project(ops[..i], PoolComp), ops[i]);
  }

  lemma TmRestored(t: Tm, j: nat, ops: seq<Undo>, i: nat)
    requires i < |ops|
    ensures ReplayTm(UndoneTm(t, j, ops[i]), Project(ops[..i], GroupComp(j)))
         == ReplayTm(t, Project(ops[..i + 1], GroupComp(j)))
  {
    ReplayAll(ops, i, GroupComp(j));
    TmWrite(UndoTm(t, ops[i]), t, Project(ops[..i], GroupComp(j)), ops[i]);
  }

  lemma OwnRestored(c: OwnCells, ops: seq<Undo>, i: nat)
    requires i < |ops|
    ensures ReplayOwn(UndoOwn(c, ops[i]), Project(ops[..i], OwnComp)) == ReplayOwn(c, Project(ops[..i + 1], OwnComp))
  {
    ReplayAll(ops, i, OwnComp);
    OwnWrite(UndoOwn(c, ops[i]), c, Project(ops[..i], OwnComp), ops[i]);
  }
}
