/** A request whose hashes are up to date has a block and a hash for everything a granted
    allocation files. */
module Served {
  import opened Basics
  import opened PoolSpec
  import opened PoolInv
  import opened TypeSpec
  import opened TypeInv
  import opened TypeAlloc
  import opened HitLookup
  import opened ManagerSpec
  import opened ManagerInv
  import opened Admission
  import opened TypeManagers

  /** What the allocator needs of a request it is to cache: it fits the model, and every full
      block of its tokens has been hashed. */
  predicate Hashed(s: State, slot: Slot, tokens: nat) {
    s.cfg.caching ==> tokens <= s.cfg.maxModelLen && |Hashes(s, slot)| >= tokens / s.cfg.hashBlock
  }

  /** The table covers what was asked for. */
  predicate LongEnough(t: Tm, slot: Slot, tokens: nat, main: nat) {
    |Blocks(t, slot)| >= if t.group.kind.Mamba? then CDiv(main, Bs(t)) + t.group.numSpec else CDiv(tokens, Bs(t))
  }

  lemma AllocLong(p: Pool, t: Tm, slot: Slot, tokens: nat, main: nat)
    requires TmInv(p, t) && main > 0 && Alloc(p, t, slot, tokens, main).ok
    ensures LongEnough(Alloc(p, t, slot, tokens, main).tm, slot, tokens, main)
    ensures Alloc(p, t, slot, tokens, main).tm.group == t.group
  {
    hide GetNew, CDiv, Recycle;
    if t.group.kind.Mamba? && CDiv(main, Bs(t)) + t.group.numSpec > |Blocks(t, slot)| {
      MambaWanted(p, t, slot, tokens, main);
    }
  }

  lemma {:induction false} GrowLong(slot: Slot, tokens: nat, main: nat, p: Pool, ts: seq<Tm>, i: nat,
                                    outs: seq<seq<nat>>)
    requires GInv(p, ts) && i <= |ts| && main > 0 && WantedFrom(ts, slot, tokens, main, i) <= |p.free|
    ensures var us := FanOut(Grow(slot, tokens, main), p, ts, i, outs).tms;
      |us| == |ts| && (forall j :: 0 <= j < i ==> us[j] == ts[j])
      && forall j :: i <= j < |ts| ==> LongEnough(us[j], slot, tokens, main) && us[j].group == ts[j].group
    decreases |ts| - i
  {
    hide Inv, Counted, TmInv, Wanted, Alloc, Keeps, LongEnough;
    if i < |ts| {
      GroupTables(p, ts, i);
      AllocOk(p, ts[i], slot, tokens, main);
      AllocLong(p, ts[i], slot, tokens, main);
      var s := Do(Grow(slot, tokens, main), p, ts[i]);
      var us := ts[i := s.tm];
      GroupStep(p, ts, i, s.pool, s.tm, slot);
      WantedFromSame(ts, us, slot, tokens, main, i + 1);
      GrowLong(slot, tokens, main, s.pool, us, i + 1, outs + [s.out]);
    }
  }

  /** Whole blocks of `upTo` tokens, counted in hashes. */
  lemma HashesReach(upTo: nat, tokens: nat, bs: Pos, hb: Pos)
    requires upTo <= tokens && bs % hb == 0
    ensures upTo / bs * (bs / hb) <= tokens / hb && bs / hb > 0
  {
    var q, k := upTo / bs, bs / hb;
    Exact(bs, hb);
    StridePos(bs, hb);
    FloorBounds(upTo, bs);
    FloorBounds(tokens, hb);
    assert q * k * hb == q * (k * hb) == q * bs;
    MulOrder(tokens / hb + 1, q * k, hb);
    MulOrder(q * k, tokens / hb + 1, hb);
  }

  lemma CoverBlocks(upTo: nat, tokens: nat, bs: Pos)
    requires upTo <= tokens
    ensures upTo / bs <= CDiv(tokens, bs)
  {
    CDivBounds(tokens, bs);
    FloorBounds(upTo, bs);
    MulOrder(CDiv(tokens, bs) + 1, upTo / bs, bs);
    MulOrder(CDiv(tokens, bs), upTo / bs, bs);
  }

  lemma LongFileable(t: Tm, slot: Slot, hashes: seq<Digest>, hb: Pos, upTo: nat, tokens: nat, main: nat, req: nat)
    requires LongEnough(t, slot, tokens, main) && t.group.blockSize % hb == 0
    requires upTo <= tokens && upTo <= main && upTo <= req && |hashes| >= req / hb
    ensures Fileable(t, slot, hashes, t.group.blockSize / hb, upTo)
  {
    hide CDiv;
    HashesReach(upTo, req, Bs(t), hb);
    CoverBlocks(upTo, tokens, Bs(t));
    CoverBlocks(upTo, main, Bs(t));
  }

  lemma CacheableLess(c: Config, tokens: nat)
    ensures Cacheable(c, tokens) <= tokens
  {
    FloorBounds(tokens, c.schedBlock);
  }

  /** What `cache_blocks` demands: in every group the blocks to be filed exist and are hashed. */
  predicate CanFile(s: State, slot: Slot, tokens: nat) {
    s.cfg.caching ==>
      forall i :: 0 <= i < |s.tms| ==>
        Fileable(s.tms[i], slot, Hashes(s, slot), s.tms[i].group.blockSize / s.cfg.hashBlock, Cacheable(s.cfg, tokens))
  }

  /** The tables just before filing. */
  function Grown(s: State, c: Call): Fan {
    var f1 := All(Skip(c.slot, Total(s, c)), s.pool, s.tms);
    var f2 := AddAll(f1.pool, f1.tms, c, CallHits(s, c));
    All(Grow(c.slot, NeedTokens(s, c), MainTokens(s, c)), f2.pool, f2.tms)
  }

  /** Every group has what filing `tokens` asks for. */
  predicate GroupsFileable(ts: seq<Tm>, slot: Slot, hashes: seq<Digest>, hb: Pos, tokens: nat) {
    forall i :: 0 <= i < |ts| ==> Fileable(ts[i], slot, hashes, ts[i].group.blockSize / hb, tokens)
  }

  /** After a grant, every group has what caching asks for. */
  lemma GrantedFileable(s: State, c: Call)
    requires StateInv(s) && CallOk(s, c) && c.newTokens > 0 && s.cfg.caching && Hashed(s, c.slot, c.reqTokens)
    requires Admits(s, c, All(Skip(c.slot, Total(s, c)), s.pool, s.tms))
    ensures GroupsFileable(Grown(s, c).tms, c.slot, Hashes(s, c.slot), s.cfg.hashBlock,
                           Cacheable(s.cfg, Min(MainTokens(s, c), c.reqTokens)))
  {
    hide FanOut, Admits, Blank, HitsExist, NoneGained, LongEnough, Fileable, Counted, Inv, TmInv, Cacheable, WantedFrom;
    SkipAllOk(s, c);
    var f1 := All(Skip(c.slot, Total(s, c)), s.pool, s.tms);
    AdmittedFits(s, c, f1);
    var f2 := AddAll(f1.pool, f1.tms, c, CallHits(s, c));
    GrowLong(c.slot, NeedTokens(s, c), MainTokens(s, c), f2.pool, f2.tms, 0, []);
    var f3 := All(Grow(c.slot, NeedTokens(s, c), MainTokens(s, c)), f2.pool, f2.tms);
    var upTo := Cacheable(s.cfg, Min(MainTokens(s, c), c.reqTokens));
    CacheableLess(s.cfg, Min(MainTokens(s, c), c.reqTokens));
    forall i | 0 <= i < |f3.tms|
      ensures Fileable(f3.tms[i], c.slot, Hashes(s, c.slot), f3.tms[i].group.blockSize / s.cfg.hashBlock, upTo)
    {
      assert OnlySlot(s.tms[i], f1.tms[i], c.slot) && OnlySlot(f1.tms[i], f2.tms[i], c.slot);
      assert f3.tms[i].group == s.tms[i].group == s.cfg.groups[i];
      LongFileable(f3.tms[i], c.slot, Hashes(s, c.slot), s.cfg.hashBlock, upTo, NeedTokens(s, c), MainTokens(s, c),
                   c.reqTokens);
    }
  }
}
