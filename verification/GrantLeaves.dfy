/**
 * What a granted `allocate_slots` leaves in the request's tables and in the index, in numbers of the
 * configuration and the call: how long each table is, how much of it counts as cached, and under
 * which key each newly counted block can be found.
 */
module GrantLeaves {
  import opened Basics
  import opened PoolSpec
  import opened PoolInv
  import opened PoolCounts
  import opened TypeSpec
  import opened TypeInv
  import opened TypeAlloc
  import opened TypeManagers
  import opened ManagerSpec
  import opened ManagerInv
  import opened Admission
  import opened Pinned
  import opened Served
  import opened MambaState

  // ---- the numbers ------------------------------------------------------------------

  /** Tokens the main model will have computed: what was, cut to the model length, and the new ones. */
  function Computes(s: State, c: Call): nat { Min(c.computed + c.newComputed, s.cfg.maxModelLen) + c.newTokens }

  /** Tokens the table has to hold: those and the lookahead, cut to the model length. */
  function Holds(s: State, c: Call): nat { Min(Computes(s, c) + c.lookahead, s.cfg.maxModelLen) }

  /** `x` cut to a whole number of `b`. */
  function WholeOf(x: nat, b: Pos): (r: nat)
    ensures r <= x
  {
    FloorBounds(x, b);
    x - x % b
  }

  /** Tokens of the request's own that are filed; with several groups only whole scheduler blocks are. */
  function FileTokens(s: State, c: Call): nat {
    var tokens := Min(Computes(s, c), c.reqTokens);
    if |s.cfg.groups| > 1 then WholeOf(tokens, s.cfg.schedBlock) else tokens
  }

  /** Blocks of a group that are full of them. */
  function FullBlocks(s: State, c: Call, bs: Pos): nat { FileTokens(s, c) / bs }

  /** How long the group's table has to be. */
  function Length(s: State, c: Call, t: Tm): nat {
    if t.group.kind.Mamba? then CDiv(Computes(s, c), Bs(t)) + t.group.numSpec else CDiv(Holds(s, c), Bs(t))
  }

  /** The group's table and cached count once the hit is in. */
  function WithHit(s: State, c: Call, g: nat): seq<Id>
    requires g < |s.tms|
  {
    if CallHits(s, c) != [] then Padded(s.tms[g], HitOf(CallHits(s, c), g), c.computed + c.newComputed)
    else Blocks(s.tms[g], c.slot)
  }

  function CachedWithHit(s: State, c: Call, g: nat): nat
    requires g < |s.tms|
  {
    if CallHits(s, c) != [] then |WithHit(s, c, g)| else NumCached(s.tms[g], c.slot)
  }

  // ---- filing in all groups ---------------------------------------------------------

  /** The table lists the block at `j` and not again before `to`. */
  predicate LastListed(v: seq<Id>, j: nat, to: nat) {
    j < |v| && v[j] != NULL && forall i :: j < i < to && i < |v| ==> v[i] != v[j]
  }

  /** No later group's table lists the block. */
  predicate NotLater(ts: seq<Tm>, slot: Slot, g: nat, b: Id) {
    forall h :: g < h < |ts| ==> b !in Blocks(ts[h], slot)
  }

  lemma {:induction false} FileCounts(slot: Slot, hashes: seq<Digest>, hb: Pos, tokens: nat, p: Pool, ts: seq<Tm>,
                                      i: nat, outs: seq<seq<nat>>)
    requires i <= |ts|
    ensures var us := FanOut(File(slot, hashes, hb, tokens), p, ts, i, outs).tms;
      |us| == |ts| && forall h :: 0 <= h < |ts| ==>
        && Blocks(us[h], slot) == Blocks(ts[h], slot)
        && NumCached(us[h], slot)
           == if h < i then NumCached(ts[h], slot) else Max(NumCached(ts[h], slot), tokens / Bs(ts[h]))
    decreases |ts| - i
  {
    hide CacheBlocks, NumCached, Blocks;
    if i < |ts| {
      var s := Do(File(slot, hashes, hb, tokens), p, ts[i]);
      FileShape(p, ts[i], slot, hashes, ts[i].group.blockSize / hb, tokens);
      var us := ts[i := s.tm];
      FileCounts(slot, hashes, hb, tokens, s.pool, us, i + 1, outs + [s.out]);
      forall h | 0 <= h < |ts| ensures Blocks(us[h], slot) == Blocks(ts[h], slot) && Bs(us[h]) == Bs(ts[h]) {}
    }
  }

  /** Group `g` files its block `j` under the key of its boundary, where later groups leave it. */
  lemma {:induction false} FileFiles(slot: Slot, hashes: seq<Digest>, hb: Pos, tokens: nat, p: Pool, ts: seq<Tm>,
                                     i: nat, outs: seq<seq<nat>>, g: nat, j: nat)
    requires GInv(p, ts) && i <= g < |ts|
    requires NumCached(ts[g], slot) <= j < tokens / Bs(ts[g])
    requires LastListed(Blocks(ts[g], slot), j, tokens / Bs(ts[g]))
    requires KeyAt(hashes, ts[g].group.blockSize / hb, g, j).Some?
    requires forall h :: g < h < |ts| ==> Past(ts[h], slot, Blocks(ts[g], slot)[j])
    ensures Contain(FanOut(File(slot, hashes, hb, tokens), p, ts, i, outs).pool.cached,
                    KeyAt(hashes, ts[g].group.blockSize / hb, g, j).value, Blocks(ts[g], slot)[j])
    decreases |ts| - i
  {
    hide Inv, TmInv, Counted, CacheBlocks, CacheFull, Keeps, KeyAt, Contain, Past;
    var t := ts[i];
    GroupTables(p, ts, i);
    CacheBlocksOk(p, t, slot, hashes, t.group.blockSize / hb, tokens);
    var s := Do(File(slot, hashes, hb, tokens), p, t);
    var us := ts[i := s.tm];
    GroupStep(p, ts, i, s.pool, s.tm, slot);
    if i < g {
      FileFiles(slot, hashes, hb, tokens, s.pool, us, i + 1, outs + [s.out], g, j);
    } else {
      var v := Blocks(t, slot);
      TableRange(p, t, slot);
      CacheShape(p, t, slot, hashes, t.group.blockSize / hb, tokens);
      CacheFullFiles(p, v, hashes, t.group.blockSize / hb, NumCached(t, slot), tokens / Bs(t), t.group.blockSize, g, j);
      FilePins(slot, hashes, hb, tokens, s.pool, us, i + 1, outs + [s.out], v[j]);
    }
  }

  // ---- growing all groups -----------------------------------------------------------

  lemma AllocLength(p: Pool, t: Tm, slot: Slot, tokens: nat, main: nat)
    requires TmInv(p, t) && main > 0 && Alloc(p, t, slot, tokens, main).ok
    ensures var u := Alloc(p, t, slot, tokens, main).tm;
      && u.numCached == t.numCached && u.group == t.group
      && |Blocks(u, slot)| == Max(|Blocks(t, slot)|, if t.group.kind.Mamba? then CDiv(main, Bs(t)) + t.group.numSpec
                                                     else CDiv(tokens, Bs(t)))
  {
    hide GetNew, CDiv, Recycle;
    if t.group.kind.Mamba? && CDiv(main, Bs(t)) + t.group.numSpec > |Blocks(t, slot)| {
      MambaWanted(p, t, slot, tokens, main);
    }
  }

  /** New full-attention blocks are noted for the log of new block ids. */
  lemma AllocLogs(p: Pool, t: Tm, slot: Slot, tokens: nat)
    ensures var u := AllocFull(p, t, slot, tokens); u.ok ==> u.tm.newIds == t.newIds + u.out
  {}

  lemma {:induction false} GrowLengths(slot: Slot, tokens: nat, main: nat, p: Pool, ts: seq<Tm>, i: nat,
                                       outs: seq<seq<nat>>)
    requires GInv(p, ts) && i <= |ts| && main > 0 && WantedFrom(ts, slot, tokens, main, i) <= |p.free|
    ensures var us := FanOut(Grow(slot, tokens, main), p, ts, i, outs).tms;
      |us| == |ts| && forall j :: 0 <= j < |ts| ==>
        && us[j].numCached == ts[j].numCached && us[j].group == ts[j].group
        && |Blocks(us[j], slot)| == if j < i then |Blocks(ts[j], slot)|
             else Max(|Blocks(ts[j], slot)|, if ts[j].group.kind.Mamba? then CDiv(main, Bs(ts[j])) + ts[j].group.numSpec
                                             else CDiv(tokens, Bs(ts[j])))
    decreases |ts| - i
  {
    hide Inv, Counted, TmInv, Wanted, Alloc, Keeps, CDiv;
    if i < |ts| {
      GroupTables(p, ts, i);
      AllocOk(p, ts[i], slot, tokens, main);
      AllocLength(p, ts[i], slot, tokens, main);
      var s := Do(Grow(slot, tokens, main), p, ts[i]);
      var us := ts[i := s.tm];
      GroupStep(p, ts, i, s.pool, s.tm, slot);
      WantedFromSame(ts, us, slot, tokens, main, i + 1);
      GrowLengths(slot, tokens, main, s.pool, us, i + 1, outs + [s.out]);
      forall j | 0 <= j < |ts| && j != i ensures us[j] == ts[j] {}
    }
  }

  // ---- the granted call -------------------------------------------------------------

  lemma GrownThenFiled(s: State, c: Call)
    requires StateInv(s) && CallOk(s, c) && AllocateSlots(s, c).1.Granted?
    ensures var f := Grown(s, c);
      && AllocateSlots(s, c).0 == CacheAll(s.(pool := f.pool, tms := f.tms), c.slot, Min(MainTokens(s, c), c.reqTokens))
      && c.newTokens > 0 && Admits(s, c, All(Skip(c.slot, Total(s, c)), s.pool, s.tms))
  {
    hide FanOut, Admits, AddAll, CacheAll, GInv, ConfigOk, Blank, HitsExist;
  }

  lemma GrownOk(s: State, c: Call)
    requires StateInv(s) && CallOk(s, c) && AllocateSlots(s, c).1.Granted?
    ensures var f := Grown(s, c);
      && GInv(f.pool, f.tms) && |f.tms| == |s.tms|
      && forall g :: 0 <= g < |s.tms| ==> f.tms[g].group == s.tms[g].group
  {
    hide FanOut, Admits, AddAll, AllocateSlots, GInv, ConfigOk, Blank, HitsExist, NoneGained, CallOk;
    GrownThenFiled(s, c);
    SkipAllOk(s, c);
    GrantedOk(s, c);
    var f1 := All(Skip(c.slot, Total(s, c)), s.pool, s.tms);
    var f2 := AddAll(f1.pool, f1.tms, c, CallHits(s, c));
    var f := Grown(s, c);
    forall g | 0 <= g < |s.tms| ensures f.tms[g].group == s.tms[g].group {
      assert OnlySlot(s.tms[g], f1.tms[g], c.slot) && OnlySlot(f1.tms[g], f2.tms[g], c.slot);
      assert OnlySlot(f2.tms[g], f.tms[g], c.slot);
    }
  }

  /** The hit in place, given the tables it goes into. */
  lemma HitPlaced(s: State, c: Call, f1: Fan, g: nat)
    requires GInv(f1.pool, f1.tms) && g < |f1.tms| == |s.tms| && SameShape(s.tms[g], f1.tms[g], c.slot)
    requires CallHits(s, c) != [] && Blank(f1.tms, c.slot) && HitsExist(f1.pool, CallHits(s, c)) && f1.pool.caching
    ensures var f2 := All(Add(c.slot, CallHits(s, c), c.computed + c.newComputed), f1.pool, f1.tms);
      && |f2.tms| == |s.tms| && |Blocks(f2.tms[g], c.slot)| == |WithHit(s, c, g)|
      && NumCached(f2.tms[g], c.slot) == CachedWithHit(s, c, g) && f2.tms[g].group == s.tms[g].group
  {
    hide FanOut, Inv, TmInv, Counted, HitsExist, Kept, SkippedBlocks;
    var hits, computed := CallHits(s, c), c.computed + c.newComputed;
    GroupTables(f1.pool, f1.tms, g);
    AddTables(c.slot, hits, computed, f1.pool, f1.tms, 0, []);
    SameSkip(s.tms[g], f1.tms[g], HitOf(hits, g), computed);
    AddTmShape(f1.tms[g], c.slot, HitOf(hits, g), computed);
  }

  lemma HitIn(s: State, c: Call, g: nat)
    requires StateInv(s) && CallOk(s, c) && g < |s.tms|
    ensures var f1 := All(Skip(c.slot, Total(s, c)), s.pool, s.tms);
      var f2 := AddAll(f1.pool, f1.tms, c, CallHits(s, c));
      && |f2.tms| == |s.tms| && |Blocks(f2.tms[g], c.slot)| == |WithHit(s, c, g)|
      && NumCached(f2.tms[g], c.slot) == CachedWithHit(s, c, g) && f2.tms[g].group == s.tms[g].group
  {
    hide FanOut, GInv, ConfigOk, HitsExist, NoneGained, SameHashes, OnlySlots, Padded, CallHits, Total;
    SkipAllOk(s, c);
    SkipShapes(c.slot, Total(s, c), s.pool, s.tms, 0, []);
    var f1 := All(Skip(c.slot, Total(s, c)), s.pool, s.tms);
    assert SameShape(s.tms[g], f1.tms[g], c.slot);
    if CallHits(s, c) != [] { HitPlaced(s, c, f1, g); }
  }

  lemma SameSkip(t: Tm, u: Tm, hit: seq<Id>, computed: nat)
    requires u.group == t.group
    ensures SkippedBlocks(u, computed) == SkippedBlocks(t, computed) && Kept(u, hit, computed) == Kept(t, hit, computed)
  {}

  lemma GrownLengths(s: State, c: Call, g: nat)
    requires StateInv(s) && CallOk(s, c) && AllocateSlots(s, c).1.Granted? && g < |s.tms|
    ensures var f := Grown(s, c);
      && |f.tms| == |s.tms| && |Blocks(f.tms[g], c.slot)| == Max(|WithHit(s, c, g)|, Length(s, c, s.tms[g]))
      && NumCached(f.tms[g], c.slot) == CachedWithHit(s, c, g)
  {
    hide FanOut, Admits, AddAll, AllocateSlots, GInv, ConfigOk, Blank, HitsExist, NoneGained, CallOk, CDiv, WithHit,
         CachedWithHit, WantedFrom, OnlySlots;
    GrownThenFiled(s, c);
    GrownOk(s, c);
    SkipAllOk(s, c);
    var f1 := All(Skip(c.slot, Total(s, c)), s.pool, s.tms);
    AdmittedFits(s, c, f1);
    HitIn(s, c, g);
    var f2 := AddAll(f1.pool, f1.tms, c, CallHits(s, c));
    GrowLengths(c.slot, NeedTokens(s, c), MainTokens(s, c), f2.pool, f2.tms, 0, []);
  }

  /** What is filed, in the numbers of the call. */
  lemma FullIs(s: State, c: Call, bs: Pos)
    ensures Cacheable(s.cfg, Min(MainTokens(s, c), c.reqTokens)) / bs == FullBlocks(s, c, bs)
  {
    WholeIs(Min(MainTokens(s, c), c.reqTokens), s.cfg.schedBlock);
  }

  lemma WholeIs(x: nat, b: Pos)
    ensures WholeOf(x, b) == x / b * b
  {
    assert x == x / b * b + x % b;
  }

  lemma FiledTables(s: State, c: Call, g: nat)
    requires StateInv(s) && CallOk(s, c) && AllocateSlots(s, c).1.Granted? && g < |s.tms|
    ensures var r, f := AllocateSlots(s, c).0, Grown(s, c);
      && |r.tms| == |f.tms| == |s.tms| && Blocks(r.tms[g], c.slot) == Blocks(f.tms[g], c.slot)
      && NumCached(r.tms[g], c.slot)
         == if s.cfg.caching then Max(NumCached(f.tms[g], c.slot), FullBlocks(s, c, Bs(s.tms[g])))
            else NumCached(f.tms[g], c.slot)
  {
    hide FanOut, Admits, AllocateSlots, GInv, ConfigOk, CallOk, Grown, Cacheable, FullBlocks;
    GrownThenFiled(s, c);
    GrownOk(s, c);
    FullIs(s, c, Bs(s.tms[g]));
    var f := Grown(s, c);
    if s.cfg.caching {
      FileCounts(c.slot, Hashes(s, c.slot), s.cfg.hashBlock, Cacheable(s.cfg, Min(MainTokens(s, c), c.reqTokens)),
                 f.pool, f.tms, 0, []);
      assert f.tms[g].group == s.tms[g].group;
    }
  }

  /**
   * After a grant every group's table is as long as the tokens of the call need, and no longer unless
   * it was; and the full blocks of the request's own tokens count as cached.
   */
  lemma TablesAfter(s: State, c: Call, g: nat)
    requires StateInv(s) && CallOk(s, c) && AllocateSlots(s, c).1.Granted? && g < |s.tms|
    ensures var r := AllocateSlots(s, c).0;
      && |r.tms| == |s.tms| && |Blocks(r.tms[g], c.slot)| == Max(|WithHit(s, c, g)|, Length(s, c, s.tms[g]))
      && NumCached(r.tms[g], c.slot)
         == Max(CachedWithHit(s, c, g), if s.cfg.caching then FullBlocks(s, c, Bs(s.tms[g])) else 0)
  {
    hide AllocateSlots, GInv, ConfigOk, CallOk, Grown, FullBlocks, WithHit, CachedWithHit, Length;
    FiledTables(s, c, g);
    GrownLengths(s, c, g);
  }

  /** The block has a place in the table and a key. */
  lemma HasKey(t: Tm, slot: Slot, hashes: seq<Digest>, hb: Pos, tokens: nat, g: nat, j: nat)
    requires Fileable(t, slot, hashes, t.group.blockSize / hb, tokens) && NumCached(t, slot) <= j < tokens / Bs(t)
    ensures j < |Blocks(t, slot)| && KeyAt(hashes, t.group.blockSize / hb, g, j).Some?
  {
    var stride := t.group.blockSize / hb;
    MulOrder(0, j + 1, stride);
    MulOrder(tokens / Bs(t), j + 1, stride);
    MulOrder(j + 1, tokens / Bs(t), stride);
  }

  /** The request's block `j` in group `g` has a key, and is under it unless null or listed again later. */
  predicate Findable(s: State, r: State, c: Call, g: nat, j: nat)
    requires g < |s.tms|
  {
    && |r.tms| == |s.tms|
    && var v, k := Blocks(r.tms[g], c.slot), KeyAt(Hashes(s, c.slot), Bs(s.tms[g]) / s.cfg.hashBlock, g, j);
    && j < |v| && k.Some?
    && (LastListed(v, j, FullBlocks(s, c, Bs(s.tms[g]))) && NotLater(r.tms, c.slot, g, v[j])
        ==> Contain(r.pool.cached, k.value, v[j]))
  }

  /**
   * And each of these blocks that was not counted before is in the index under the key of its own
   * boundary, unless it is null or listed again later, further on or in a later group's table.
   */
  lemma GrantFiled(s: State, c: Call, g: nat, j: nat)
    requires StateInv(s) && CallOk(s, c) && AllocateSlots(s, c).1.Granted? && g < |s.tms|
    requires s.cfg.caching && Hashed(s, c.slot, c.reqTokens)
    requires CachedWithHit(s, c, g) <= j < FullBlocks(s, c, Bs(s.tms[g]))
    ensures Findable(s, AllocateSlots(s, c).0, c, g, j)
  {
    hide AllocateSlots, FanOut, GInv, CallOk, Grown, Cacheable, FullBlocks, WithHit, CachedWithHit, Length, KeyAt,
         Admits, Hashed, Fileable, Contain, ConfigOk;
    GrownThenFiled(s, c);
    GrownOk(s, c);
    GrownLengths(s, c, g);
    FiledTables(s, c, g);
    FullIs(s, c, Bs(s.tms[g]));
    var f := Grown(s, c);
    var upTo := Cacheable(s.cfg, Min(MainTokens(s, c), c.reqTokens));
    GrantedFileable(s, c);
    assert Fileable(f.tms[g], c.slot, Hashes(s, c.slot), f.tms[g].group.blockSize / s.cfg.hashBlock, upTo);
    HasKey(f.tms[g], c.slot, Hashes(s, c.slot), s.cfg.hashBlock, upTo, g, j);
    var v := Blocks(f.tms[g], c.slot);
    var r := AllocateSlots(s, c).0;
    if LastListed(v, j, upTo / Bs(s.tms[g])) && NotLater(r.tms, c.slot, g, v[j]) {
      forall h | g < h < |f.tms| ensures Past(f.tms[h], c.slot, v[j]) { FiledTables(s, c, h); }
      FileFiles(c.slot, Hashes(s, c.slot), s.cfg.hashBlock, upTo, f.pool, f.tms, 0, [], g, j);
    }
  }
}
