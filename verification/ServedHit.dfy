/**
 * A prefix hit from lookup to table: what `get_computed_blocks` finds for a request that holds
 * nothing is, once `allocate_slots` has granted the call, how the request's tables begin. Every block
 * of it is still filed under the key of its own boundary, and that key names the request's own prefix.
 */
module ServedHit {
  import opened Basics
  import opened PoolSpec
  import opened PoolInv
  import opened TypeSpec
  import opened TypeInv
  import opened HitSpec
  import opened ManagerSpec
  import opened ManagerInv
  import opened Admission
  import opened SchedSpec
  import opened RunInv
  import opened MambaState
  import opened Mutations
  import opened Pinned
  import opened Refusals
  import opened PrefixSound
  import H = HitLookup
  import P = Pickle
  import C = HashChain

  /** A call with the hit just looked up, as `WaitingCall` is for a request with nothing computed. */
  predicate TakesHit(s: State, y: Slot, tokens: nat, skip: bool, c: Call) {
    && c.slot == y && c.usePending && c.computed == 0 && c.newTokens > 0
    && c.newComputed == GetComputed(s, y, tokens, skip).1
  }

  /** What the lookup leaves pending for group `g`. */
  function HitFor(s: State, y: Slot, tokens: nat, skip: bool, g: nat): seq<Id> {
    HitOf(GetComputed(s, y, tokens, skip).0.pending, g)
  }

  /** The state and blocks once the hit has been looked up and the call granted. */
  function Taken(s: State, y: Slot, tokens: nat, skip: bool, c: Call): (State, Outcome) {
    AllocateSlots(GetComputed(s, y, tokens, skip).0, c)
  }

  // ---- what the lookup found --------------------------------------------------------

  /** The hit is a whole number of the group's blocks, and the group can resume there. */
  lemma HitResumes(s: State, y: Slot, cap: nat, g: nat) returns (sg: SpecGroup)
    requires ConfigOk(s.cfg) && s.cfg.caching && g < |s.cfg.groups|
    ensures g in sg.gids && sg.kind == s.cfg.groups[g].kind && sg.blockSize == s.cfg.groups[g].blockSize
    ensures Resumable(LookupOf(s, y), sg, HitLength(s, y, cap))
  {
    hide Longest, Resumable;
    assert Good(LookupOf(s, y), s.cfg.specs, ManagerSpec.Align(s.cfg), HitLength(s, y, cap));
    assert Grouped(s.cfg, g);
    var j :| 0 <= j < |s.cfg.specs| && g in s.cfg.specs[j].gids;
    sg := s.cfg.specs[j];
  }

  /** A block cached for every group of a spec is a real one. */
  lemma CachedLive(s: State, y: Slot, sg: SpecGroup, g: nat, i: nat)
    requires IndexOk(s.pool) && g in sg.gids && Cached(LookupOf(s, y), sg, i)
    ensures CachedBlock(LookupOf(s, y), sg.blockSize, g, i).Some?
    ensures CachedBlock(LookupOf(s, y), sg.blockSize, g, i).value != NULL
  {
    hide IndexOk;
    var l := LookupOf(s, y);
    IndexedExists(s.pool, KeyAt(l.hashes, Stride(l, sg.blockSize), g, i).value);
  }

  /** Full attention resumes over live blocks only, mamba over one, the last; each is what is cached
      for its own boundary. */
  lemma HitEntries(s: State, y: Slot, sg: SpecGroup, g: nat, len: nat, i: nat)
    requires IndexOk(s.pool) && g in sg.gids && Resumable(LookupOf(s, y), sg, len)
    requires i < |HitBlocks(LookupOf(s, y), sg.kind, sg.blockSize, g, len)|
    ensures var v := HitBlocks(LookupOf(s, y), sg.kind, sg.blockSize, g, len);
      && (v[i] != NULL <==> sg.kind.FullAttention? || i == |v| - 1)
      && (v[i] != NULL ==> CachedBlock(LookupOf(s, y), sg.blockSize, g, i) == Some(v[i]))
  {
    hide IndexOk, CachedBlock, Cached;
    var v := HitBlocks(LookupOf(s, y), sg.kind, sg.blockSize, g, len);
    if sg.kind.FullAttention? || i == |v| - 1 {
      assert Cached(LookupOf(s, y), sg, i);
      CachedLive(s, y, sg, g, i);
    }
  }

  /** Padding what is kept of such a hit gives the hit back. */
  lemma PaddedHit(l: Lookup, t: Tm, g: nat, len: nat)
    requires len % Bs(t) == 0
    ensures var v := HitBlocks(l, t.group.kind, Bs(t), g, len); Padded(t, v, len) == v
  {
    hide CachedBlock;
    H.Exact(len, Bs(t));
    var n := len / Bs(t);
    var v := HitBlocks(l, t.group.kind, Bs(t), g, len);
    if n > 0 { HitSkips(n, Bs(t)); }
    if t.group.kind.Mamba? && n > 0 {
      assert SkippedBlocks(t, len) == n - 1 && |v| == n;
      assert v[n - 1..] == [v[n - 1]] && v[..n - 1] == Repeat<Id>(NULL, n - 1);
    } else {
      assert SkippedBlocks(t, len) == 0 && Repeat<Id>(NULL, 0) == [];
    }
  }

  /** Where a hit may end: whole scheduler blocks if several groups must agree, else the group's own. */
  function Steps(c: Config): Pos { if |c.groups| > 1 || c.specs == [] then c.schedBlock else c.specs[0].blockSize }

  /** The longest length every one of these specs can resume from, at most `cap`. */
  ghost predicate LongestOf(l: Lookup, specs: seq<SpecGroup>, step: Pos, cap: nat, len: nat) {
    len <= cap && Good(l, specs, step, len) && forall x: nat :: len < x <= cap ==> !Good(l, specs, step, x)
  }

  /** What `get_computed_blocks` answers and leaves behind: the longest hit short of the last token,
      its blocks pending for each group, and, with several groups, how much further the first spec
      alone could have resumed. Switched off or skipped it answers nothing. */
  lemma LookupFinds(s: State, y: Slot, tokens: nat, skip: bool)
    requires ConfigOk(s.cfg)
    ensures var (q, hit) := GetComputed(s, y, tokens, skip);
      && LookedUp(s, q) && q.hitLen == s.hitLen[y := hit]
      && (if !s.cfg.caching || skip then
            hit == 0 && q.uncached == s.uncached && forall g :: 0 <= g < |q.pending| ==> q.pending[g] == []
          else
            && LongestOf(LookupOf(s, y), s.cfg.specs, Steps(s.cfg), Monus(tokens, 1), hit)
            && |q.pending| == |s.cfg.groups|
            && (forall g :: 0 <= g < |q.pending| ==>
                  q.pending[g] == HitBlocks(LookupOf(s, y), s.cfg.groups[g].kind, s.cfg.groups[g].blockSize, g, hit))
            && (if |s.cfg.groups| > 1 then
                  LongestOf(LookupOf(s, y), [s.cfg.specs[0]], Steps(s.cfg), Monus(tokens, 1), hit + q.uncached)
                else q.uncached == s.uncached))
  {
    hide Longest, Resumable, HitBlocks;
    var l, a, cap := LookupOf(s, y), Steps(s.cfg), Monus(tokens, 1);
    if s.cfg.caching && !skip {
      assert a == ManagerSpec.Align(s.cfg);
      var hit, alone := Longest(l, s.cfg.specs, a, cap), Longest(l, [s.cfg.specs[0]], a, cap);
      assert Good(l, [s.cfg.specs[0]], a, hit) by { assert Good(l, s.cfg.specs, a, hit); }
      assert alone >= hit;
    }
  }

  // ---- the granted call -------------------------------------------------------------

  lemma LookupKeeps(s: State, y: Slot, tokens: nat, skip: bool)
    requires StateInv(s)
    ensures var q := GetComputed(s, y, tokens, skip).0;
      && StateInv(q) && LookedUp(s, q) && HitsExist(q.pool, q.pending)
      && (HasHit(q.pending) ==> s.cfg.caching && !skip && |q.pending| == |s.cfg.groups|)
  {
    hide GInv, ConfigOk, HitTable, HitLength, Uncached;
    if s.cfg.caching && !skip { HitTableExists(s, y, HitLength(s, y, Monus(tokens, 1))); }
  }

  /** The lookup ran, and found the group something. */
  lemma HitFound(s: State, y: Slot, tokens: nat, skip: bool, c: Call, g: nat)
    requires StateInv(s) && TakesHit(s, y, tokens, skip, c) && HitFor(s, y, tokens, skip, g) != []
    ensures s.cfg.caching && !skip && g < |s.cfg.groups|
    ensures CallHits(GetComputed(s, y, tokens, skip).0, c) == GetComputed(s, y, tokens, skip).0.pending
    ensures c.newComputed == HitLength(s, y, Monus(tokens, 1))
    ensures HitFor(s, y, tokens, skip, g)
         == HitBlocks(LookupOf(s, y), s.cfg.groups[g].kind, s.cfg.groups[g].blockSize, g, c.newComputed)
  {
    hide GInv, ConfigOk, HitBlocks, HitLength, Uncached;
    var q := GetComputed(s, y, tokens, skip).0;
    LookupKeeps(s, y, tokens, skip);
    assert q.pending[g] != [];
  }

  /** The key of the end of the request's `i`-th block. */
  function BoundaryKey(s: State, y: Slot, g: nat, i: nat): Option<HashKey> {
    KeyAt(Hashes(s, y), StrideOf(s.cfg, g), g, i)
  }

  /** The block was what the index held for the boundary, and is still filed there. */
  ghost predicate Served(s: State, r: State, y: Slot, g: nat, i: nat, b: Id) {
    var k := BoundaryKey(s, y, g, i);
    k.Some? && GetOne(s.pool.cached, k.value) == Some(b) && Contain(r.pool.cached, k.value, b)
  }

  /** Entry `i` of the hit: null only where mamba keeps no state, else the index's answer. */
  lemma HitEntry(s: State, y: Slot, tokens: nat, skip: bool, c: Call, g: nat, i: nat)
    requires StateInv(s) && TakesHit(s, y, tokens, skip, c) && i < |HitFor(s, y, tokens, skip, g)|
    ensures var v := HitFor(s, y, tokens, skip, g);
      && g < |s.cfg.groups| && c.newComputed % s.cfg.groups[g].blockSize == 0
      && (v[i] != NULL <==> s.cfg.groups[g].kind.FullAttention? || i == |v| - 1)
      && (v[i] != NULL ==> CachedBlock(LookupOf(s, y), s.cfg.groups[g].blockSize, g, i) == Some(v[i]))
  {
    hide GInv, Inv, ConfigOk, HitBlocks, HitLength, CachedBlock, Cached, HitFor, KeyAt, TakesHit;
    HitFound(s, y, tokens, skip, c, g);
    var sg := HitResumes(s, y, Monus(tokens, 1), g);
    GroupIndexed(s);
    HitEntries(s, y, sg, g, c.newComputed, i);
  }

  lemma GroupIndexed(s: State)
    requires StateInv(s)
    ensures IndexOk(s.pool) && ConfigOk(s.cfg)
  {}

  /** Every group's part of a hit that was looked up is as long as the tokens it stands for. */
  lemma LookupFits(s: State, y: Slot, tokens: nat, skip: bool, c: Call)
    requires StateInv(s) && TakesHit(s, y, tokens, skip, c)
    ensures HitFits(GetComputed(s, y, tokens, skip).0, c)
  {
    hide GInv, ConfigOk, HitBlocks, HitLength, Uncached, SkippedBlocks;
    var q := GetComputed(s, y, tokens, skip).0;
    LookupKeeps(s, y, tokens, skip);
    if CallHits(q, c) != [] {
      forall g | 0 <= g < |s.tms| ensures SkippedBlocks(s.tms[g], c.computed + c.newComputed) <= |HitOf(q.pending, g)| {
        GroupHitFits(s, y, tokens, g);
      }
    }
  }

  lemma GroupHitFits(s: State, y: Slot, tokens: nat, g: nat)
    requires StateInv(s) && s.cfg.caching && g < |s.tms|
    ensures var len := HitLength(s, y, Monus(tokens, 1));
      SkippedBlocks(s.tms[g], len) <= |HitOf(HitTable(s, y, len), g)|
  {
    hide GInv, ConfigOk, CachedBlock, HitLength, Cached;
    GroupIndexed(s);
    var sg := HitResumes(s, y, Monus(tokens, 1), g);
    var len, bs := HitLength(s, y, Monus(tokens, 1)), sg.blockSize;
    H.Exact(len, bs);
    if len > 0 {
      MulOrder(0, len / bs, bs);
      HitSkips(len / bs, bs);
    }
  }

  /** A live entry of the hit is among what the call keeps. */
  lemma EntryKept(t: Tm, v: seq<Id>, computed: nat, i: nat)
    requires Padded(t, v, computed) == v && i < |v| && v[i] != NULL
    ensures v[i] in Kept(t, v, computed)
  {
    hide SkippedBlocks, Kept;
    var n := SkippedBlocks(t, computed);
    assert i >= n;
    assert Kept(t, v, computed)[i - n] == v[i];
  }

  /** What pinning says of a live entry of the hit. */
  lemma EntryPinned(s: State, y: Slot, tokens: nat, skip: bool, c: Call, g: nat, i: nat)
    requires StateInv(s) && Blank(s.tms, y) && TakesHit(s, y, tokens, skip, c)
    requires Taken(s, y, tokens, skip, c).1.Granted?
    requires i < |HitFor(s, y, tokens, skip, g)| && HitFor(s, y, tokens, skip, g)[i] != NULL
    ensures var (r, out) := Taken(s, y, tokens, skip, c);
      var v := HitFor(s, y, tokens, skip, g);
      && g < |r.tms| == |s.tms| && v <= Blocks(r.tms[g], y) && Unevicted(s.pool, r.pool, v[i])
      && forall j :: 0 <= j < |out.blocks| ==> v[i] !in out.blocks[j]
  {
    hide GInv, ConfigOk, AllocateSlots, HitBlocks, HitLength, Padded, HitsExist, Unevicted, Uncached, HitTable, Kept;
    var q := GetComputed(s, y, tokens, skip).0;
    var v := HitFor(s, y, tokens, skip, g);
    LookupKeeps(s, y, tokens, skip);
    HitFound(s, y, tokens, skip, c, g);
    HitEntry(s, y, tokens, skip, c, g, i);
    PaddedHit(LookupOf(s, y), s.tms[g], g, c.newComputed);
    EntryKept(s.tms[g], v, c.newComputed, i);
    HitIsPinned(q, c, g, v[i]);
  }

  /**
   * After lookup and grant the group's table begins with the whole hit. A block of it is missing
   * only where mamba keeps no state; each of the others was what the index held for its boundary,
   * is still filed under that boundary's key, and is none of the blocks newly taken.
   */
  lemma HitIsServed(s: State, y: Slot, tokens: nat, skip: bool, c: Call, g: nat, i: nat)
    requires StateInv(s) && Blank(s.tms, y) && TakesHit(s, y, tokens, skip, c)
    requires Taken(s, y, tokens, skip, c).1.Granted?
    requires i < |HitFor(s, y, tokens, skip, g)|
    ensures var (r, out) := Taken(s, y, tokens, skip, c);
      var v := HitFor(s, y, tokens, skip, g);
      && g < |r.tms| == |s.cfg.groups| && v <= Blocks(r.tms[g], y)
      && (v[i] != NULL <==> s.cfg.groups[g].kind.FullAttention? || i == |v| - 1)
      && (v[i] != NULL ==> Served(s, r, y, g, i, v[i]) && forall j :: 0 <= j < |out.blocks| ==> v[i] !in out.blocks[j])
  {
    hide GInv, ConfigOk, Taken, HitFor, HitLength, Blank, TakesHit, KeyAt;
    var v := HitFor(s, y, tokens, skip, g);
    HitEntry(s, y, tokens, skip, c, g, |v| - 1);
    EntryPinned(s, y, tokens, skip, c, g, |v| - 1);
    HitEntry(s, y, tokens, skip, c, g, i);
    if v[i] != NULL { EntryPinned(s, y, tokens, skip, c, g, i); }
  }

  // ---- after a run ------------------------------------------------------------------

  /**
   * The same in a state that a run has reached, for a block of the hit and the key of its
   * boundary. The key is the hash of the request's own tokens up to the block's end and of no other
   * tokens or extra keys ever seen, if nothing that was hashed collides; and the block was filed under it
   * by an event of the run for a request with the same tokens and extra keys that far, or has been
   * there for such a prompt from the start.
   */
  lemma ServedForPrefix(ms: seq<Mutation>, s0: State, sha: C.Sha, seed: Digest, ps: seq<map<Slot, Prompt>>,
                        seen: set<Prompt>, inputs: set<P.Bytes>, y: Slot, tokens: nat, skip: bool, c: Call,
                        g: nat, i: nat)
    requires StateInv(s0) && AllAllowed(ms, s0) && AllChained(sha, seed, ms, s0, ps) && Traced(sha, seed, s0, seen)
    requires HashedWithin(sha, seed, s0.cfg.hashBlock, seen + Seen(ps), inputs) && C.CollisionFree(sha, seed, inputs)
    requires var s := ApplyAll(ms, s0);
      Blank(s.tms, y) && TakesHit(s, y, tokens, skip, c) && Taken(s, y, tokens, skip, c).1.Granted?
    requires var s := ApplyAll(ms, s0);
      i < |HitFor(s, y, tokens, skip, g)| && HitFor(s, y, tokens, skip, g)[i] != NULL
    ensures var s := ApplyAll(ms, s0);
      var v, r := HitFor(s, y, tokens, skip, g), Taken(s, y, tokens, skip, c).0;
      && g < |r.tms| && v <= Blocks(r.tms[g], y)
      && BoundaryKey(s, y, g, i).Some? && Contain(r.pool.cached, BoundaryKey(s, y, g, i).value, v[i])
    ensures ps != [] && y in ps[|ps| - 1]
    ensures var k, b := BoundaryKey(ApplyAll(ms, s0), y, g, i).value, HitFor(ApplyAll(ms, s0), y, tokens, skip, g)[i];
      var p, n := ps[|ps| - 1][y], BlockEnd(s0.cfg, g, i);
      && NamesOnly(sha, seed, s0.cfg, seen + Seen(ps), k, p, n)
      && (FiledFor(ms, s0, ps, k, b, p, n) || KeptFor(ms, s0, sha, seed, seen, k, b, p, n))
  {
    hide StateInv, AllAllowed, AllChained, ApplyAll, Traced, Chained, HashedWithin, C.CollisionFree, NamesOnly, Seen,
         FiledFor, KeptFor, Taken, HitFor, TakesHit, Blank, KeyAt, StrideOf;
    var s := ApplyAll(ms, s0);
    RunTraced(ms, s0, sha, seed, ps, seen);
    EveryRunKeeps(ms, s0);
    HitIsServed(s, y, tokens, skip, c, g, i);
    var k := BoundaryKey(s, y, g, i).value;
    HitIsSound(ms, s0, sha, seed, ps, seen, inputs, y, g, i, k, HitFor(s, y, tokens, skip, g)[i]);
  }
}
