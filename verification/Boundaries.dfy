/**
 * Over whole runs, a mamba state enters the prefix-cache index only under the hash of a token
 * boundary where a scheduled chunk actually stopped.
 *
 * The aligned split keeps a prefill chunk from straddling the last cacheable position and ends
 * every earlier chunk on a block boundary; a decode chunk is a single token. So a chunk that
 * starts inside a block stops inside it, and the allocator only files states whose block a chunk
 * completed. Scope: one sampled token per step, no bursts, no speculative blocks, nothing
 * outstanding at admission, and a split block size equal to the mamba block size.
 */
module Boundaries {
  import opened Basics
  import opened PoolSpec
  import opened PoolInv
  import opened PoolCounts
  import opened TypeSpec
  import opened TypeInv
  import opened TypeAlloc
  import opened HitSpec
  import opened HitLookup
  import opened ManagerSpec
  import opened ManagerInv
  import opened Admission
  import opened SchedSpec
  import opened StepProps
  import opened RunInv
  import opened Served
  import opened TableSpec
  import opened MambaState
  import opened TokenCounts
  import opened Mutations

  // ---- where chunks stop ------------------------------------------------------------

  /** On a block boundary, or at or past the last one the request can cache. */
  predicate Resting(c: nat, tokens: nat, bs: Pos) {
    c % bs == 0 || c >= tokens - tokens % bs
  }

  /** A chunk of `n` from `c`: begun before the last position the request can cache, it ends at or
      before it, and on a block boundary. */
  predicate StopsWell(c: nat, n: nat, tokens: nat, bs: Pos) {
    var last := tokens - tokens % bs;
    c < last ==> c + n <= last && (c + n) % bs == 0
  }

  /** At most one token ahead of what is computed. */
  predicate Decoding(e: Entry) { e.computed <= e.tokens + e.placeholders <= e.computed + 1 }

  predicate Prefilling(e: Entry, bs: Pos) {
    e.placeholders == 0 && e.computed < e.tokens && Resting(e.computed, e.tokens, bs)
  }

  predicate Phase(e: Entry, bs: Pos) {
    e.tokensWithSpec == e.tokens && e.tokens + e.placeholders < WORD && (Decoding(e) || Prefilling(e, bs))
  }

  /** Adding whole blocks to whole blocks. */
  lemma WholeSum(c: nat, n: nat, bs: Pos)
    requires c % bs == 0
    ensures (c + n / bs * bs) % bs == 0 && n / bs * bs <= n
  {
    Exact(c, bs);
    FloorBounds(n, bs);
    Whole(c / bs + n / bs, bs);
    assert c + n / bs * bs == (c / bs + n / bs) * bs;
  }

  lemma LastWhole(t: nat, bs: Pos)
    ensures t - t % bs == t / bs * bs && t / bs * bs <= t < t / bs * bs + bs
    ensures (t - t % bs) % bs == 0
  {
    FloorBounds(t, bs);
    Whole(t / bs, bs);
    assert t - t % bs == t / bs * bs;
  }

  /** Between the `k`-th boundary and the next there is no other. */
  lemma NextBoundary(c: nat, m: nat, k: nat, q: nat, bs: Pos)
    requires k * bs < c <= q * bs && m < k * bs + bs
    ensures m <= q * bs
  {
    MulOrder(k, q, bs);
    MulOrder(k + 1, q, bs);
    assert (k + 1) * bs == k * bs + bs;
  }

  /** Past the last cacheable position a chunk stays inside the last, partial block. */
  lemma PastLast(c: nat, m: nat, t: nat, bs: Pos)
    requires t / bs * bs <= c < m <= t
    ensures NoStraddle(c, m, bs)
  {
    hide CDiv;
    if c % bs != 0 {
      LastWhole(t, bs);
      Whole(t / bs, bs);
      CDivBounds(c, bs);
      NextBoundary(c, m, t / bs, CDiv(c, bs), bs);
    }
  }

  /** What the aligned split makes of a prefill chunk that starts at rest. */
  lemma SplitRests(e: Entry, n: nat, local: nat, uncached: nat, bs: Pos)
    requires var c := e.computed + local; c < e.tokens && n <= e.tokens - c && Resting(c, e.tokens, bs)
    requires uncached > 0 ==> (e.computed + local) % bs == 0
    ensures var c := e.computed + local; var m := Split(e, n, local, uncached, bs);
      && m <= n && (m > 0 ==> NoStraddle(c, c + m, bs)) && (c + m < e.tokens ==> Resting(c + m, e.tokens, bs))
      && (m > 0 ==> StopsWell(c, m, e.tokens, bs))
  {
    hide NoStraddle;
    var c, t := e.computed + local, e.tokens;
    var last := t - t % bs;
    LastWhole(t, bs);
    SplitShortens(e, n, local, uncached, bs);
    if c >= Max(e.prompt, Monus(t, 1)) {
      if n > 0 { OneToken(c, bs); }
    } else {
      var m := if c + n < last then n / bs * bs else if c < last && last < c + n then last - c else n;
      FloorBounds(n, bs);
      if c % bs == 0 {
        WholeSum(c, n, bs);
        WholeSum(c, uncached, bs);
        Starts(c, c + m, bs);
        Starts(c, c + Split(e, n, local, uncached, bs), bs);
      } else if n > 0 {
        PastLast(c, c + n, t, bs);
      }
    }
  }

  lemma OneToken(c: nat, bs: Pos)
    ensures NoStraddle(c, c + 1, bs)
  {
    CDivBounds(c, bs);
    if c % bs != 0 { assert c != CDiv(c, bs) * bs by { Whole(CDiv(c, bs), bs); } }
  }

  lemma Starts(c: nat, m: nat, bs: Pos)
    requires c % bs == 0
    ensures NoStraddle(c, m, bs)
  {}

  /** What is left of a request in phase, cut down by thresholds, budget and model length. */
  function ChunkCap(e: Entry, budget: nat, prm: Params): int {
    Min(Min(LongCap(Monus(e.tokens + e.placeholders, e.computed), prm), budget),
        Monus(prm.maxModelLen, e.computed + prm.sampled))
  }

  lemma ChunkIsSplit(e: Entry, budget: nat, prm: Params, bs: Pos)
    requires Phase(e, bs) && prm.aligned && prm.cacheBlock == bs && RunningTokens(e, budget, prm) > 0
    ensures e.computed <= e.tokens + e.placeholders && e.computed <= prm.maxModelLen
    ensures var k := ChunkCap(e, budget, prm);
      0 <= k <= e.tokens + e.placeholders - e.computed && RunningTokens(e, budget, prm) == Split(e, k, 0, 0, bs) <= k
  {
    hide Split, Resting;
    assert Sub64(e.tokensWithSpec + e.placeholders, e.computed) == e.tokens + e.placeholders - e.computed;
    SplitShortens(e, ChunkCap(e, budget, prm), 0, 0, bs);
  }

  lemma DecodeChunk(e: Entry, bs: Pos)
    requires Phase(e, bs) && Decoding(e) && e.computed + 1 <= e.tokens + e.placeholders
    requires e.tokens + e.placeholders + 1 < WORD
    ensures NoStraddle(e.computed, e.computed + 1, bs) && Phase(Advance(e, 1, 1), bs)
    ensures StopsWell(e.computed, 1, e.tokens, bs)
  {
    OneToken(e.computed, bs);
    LastWhole(e.tokens, bs);
  }

  lemma PrefillChunk(e: Entry, k: nat, bs: Pos)
    requires Phase(e, bs) && !Decoding(e) && k <= e.tokens - e.computed && Split(e, k, 0, 0, bs) > 0
    requires e.tokens + 1 < WORD
    ensures var n := Split(e, k, 0, 0, bs);
      NoStraddle(e.computed, e.computed + n, bs) && Phase(Advance(e, n, 1), bs)
        && StopsWell(e.computed, n, e.tokens, bs)
  {
    hide Split, NoStraddle, Resting;
    SplitRests(e, k, 0, 0, bs);
  }

  /** A running request's chunk ends where it may, and leaves the request in phase. */
  lemma ChunkPhase(e: Entry, budget: nat, prm: Params, bs: Pos)
    requires Phase(e, bs) && prm.aligned && prm.cacheBlock == bs && RunningTokens(e, budget, prm) > 0
    requires e.tokens + e.placeholders + 1 < WORD
    ensures var n := RunningTokens(e, budget, prm);
      && NoStraddle(e.computed, e.computed + n, bs) && Phase(Advance(e, n, 1), bs)
      && StopsWell(e.computed, n, e.tokens, bs) && e.computed <= prm.maxModelLen
  {
    hide Split, NoStraddle, Resting, RunningTokens, ChunkCap, StopsWell, Advance;
    ChunkIsSplit(e, budget, prm, bs);
    if Decoding(e) {
      DecodeChunk(e, bs);
    } else {
      PrefillChunk(e, ChunkCap(e, budget, prm), bs);
    }
  }

  /** An admitted request's first chunk, from a block-aligned hit. */
  lemma AdmitPhase(e: Entry, n: nat, hit: nat, uncached: nat, bs: Pos)
    requires e.computed == 0 && e.placeholders == 0 && e.tokensWithSpec == e.tokens && e.tokens + 1 < WORD
    requires hit < e.tokens && hit % bs == 0 && n <= e.tokens - hit && Split(e, n, hit, uncached, bs) > 0
    ensures var m := Split(e, n, hit, uncached, bs);
      && NoStraddle(hit, hit + m, bs) && Phase(Enter(e, Admitted(e.slot, m, hit), 1), bs)
      && StopsWell(hit, m, e.tokens, bs) && hit + m <= e.tokens
  {
    hide Split, NoStraddle;
    SplitRests(e, n, hit, uncached, bs);
  }

  /** A report in step with the table keeps the phase. */
  lemma ReportPhase(e: Entry, r: Report, bs: Pos)
    requires Phase(e, bs) && r.tokens == e.tokens && r.accepted <= e.placeholders
    ensures Phase(Updated(e, r), bs) && Updated(e, r).computed == e.computed && Updated(e, r).slot == e.slot
  {}

  // ---- index growth -----------------------------------------------------------------

  /** A key that reaches a block in `q` but not in `p`. */
  ghost predicate Entered(p: Pool, q: Pool, k: HashKey, b: Id) {
    Contain(q.cached, k, b) && !Contain(p.cached, k, b)
  }

  lemma EnteredVia(p: Pool, q: Pool, r: Pool, k: HashKey, b: Id)
    ensures Entered(p, r, k, b) ==> Entered(p, q, k, b) || Entered(q, r, k, b)
  {
    hide Contain;
  }

  /** Filing a slot's blocks `from..to` may enter this. */
  ghost predicate FromTable(v: seq<Id>, hashes: seq<Digest>, stride: nat, from: nat, to: nat, group: nat, k: HashKey,
                            b: Id) {
    b != NULL && exists i :: from <= i < to && i < |v| && v[i] == b && KeyAt(hashes, stride, group, i) == Some(k)
  }

  lemma {:induction false} FullEnters(p: Pool, v: seq<Id>, hashes: seq<Digest>, stride: nat, from: nat, to: nat,
                                      bs: nat, group: nat)
    requires Inv(p) && InRange(p, v)
    ensures var q := CacheFull(p, v, hashes, stride, from, to, bs, group);
      forall k, b :: Entered(p, q, k, b) ==> FromTable(v, hashes, stride, from, to, group, k, b)
    decreases Monus(to, from)
  {
    hide CacheOne, KeyAt;
    if from < to {
      var key := KeyAt(hashes, stride, group, from);
      var q := p;
      if from < |v| && key.Some? {
        assert v[from] in v;
        q := CacheOne(p, v[from], key.value, (from + 1) * bs);
        CacheOneOk(p, v[from], key.value, (from + 1) * bs);
        SameCountsInv(p, q);
      }
      FullEnters(q, v, hashes, stride, from + 1, to, bs, group);
      var r := CacheFull(p, v, hashes, stride, from, to, bs, group);
      forall k, b | Entered(p, r, k, b) ensures FromTable(v, hashes, stride, from, to, group, k, b) {
        if Entered(q, r, k, b) { assert FromTable(v, hashes, stride, from + 1, to, group, k, b); }
      }
    }
  }

  /** What filing a slot in all groups may enter: a block of that group's table, in the range that
      was not filed yet. */
  ghost predicate OfGroups(ts: seq<Tm>, i: nat, slot: Slot, hashes: seq<Digest>, hb: Pos, tokens: nat, k: HashKey,
                           b: Id) {
    exists g :: i <= g < |ts| && OfGroup(ts[g], slot, hashes, hb, tokens, k, b)
  }

  ghost predicate OfGroup(t: Tm, slot: Slot, hashes: seq<Digest>, hb: Pos, tokens: nat, k: HashKey, b: Id) {
    FromTable(Blocks(t, slot), hashes, t.group.blockSize / hb, NumCached(t, slot), tokens / Bs(t), t.group.id, k, b)
  }

  lemma FileEnters(p: Pool, t: Tm, slot: Slot, hashes: seq<Digest>, hb: Pos, tokens: nat)
    requires Inv(p) && TmInv(p, t)
    ensures var q := Do(File(slot, hashes, hb, tokens), p, t).pool;
      forall k, b :: Entered(p, q, k, b) ==> OfGroup(t, slot, hashes, hb, tokens, k, b)
  {
    hide CacheFull, FromTable, Inv, Entered;
    TableRange(p, t, slot);
    CacheShape(p, t, slot, hashes, t.group.blockSize / hb, tokens);
    FullEnters(p, Blocks(t, slot), hashes, t.group.blockSize / hb, NumCached(t, slot), tokens / Bs(t),
               t.group.blockSize, t.group.id);
  }

  lemma LaterGroups(ts: seq<Tm>, i: nat, u: Tm, slot: Slot, hashes: seq<Digest>, hb: Pos, tokens: nat, k: HashKey,
                    b: Id)
    requires i < |ts| && OfGroups(ts[i := u], i + 1, slot, hashes, hb, tokens, k, b)
    ensures OfGroups(ts, i, slot, hashes, hb, tokens, k, b)
  {
    hide OfGroup;
    var us := ts[i := u];
    var g :| i + 1 <= g < |us| && OfGroup(us[g], slot, hashes, hb, tokens, k, b);
    assert us[g] == ts[g];
  }

  lemma {:induction false} AllFileEnters(slot: Slot, hashes: seq<Digest>, hb: Pos, tokens: nat, p: Pool, ts: seq<Tm>,
                                         i: nat, outs: seq<seq<nat>>)
    requires GInv(p, ts) && i <= |ts|
    ensures var f := FanOut(File(slot, hashes, hb, tokens), p, ts, i, outs);
      forall k, b :: Entered(p, f.pool, k, b) ==> OfGroups(ts, i, slot, hashes, hb, tokens, k, b)
    decreases |ts| - i
  {
    hide Do, OfGroup, GInv, Contain;
    if i < |ts| {
      var op := File(slot, hashes, hb, tokens);
      GroupTables(p, ts, i);
      GroupCovered(p, ts, i);
      DoOk(op, p, ts[i]);
      var s := Do(op, p, ts[i]);
      GroupStep(p, ts, i, s.pool, s.tm, slot);
      FileEnters(p, ts[i], slot, hashes, hb, tokens);
      AllFileEnters(slot, hashes, hb, tokens, s.pool, ts[i := s.tm], i + 1, outs + [s.out]);
      var f := FanOut(op, p, ts, i, outs);
      forall k, b | Entered(p, f.pool, k, b) ensures OfGroups(ts, i, slot, hashes, hb, tokens, k, b) {
        EnteredVia(p, s.pool, f.pool, k, b);
        if Entered(s.pool, f.pool, k, b) { LaterGroups(ts, i, s.tm, slot, hashes, hb, tokens, k, b); }
      }
    }
  }

  /** Taking blocks only removes mappings. */
  /** Nothing entered the index from one pool to the other. */
  ghost predicate NoneEnter(p: Pool, q: Pool) { forall k, b :: !Entered(p, q, k, b) }

  lemma NoneEnterVia(p: Pool, q: Pool, r: Pool)
    requires NoneEnter(p, q) && NoneEnter(q, r)
    ensures NoneEnter(p, r)
  {
    hide Entered;
    forall k, b ensures !Entered(p, r, k, b) { EnteredVia(p, q, r, k, b); }
  }

  lemma {:induction false} GrowEnters(slot: Slot, tokens: nat, main: nat, p: Pool, ts: seq<Tm>, i: nat,
                                      outs: seq<seq<nat>>)
    requires GInv(p, ts) && i <= |ts| && main > 0 && WantedFrom(ts, slot, tokens, main, i) <= |p.free|
    ensures NoneEnter(p, FanOut(Grow(slot, tokens, main), p, ts, i, outs).pool)
    decreases |ts| - i
  {
    hide Inv, Counted, TmInv, Wanted, Alloc, Keeps, NoneEnter;
    if i < |ts| {
      GroupTables(p, ts, i);
      AllocOk(p, ts[i], slot, tokens, main);
      AllocEnters(p, ts[i], slot, tokens, main);
      var s := Do(Grow(slot, tokens, main), p, ts[i]);
      var us := ts[i := s.tm];
      GroupStep(p, ts, i, s.pool, s.tm, slot);
      WantedFromSame(ts, us, slot, tokens, main, i + 1);
      GrowEnters(slot, tokens, main, s.pool, us, i + 1, outs + [s.out]);
      NoneEnterVia(p, s.pool, FanOut(Grow(slot, tokens, main), s.pool, us, i + 1, outs + [s.out]).pool);
    } else {
      NoneStays(p);
    }
  }

  lemma NoneStays(p: Pool)
    ensures NoneEnter(p, p)
  {}

  lemma AllocEnters(p: Pool, t: Tm, slot: Slot, tokens: nat, main: nat)
    requires Inv(p) && TmInv(p, t) && main > 0 && Wanted(t, slot, tokens, main) <= |p.free|
    ensures NoneEnter(p, Alloc(p, t, slot, tokens, main).pool)
  {
    hide Take, Inv, TmInv, CDiv, Recycle, Contain;
    var n := Wanted(t, slot, tokens, main);
    if t.group.kind.Mamba? && CDiv(main, Bs(t)) + t.group.numSpec > |Blocks(t, slot)| {
      MambaWanted(p, t, slot, tokens, main);
    }
    GetNewEnters(p, n);
    if n == 0 { GetNewNone(p); }
    assert Alloc(p, t, slot, tokens, main).pool == GetNew(p, n).0;
  }

  lemma GetNewEnters(p: Pool, n: nat)
    requires Inv(p) && n <= |p.free|
    ensures forall k, b :: !Entered(p, GetNew(p, n).0, k, b)
  {
    var ids := p.free[..n];
    var r := p.(free := p.free[n..]);
    SameIndex(p, r);
    FrontIdle(p, n);
    TakeIndex(r, ids);
  }

  // ---- one allocation ---------------------------------------------------------------

  /** Mamba groups are align-mode without speculative blocks, all with one block size. */
  ghost predicate ScopeOk(c: Config, bs: Pos) {
    forall g :: 0 <= g < |c.groups| && c.groups[g].kind.Mamba? ==>
      c.groups[g].numSpec == 0 && c.groups[g].blockSize == bs
  }

  predicate MambaGroup(c: Config, g: nat) { g < |c.groups| && c.groups[g].kind.Mamba? }

  lemma MambaTm(s: State, g: nat, bs: Pos)
    requires StateInv(s) && ScopeOk(s.cfg, bs) && MambaGroup(s.cfg, g)
    ensures g < |s.tms| && AlignMode(s.tms[g]) && Bs(s.tms[g]) == bs && s.tms[g].group.id == g
    ensures TmInv(s.pool, s.tms[g])
  {
    hide Inv, TmInv, Counted;
    GroupTables(s.pool, s.tms, g);
  }

  /** The slot has nothing in the group. */
  predicate Vacant(t: Tm, slot: Slot) {
    Blocks(t, slot) == [] && slot !in t.numCached && slot !in t.lastState && slot !in t.allocatedReqs
  }

  /** Every entry but the last is null. */
  predicate OnlyLast(t: Tm, slot: Slot) {
    forall i :: 0 <= i < |Blocks(t, slot)| - 1 ==> Blocks(t, slot)[i] == NULL
  }

  /** A mamba hit of `c` tokens: one state, padded with nulls. */
  predicate HitShape(hit: seq<Id>, c: nat, bs: Pos) {
    |hit| * bs == c && (hit != [] ==> hit[|hit| - 1] != NULL && forall i :: 0 <= i < |hit| - 1 ==> hit[i] == NULL)
  }

  lemma SkipVacant(p: Pool, t: Tm, slot: Slot, total: nat)
    requires AlignMode(t) && Vacant(t, slot)
    ensures Vacant(RemoveSkipped(p, t, slot, total).1, slot) && RemoveSkipped(p, t, slot, total).1.group == t.group
  {
    hide CDiv;
    RemoveSkippedShape(p, t, slot, total);
  }

  lemma VacantTracks(t: Tm, slot: Slot)
    requires Vacant(t, slot)
    ensures Tracks(t, slot, 0, {}) && OnlyLast(t, slot)
  {}

  /** A group's tables just before new blocks are taken: running requests come from their last
      chunk, admitted ones from their hit. */
  ghost predicate StartsAt(s: State, c: Call, g: nat, bs: Pos, stops: set<nat>) {
    && MambaGroup(s.cfg, g) && g < |s.tms|
    && (if CallHits(s, c) == [] then
          (c.newComputed == 0 && Tracks(s.tms[g], c.slot, c.computed, stops))
          || (c.computed + c.newComputed == 0 && Vacant(s.tms[g], c.slot) && stops == {})
        else
          && c.computed == 0 && stops == {} && Vacant(s.tms[g], c.slot)
          && |CallHits(s, c)| == |s.cfg.groups| && HitShape(CallHits(s, c)[g], c.newComputed, bs))
  }

  lemma SkippedGroup(s: State, c: Call, g: nat, bs: Pos, stops: set<nat>)
    requires StateInv(s) && CallOk(s, c) && ScopeOk(s.cfg, bs) && StartsAt(s, c, g, bs, stops)
    requires c.computed + c.newComputed <= s.cfg.maxModelLen
    ensures var f1 := All(Skip(c.slot, Total(s, c)), s.pool, s.tms);
      && g < |f1.tms| && f1.tms[g].group == s.tms[g].group
      && (Tracks(s.tms[g], c.slot, c.computed, stops) && c.newComputed == 0 ==>
            Tracks(f1.tms[g], c.slot, c.computed, stops) && OnlyLast(f1.tms[g], c.slot))
      && (Vacant(s.tms[g], c.slot) ==> Vacant(f1.tms[g], c.slot))
  {
    hide GInv, ConfigOk, FanOut, Blank, HitsExist, Tracks, Vacant, RemoveSkipped;
    MambaTm(s, g, bs);
    PlainOk(Skip(c.slot, Total(s, c)), s.pool, s.tms, 0, []);
    var q := FanGroup(Skip(c.slot, Total(s, c)), s.pool, s.tms, 0, [], g);
    RemoveSkippedShape(q, s.tms[g], c.slot, Total(s, c));
    if Tracks(s.tms[g], c.slot, c.computed, stops) && c.newComputed == 0 {
      SkipTracks(q, s.tms[g], c.slot, c.computed, stops);
    }
    if Vacant(s.tms[g], c.slot) { SkipVacant(q, s.tms[g], c.slot, Total(s, c)); }
  }

  /** After the hit has been held the request is tracked from where it resumes. */
  lemma HeldGroup(s: State, c: Call, g: nat, bs: Pos, stops: set<nat>)
    requires StateInv(s) && CallOk(s, c) && ScopeOk(s.cfg, bs) && StartsAt(s, c, g, bs, stops) && c.newTokens > 0
    requires c.computed + c.newComputed <= s.cfg.maxModelLen
    requires Admits(s, c, All(Skip(c.slot, Total(s, c)), s.pool, s.tms))
    ensures var f1 := All(Skip(c.slot, Total(s, c)), s.pool, s.tms);
      var f2 := AddAll(f1.pool, f1.tms, c, CallHits(s, c));
      && g < |f2.tms| && f2.tms[g].group == s.tms[g].group
      && Tracks(f2.tms[g], c.slot, c.computed + c.newComputed, stops) && OnlyLast(f2.tms[g], c.slot)
  {
    hide GInv, ConfigOk, FanOut, Admits, Tracks, Vacant, OnlyLast, HitShape, AddTm;
    SkippedGroup(s, c, g, bs, stops);
    SkipAllOk(s, c);
    MambaTm(s, g, bs);
    var f1 := All(Skip(c.slot, Total(s, c)), s.pool, s.tms);
    var hits := CallHits(s, c);
    if hits == [] {
      if Vacant(s.tms[g], c.slot) && c.computed + c.newComputed == 0 && stops == {} { VacantTracks(f1.tms[g], c.slot); }
    } else {
      var computed := c.computed + c.newComputed;
      NotCached(f1.tms, c.slot);
      AddTables(c.slot, hits, computed, f1.pool, f1.tms, 0, []);
      HitOfGroup(f1.tms[g], hits, g);
      HitHeld(f1.tms[g], c.slot, hits[g], computed, bs);
    }
  }

  lemma NotCached(ts: seq<Tm>, slot: Slot)
    requires Blank(ts, slot)
    ensures !AnyCached(ts, slot) && forall j :: 0 <= j < |ts| ==> Blocks(ts[j], slot) == []
  {}

  lemma HitOfGroup(t: Tm, hits: seq<seq<Id>>, g: nat)
    requires t.group.id == g && g < |hits|
    ensures HitOf(hits, t.group.id) == hits[g]
  {}

  lemma HitHeld(t: Tm, slot: Slot, hit: seq<Id>, c: nat, bs: Pos)
    requires AlignMode(t) && Bs(t) == bs && Vacant(t, slot) && HitShape(hit, c, bs)
    ensures var u := AddTm(t, slot, hit, c); u.group == t.group && Tracks(u, slot, c, {}) && OnlyLast(u, slot)
  {
    HitTracks(t, slot, hit, c);
  }

  /** Group `g`'s part of taking new blocks. */
  lemma {:induction false} GrowGroup(slot: Slot, tokens: nat, main: nat, p: Pool, ts: seq<Tm>, i: nat,
                                     outs: seq<seq<nat>>, g: nat)
    returns (q: Pool)
    requires GInv(p, ts) && i <= g < |ts| && main > 0 && WantedFrom(ts, slot, tokens, main, i) <= |p.free|
    ensures var f := FanOut(Grow(slot, tokens, main), p, ts, i, outs);
      && g < |f.tms| && Inv(q) && TmInv(q, ts[g])
      && Alloc(q, ts[g], slot, tokens, main).ok && f.tms[g] == Alloc(q, ts[g], slot, tokens, main).tm
    decreases g - i
  {
    hide Inv, Counted, TmInv, Wanted, Alloc, Keeps;
    GroupTables(p, ts, i);
    AllocOk(p, ts[i], slot, tokens, main);
    var s := Do(Grow(slot, tokens, main), p, ts[i]);
    var us := ts[i := s.tm];
    GroupStep(p, ts, i, s.pool, s.tm, slot);
    WantedFromSame(ts, us, slot, tokens, main, i + 1);
    if i == g {
      q := p;
      GrowOk(slot, tokens, main, s.pool, us, i + 1, outs + [s.out]);
      GrowKept(slot, tokens, main, s.pool, us, i + 1, outs + [s.out], g);
    } else {
      q := GrowGroup(slot, tokens, main, s.pool, us, i + 1, outs + [s.out], g);
    }
  }

  /** Groups already visited stay as they are. */
  lemma {:induction false} GrowKept(slot: Slot, tokens: nat, main: nat, p: Pool, ts: seq<Tm>, i: nat,
                                    outs: seq<seq<nat>>, g: nat)
    requires g < i <= |ts|
    ensures var f := FanOut(Grow(slot, tokens, main), p, ts, i, outs); |f.tms| == |ts| && f.tms[g] == ts[g]
    decreases |ts| - i
  {
    hide Alloc;
    if i < |ts| {
      var s := Do(Grow(slot, tokens, main), p, ts[i]);
      if s.ok { GrowKept(slot, tokens, main, s.pool, ts[i := s.tm], i + 1, outs + [s.out], g); }
    }
  }

  /** The key is that of a token boundary in `stops`. */
  ghost predicate AtStop(s: State, slot: Slot, k: HashKey, bs: Pos, stops: set<nat>) {
    exists i: nat :: KeyAt(Hashes(s, slot), bs / s.cfg.hashBlock, k.group, i) == Some(k) && (i + 1) * bs in stops
  }

  /** What a filed table enters is at a stop. */
  lemma FiledStop(s: State, t: Tm, g: nat, slot: Slot, bs: Pos, m: nat, tokens: nat, stops: set<nat>, k: HashKey, b: Id)
    requires AlignMode(t) && Bs(t) == bs && t.group.id == g && Tracks(t, slot, m, stops) && tokens <= m && k.group == g
    requires OfGroup(t, slot, Hashes(s, slot), s.cfg.hashBlock, tokens, k, b)
    ensures AtStop(s, slot, k, bs, stops)
  {
    hide Tracks, KeyAt;
    var i :| NumCached(t, slot) <= i < tokens / Bs(t) && i < |Blocks(t, slot)| && Blocks(t, slot)[i] == b
             && KeyAt(Hashes(s, slot), t.group.blockSize / s.cfg.hashBlock, t.group.id, i) == Some(k);
    assert i in Filed(t, slot, tokens);
    FiledAtStops(t, slot, m, tokens, stops, i);
  }

  /** Growing the tables by the chunk, in group `g`. */
  lemma GrownGroup(s: State, c: Call, g: nat, bs: Pos, stops: set<nat>)
    requires StateInv(s) && CallOk(s, c) && ScopeOk(s.cfg, bs) && StartsAt(s, c, g, bs, stops) && c.newTokens > 0
    requires c.computed + c.newComputed <= s.cfg.maxModelLen
    requires Admits(s, c, All(Skip(c.slot, Total(s, c)), s.pool, s.tms))
    requires NoStraddle(c.computed + c.newComputed, MainTokens(s, c), bs)
    ensures var f1 := All(Skip(c.slot, Total(s, c)), s.pool, s.tms);
      var f2 := AddAll(f1.pool, f1.tms, c, CallHits(s, c));
      var f3 := All(Grow(c.slot, NeedTokens(s, c), MainTokens(s, c)), f2.pool, f2.tms);
      && f3.ok && GInv(f3.pool, f3.tms) && g < |f3.tms| && AlignMode(f3.tms[g]) && Bs(f3.tms[g]) == bs
      && f3.tms[g].group.id == g
      && Tracks(f3.tms[g], c.slot, MainTokens(s, c), stops + {MainTokens(s, c)})
      && (forall k, b :: !Entered(s.pool, f3.pool, k, b)) && |f3.outs| == |s.tms|
  {
    hide GInv, ConfigOk, FanOut, Admits, Tracks, OnlyLast, NoStraddle, StartsAt, Blank, HitsExist, NoneGained,
         WantedFrom, Entered;
    SkipAllOk(s, c);
    StartsIn(s, c, g, bs, stops);
    MambaTm(s, g, bs);
    var f1 := All(Skip(c.slot, Total(s, c)), s.pool, s.tms);
    AdmittedFits(s, c, f1);
    HeldGroup(s, c, g, bs, stops);
    var f2 := AddAll(f1.pool, f1.tms, c, CallHits(s, c));
    GrantedOk(s, c);
    var q := GrowGroup(c.slot, NeedTokens(s, c), MainTokens(s, c), f2.pool, f2.tms, 0, [], g);
    GrowEnters(c.slot, NeedTokens(s, c), MainTokens(s, c), f2.pool, f2.tms, 0, []);
    GrowOne(q, f2.tms[g], c.slot, c.computed + c.newComputed, NeedTokens(s, c), MainTokens(s, c), stops);
    SameCached(s.pool, f2.pool, All(Grow(c.slot, NeedTokens(s, c), MainTokens(s, c)), f2.pool, f2.tms).pool);
  }

  lemma SameCached(p: Pool, q: Pool, r: Pool)
    requires p.cached == q.cached
    ensures forall k, b :: Entered(p, r, k, b) <==> Entered(q, r, k, b)
  {}

  lemma GrowOne(q: Pool, t: Tm, slot: Slot, c: nat, tokens: nat, main: nat, stops: set<nat>)
    requires AlignMode(t) && Inv(q) && TmInv(q, t) && Tracks(t, slot, c, stops) && OnlyLast(t, slot) && c < main
    requires NoStraddle(c, main, Bs(t)) && Alloc(q, t, slot, tokens, main).ok
    ensures var u := Alloc(q, t, slot, tokens, main).tm;
      AlignMode(u) && u.group == t.group && Tracks(u, slot, main, stops + {main})
  {
    hide Inv, TmInv, Tracks, AllocMamba;
    GrowTracks(q, t, slot, c, main, stops);
    GrownTable(q, t, slot, main);
  }

  /** Filing in all groups, seen from group `g`. */
  lemma FiledGroup(s: State, slot: Slot, tokens: nat, g: nat, bs: Pos, m: nat, stops: set<nat>)
    requires GInv(s.pool, s.tms) && g < |s.tms| && AlignMode(s.tms[g]) && Bs(s.tms[g]) == bs && s.tms[g].group.id == g
    requires Tracks(s.tms[g], slot, m, stops) && tokens <= m
    ensures var r := CacheAll(s, slot, tokens);
      && g < |r.tms| && Tracks(r.tms[g], slot, m, stops)
      && forall k, b :: Entered(s.pool, r.pool, k, b) && k.group == g ==> AtStop(s, slot, k, bs, stops)
  {
    hide GInv, FanOut, Tracks, AtStop, OfGroup, CacheBlocks;
    if s.cfg.caching {
      var upTo := Cacheable(s.cfg, tokens);
      CacheableLess(s.cfg, tokens);
      var op := File(slot, Hashes(s, slot), s.cfg.hashBlock, upTo);
      PlainOk(op, s.pool, s.tms, 0, []);
      var q := FanGroup(op, s.pool, s.tms, 0, [], g);
      FileTracks(q, s.tms[g], slot, Hashes(s, slot), s.tms[g].group.blockSize / s.cfg.hashBlock, m, upTo, stops);
      AllFileEnters(slot, Hashes(s, slot), s.cfg.hashBlock, upTo, s.pool, s.tms, 0, []);
      var r := CacheAll(s, slot, tokens);
      forall k, b | Entered(s.pool, r.pool, k, b) && k.group == g ensures AtStop(s, slot, k, bs, stops) {
        var h :| 0 <= h < |s.tms| && OfGroup(s.tms[h], slot, Hashes(s, slot), s.cfg.hashBlock, upTo, k, b);
        GroupTables(s.pool, s.tms, h);
        GroupKey(s.tms[h], slot, Hashes(s, slot), s.cfg.hashBlock, upTo, k, b);
        FiledStop(s, s.tms[g], g, slot, bs, m, upTo, stops, k, b);
      }
    }
  }

  lemma GroupKey(t: Tm, slot: Slot, hashes: seq<Digest>, hb: Pos, tokens: nat, k: HashKey, b: Id)
    requires OfGroup(t, slot, hashes, hb, tokens, k, b)
    ensures k.group == t.group.id
  {}

  /** What an allocation that led from `s` to `r` means for group `g`. */
  ghost predicate ChunkTracked(s: State, c: Call, g: nat, bs: Pos, stops: set<nat>, r: State, out: Outcome) {
    var m := c.computed + c.newComputed + c.newTokens;
    && g < |r.tms| && g < |s.tms|
    && (out.Granted? ==> Tracks(r.tms[g], c.slot, m, stops + {m}))
    && (!out.Granted? && c.newComputed == 0 && Tracks(s.tms[g], c.slot, c.computed, stops) ==>
          Tracks(r.tms[g], c.slot, c.computed, stops))
    && (!out.Granted? && Vacant(s.tms[g], c.slot) ==> Vacant(r.tms[g], c.slot))
    && forall k, b :: Entered(s.pool, r.pool, k, b) && k.group == g ==>
       out.Granted? && AtStop(s, c.slot, k, bs, stops + {m})
  }

  /**
   * One allocation from a tracked or vacant start: granted, the request is tracked to the chunk's
   * end and anything entered for group `g` is at one of its stops; refused, nothing is entered.
   */
  lemma AllocateFollows(s: State, c: Call, g: nat, bs: Pos, stops: set<nat>)
    requires StateInv(s) && CallOk(s, c) && ScopeOk(s.cfg, bs) && StartsAt(s, c, g, bs, stops) && c.newTokens > 0
    requires c.computed + c.newComputed <= s.cfg.maxModelLen
    requires NoStraddle(c.computed + c.newComputed, MainTokens(s, c), bs)
    ensures ChunkTracked(s, c, g, bs, stops, AllocateSlots(s, c).0, AllocateSlots(s, c).1)
  {
    hide GInv, ConfigOk, FanOut, Admits, Tracks, Vacant, OnlyLast, NoStraddle, StartsAt, Blank, HitsExist, NoneGained,
         Entered,
         AtStop, CacheAll;
    SkippedGroup(s, c, g, bs, stops);
    SkipAllOk(s, c);
    StartsIn(s, c, g, bs, stops);
    var f1 := All(Skip(c.slot, Total(s, c)), s.pool, s.tms);
    SameCached(s.pool, s.pool, f1.pool);
    if Admits(s, c, f1) {
      GrownGroup(s, c, g, bs, stops);
      GrantedOk(s, c);
      var f2 := AddAll(f1.pool, f1.tms, c, CallHits(s, c));
      var f3 := All(Grow(c.slot, NeedTokens(s, c), MainTokens(s, c)), f2.pool, f2.tms);
      var s3 := s.(pool := f3.pool, tms := f3.tms);
      var m := MainTokens(s, c);
      FiledGroup(s3, c.slot, Min(m, c.reqTokens), g, bs, m, stops + {m});
      var r := AllocateSlots(s, c).0;
      forall k, b | Entered(s.pool, r.pool, k, b) && k.group == g ensures AtStop(s, c.slot, k, bs, stops + {m}) {
        EnteredVia(s.pool, f3.pool, r.pool, k, b);
        SameStops(s, s3, c.slot, k, bs, stops + {m});
      }
    } else {
      NothingEntered(s.pool, f1.pool);
    }
  }

  lemma StartsIn(s: State, c: Call, g: nat, bs: Pos, stops: set<nat>)
    requires StartsAt(s, c, g, bs, stops)
    ensures MambaGroup(s.cfg, g) && g < |s.tms|
  {}

  lemma SameStops(s: State, r: State, slot: Slot, k: HashKey, bs: Pos, stops: set<nat>)
    requires r.cfg == s.cfg && r.hashes == s.hashes
    ensures AtStop(s, slot, k, bs, stops) <==> AtStop(r, slot, k, bs, stops)
  {
    hide KeyAt;
    assert Hashes(r, slot) == Hashes(s, slot);
  }

  lemma NothingEntered(p: Pool, q: Pool)
    requires q.cached == p.cached
    ensures forall k, b :: !Entered(p, q, k, b)
  {}
}
