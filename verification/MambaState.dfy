/**
 * Align-mode mamba tables over any sequence of allocations of one request: at most two live
 * states, the running one last. If moreover a chunk that starts inside a block stops inside it,
 * every state that is filed sits at a token count where a chunk stopped. Scope: no speculative
 * blocks, and each call starts where the last granted one stopped.
 */
module MambaState {
  import opened Basics
  import opened PoolSpec
  import opened PoolInv
  import opened PoolCounts
  import opened TypeSpec
  import opened TypeInv
  import opened TypeAlloc

  predicate AlignMode(t: Tm) { t.group.kind.Mamba? && t.group.numSpec == 0 }

  /** Only the last entry and the one noted as the previous state may be live. */
  predicate TwoLive(t: Tm, slot: Slot) {
    var v := Blocks(t, slot);
    forall i :: 0 <= i < |v| && v[i] != NULL ==> i == |v| - 1 || (slot in t.lastState && i == t.lastState[slot])
  }

  /** A request whose computed tokens are `c`: its table reaches them, the last entry is its running
      state, and at most one earlier entry is live. */
  predicate Live(t: Tm, slot: Slot, c: nat) {
    && TwoLive(t, slot)
    && (slot in t.lastState ==> slot in t.allocatedReqs)
    && (if slot in t.allocatedReqs then |Blocks(t, slot)| == CDiv(c, Bs(t))
        else |Blocks(t, slot)| * Bs(t) == c)
    && (Blocks(t, slot) != [] ==> Blocks(t, slot)[|Blocks(t, slot)| - 1] != NULL)
  }

  /** Every live state before the running one that is yet to be filed sits at the end of a chunk. */
  predicate AtStops(t: Tm, slot: Slot, stops: set<nat>) {
    var v := Blocks(t, slot);
    forall i :: NumCached(t, slot) <= i < |v| - 1 && v[i] != NULL ==> (i + 1) * Bs(t) in stops
  }

  /** `c` is the last of the request's `stops`, unless it is filed already. */
  predicate Tracks(t: Tm, slot: Slot, c: nat, stops: set<nat>) {
    && Live(t, slot, c) && AtStops(t, slot, stops)
    && NumCached(t, slot) * Bs(t) <= c && (NumCached(t, slot) * Bs(t) < c ==> c in stops)
  }

  /** A chunk that starts inside a block does not leave it. */
  predicate NoStraddle(c: nat, m: nat, bs: Pos) {
    c % bs == 0 || m <= CDiv(c, bs) * bs
  }

  lemma CDivExact(n: nat, bs: Pos)
    ensures CDiv(n * bs, bs) == n
  {
    hide CDiv;
    CDivBounds(n * bs, bs);
    var q: int := CDiv(n * bs, bs);
    MulOrder(q, n, bs);
    MulOrder(q - 1, n, bs);
  }

  lemma LiveLength(t: Tm, slot: Slot, c: nat)
    requires Live(t, slot, c)
    ensures |Blocks(t, slot)| == CDiv(c, Bs(t))
  {
    hide TwoLive;
    if slot !in t.allocatedReqs { CDivExact(|Blocks(t, slot)|, Bs(t)); }
  }

  // ---- releasing skipped states -----------------------------------------------------

  /** The table after `remove_skipped_blocks`, which only nulls entries. */
  lemma RangeTable(p: Pool, t: Tm, slot: Slot, last: nat)
    ensures var u := RemoveRange(p, t, slot, 0, last).1;
      && |Blocks(u, slot)| == |Blocks(t, slot)|
      && (forall i :: 0 <= i < |Blocks(t, slot)| ==>
          Blocks(u, slot)[i] == Blocks(t, slot)[i] || Blocks(u, slot)[i] == NULL)
      && (0 < last <= |Blocks(t, slot)| ==> Blocks(u, slot)[last - 1] == NULL)
      && (forall i :: last <= i < |Blocks(t, slot)| ==> Blocks(u, slot)[i] == Blocks(t, slot)[i])
  {
    hide FreeBlocks;
    if slot in t.reqBlocks && 0 < Min(last, |t.reqBlocks[slot]|) {
      var v := t.reqBlocks[slot];
      var hi := Min(last, |v|);
      var lo := RunStart(v, 0, hi);
      assert Blocks(RemoveRange(p, t, slot, 0, last).1, slot) == NullRange(v, lo, hi);
    }
  }

  lemma DropTable(p: Pool, t: Tm, slot: Slot, c: nat)
    ensures var u := DropLastState(p, t, slot, c).1;
      && |Blocks(u, slot)| == |Blocks(t, slot)|
      && (forall i :: 0 <= i < |Blocks(t, slot)| ==>
          Blocks(u, slot)[i] == Blocks(t, slot)[i] || Blocks(u, slot)[i] == NULL)
      && (forall i :: CDiv(c, Bs(t)) - 1 <= i < |Blocks(t, slot)| && i >= 0 ==>
          Blocks(u, slot)[i] == Blocks(t, slot)[i])
      && (slot in t.lastState && t.lastState[slot] < CDiv(c, Bs(t)) - 1 && t.lastState[slot] < |Blocks(t, slot)|
          ==> Blocks(u, slot)[t.lastState[slot]] == NULL)
  {
    hide FreeBlocks, CDiv;
  }

  lemma BeforeLast(c: nat, bs: Pos)
    requires c > 0
    ensures (c - 1) / bs <= CDiv(c, bs) - 1
  {
    hide CDiv;
    CDivBounds(c, bs);
    FloorBounds(c - 1, bs);
    var q: int := CDiv(c, bs);
    MulOrder(q, (c - 1) / bs, bs);
    MulOrder((c - 1) / bs, q, bs);
  }

  /** `remove_skipped_blocks` only nulls entries, never the one that covers the last token. */
  lemma SkipTable(p: Pool, t: Tm, slot: Slot, c: nat)
    requires AlignMode(t)
    ensures var u := RemoveSkipped(p, t, slot, c).1;
      && |Blocks(u, slot)| == |Blocks(t, slot)|
      && (forall i :: 0 <= i < |Blocks(t, slot)| ==>
          Blocks(u, slot)[i] == Blocks(t, slot)[i] || Blocks(u, slot)[i] == NULL)
      && (forall i :: CDiv(c, Bs(t)) - 1 <= i < |Blocks(t, slot)| && i >= 0 ==>
          Blocks(u, slot)[i] == Blocks(t, slot)[i])
      && (slot in t.lastState && t.lastState[slot] < CDiv(c, Bs(t)) - 1 && t.lastState[slot] < |Blocks(t, slot)|
          ==> Blocks(u, slot)[t.lastState[slot]] == NULL)
  {
    hide RemoveRange, DropLastState, CDiv;
    if c > 1 {
      BeforeLast(c, Bs(t));
      var t1 := TouchEntry(t, slot);
      var last := Min((c - 1) / Bs(t), |Blocks(t1, slot)|);
      RangeTable(p, t1, slot, last);
      RemoveRangeShape(p, t1, slot, 0, last);
      var (q, u) := RemoveRange(p, t1, slot, 0, last);
      DropTable(q, u, slot, c);
    } else {
      DropTable(p, t, slot, c);
    }
  }

  /** Before the next chunk every state but the last is released. */
  lemma SkipLive(p: Pool, t: Tm, slot: Slot, c: nat)
    requires AlignMode(t) && Live(t, slot, c)
    ensures var u := RemoveSkipped(p, t, slot, c).1;
      && Live(u, slot, c) && AlignMode(u) && NumCached(u, slot) == NumCached(t, slot)
      && |Blocks(u, slot)| == |Blocks(t, slot)|
      && forall i :: 0 <= i < |Blocks(u, slot)| - 1 ==> Blocks(u, slot)[i] == NULL
  {
    hide RemoveSkipped, CDiv;
    var u := RemoveSkipped(p, t, slot, c).1;
    SkipTable(p, t, slot, c);
    RemoveSkippedShape(p, t, slot, c);
    LiveLength(t, slot, c);
    var n := |Blocks(t, slot)|;
    forall i | 0 <= i < n - 1 ensures Blocks(u, slot)[i] == NULL {
      if Blocks(t, slot)[i] != NULL { assert slot in t.lastState && i == t.lastState[slot]; }
    }
  }

  lemma SkipTracks(p: Pool, t: Tm, slot: Slot, c: nat, stops: set<nat>)
    requires AlignMode(t) && Tracks(t, slot, c, stops)
    ensures var u := RemoveSkipped(p, t, slot, c).1;
      && Tracks(u, slot, c, stops) && AlignMode(u)
      && forall i :: 0 <= i < |Blocks(u, slot)| - 1 ==> Blocks(u, slot)[i] == NULL
  {
    hide RemoveSkipped, Live;
    SkipLive(p, t, slot, c);
    RemoveSkippedShape(p, t, slot, c);
  }

  /** Skipping less than was computed may leave an earlier state, but takes nothing the request needs. */
  lemma SkipEarlier(p: Pool, t: Tm, slot: Slot, total: nat, c: nat, stops: set<nat>)
    requires AlignMode(t) && Tracks(t, slot, c, stops) && total <= c
    ensures var u := RemoveSkipped(p, t, slot, total).1; Tracks(u, slot, c, stops) && AlignMode(u)
  {
    hide RemoveSkipped, CDiv;
    SkipTable(p, t, slot, total);
    RemoveSkippedShape(p, t, slot, total);
    LiveLength(t, slot, c);
    CDivMono(total, c, Bs(t));
  }

  // ---- the next chunk ---------------------------------------------------------------

  lemma GrownTable(p: Pool, t: Tm, slot: Slot, m: nat)
    requires AlignMode(t) && m > 0 && AllocMamba(p, t, slot, m).ok && TmInv(p, t)
    ensures var u := AllocMamba(p, t, slot, m).tm;
      var n := |Blocks(t, slot)|;
      && u.group == t.group && u.numCached == t.numCached
      && (CDiv(m, Bs(t)) <= n ==> Blocks(u, slot) == Blocks(t, slot) && u.lastState == t.lastState
                                  && u.allocatedReqs == t.allocatedReqs)
      && (CDiv(m, Bs(t)) > n ==>
            && |Blocks(u, slot)| == CDiv(m, Bs(t)) && slot in u.allocatedReqs
            && (forall i :: 0 <= i < n ==> Blocks(u, slot)[i] == Blocks(t, slot)[i])
            && (forall i :: n <= i < |Blocks(u, slot)| - 1 ==> Blocks(u, slot)[i] == NULL)
            && (if n > 0 then slot in u.lastState && u.lastState[slot] == n - 1
                else u.lastState == t.lastState))
  {
    hide GetNew, CDiv;
    var need := CDiv(m, Bs(t));
    var n := |Blocks(t, slot)|;
    if need > n {
      assert slot in t.allocatedReqs ==> HasState(t, slot);
      PlainTable(t, slot, need);
      var u := MambaGrown(t, slot, need);
      var w := MambaFilled(u, slot, p.free[..Monus(need, |Blocks(u, slot)|)]);
      assert AllocMamba(p, t, slot, m).tm == w;
    }
  }

  lemma PlainTable(t: Tm, slot: Slot, need: nat)
    requires AlignMode(t) && need > |Blocks(t, slot)|
    ensures MambaTable(t, slot, need) == Blocks(t, slot) + Repeat<Id>(NULL, need - 1 - |Blocks(t, slot)|)
  {}

  /** A granted chunk keeps the previous state and a new running one. */
  lemma GrowLive(p: Pool, t: Tm, slot: Slot, c: nat, m: nat)
    requires AlignMode(t) && Live(t, slot, c) && Inv(p) && TmInv(p, t) && c < m && AllocMamba(p, t, slot, m).ok
    requires forall i :: 0 <= i < |Blocks(t, slot)| - 1 ==> Blocks(t, slot)[i] == NULL
    ensures Live(AllocMamba(p, t, slot, m).tm, slot, m) && AlignMode(AllocMamba(p, t, slot, m).tm)
  {
    hide AllocMamba, CDiv, TmInv, Inv;
    var u := AllocMamba(p, t, slot, m).tm;
    var n := |Blocks(t, slot)|;
    GrownTable(p, t, slot, m);
    LiveLength(t, slot, c);
    CDivMono(c, m, Bs(t));
    if CDiv(m, Bs(t)) > n {
      LastTaken(p, t, slot, m);
    } else {
      assert CDiv(m, Bs(t)) == n;
      StaysAllocated(t, slot, c, m);
    }
  }

  /** A table that grows gets its new running state off the front of the queue. */
  lemma LastFront(p: Pool, t: Tm, slot: Slot, m: nat)
    requires AlignMode(t) && CDiv(m, Bs(t)) > |Blocks(t, slot)| && AllocMamba(p, t, slot, m).ok
    ensures p.free != []
    ensures Blocks(AllocMamba(p, t, slot, m).tm, slot) == MambaTable(t, slot, CDiv(m, Bs(t))) + p.free[..1]
  {
    hide GetNew, CDiv, MambaTable, Slice;
    var need := CDiv(m, Bs(t));
    PlainTable(t, slot, need);
    assert AllocMamba(p, t, slot, m).tm == MambaFilled(MambaGrown(t, slot, need), slot, p.free[..1]);
  }

  /** The new running state is a block of the queue. */
  lemma LastTaken(p: Pool, t: Tm, slot: Slot, m: nat)
    requires AlignMode(t) && Inv(p) && CDiv(m, Bs(t)) > |Blocks(t, slot)| && AllocMamba(p, t, slot, m).ok
    ensures var v := Blocks(AllocMamba(p, t, slot, m).tm, slot); v != [] && v[|v| - 1] != NULL
  {
    hide AllocMamba, MambaTable, CDiv, Inv, FreeOk;
    LastFront(p, t, slot, m);
    InvParts(p);
    FrontIdle(p, 1);
    assert p.free[..1][0] in p.free[..1];
  }

  /** If the chunk leaves no block half done behind it, its end is the only new place to file at. */
  lemma GrowTracks(p: Pool, t: Tm, slot: Slot, c: nat, m: nat, stops: set<nat>)
    requires AlignMode(t) && Tracks(t, slot, c, stops) && Inv(p) && TmInv(p, t) && c < m && NoStraddle(c, m, Bs(t))
    requires forall i :: 0 <= i < |Blocks(t, slot)| - 1 ==> Blocks(t, slot)[i] == NULL
    requires AllocMamba(p, t, slot, m).ok
    ensures Tracks(AllocMamba(p, t, slot, m).tm, slot, m, stops + {m}) && AlignMode(AllocMamba(p, t, slot, m).tm)
  {
    hide AllocMamba, CDiv, TmInv, Inv, Live;
    var u := AllocMamba(p, t, slot, m).tm;
    var n := |Blocks(t, slot)|;
    GrowLive(p, t, slot, c, m);
    GrownTable(p, t, slot, m);
    LiveLength(t, slot, c);
    if CDiv(m, Bs(t)) > n && n > 0 && Blocks(t, slot)[n - 1] != NULL {
      WholeBlock(c, m, Bs(t));
      MulOrder(NumCached(t, slot), n, Bs(t));
    }
  }

  lemma CDivMono(a: nat, b: nat, bs: Pos)
    requires a <= b
    ensures CDiv(a, bs) <= CDiv(b, bs)
  {
    hide CDiv;
    CDivBounds(a, bs);
    CDivBounds(b, bs);
    MulOrder(CDiv(a, bs) - 1, CDiv(b, bs), bs);
  }

  lemma WholeBlock(c: nat, m: nat, bs: Pos)
    requires NoStraddle(c, m, bs) && CDiv(m, bs) > CDiv(c, bs)
    ensures CDiv(c, bs) * bs == c
  {
    hide CDiv;
    if c % bs == 0 {
      FloorBounds(c, bs);
      CDivExact(c / bs, bs);
    } else {
      CDivBounds(m, bs);
      MulOrder(CDiv(m, bs) - 1, CDiv(c, bs), bs);
    }
  }

  lemma StaysAllocated(t: Tm, slot: Slot, c: nat, m: nat)
    requires c < m && CDiv(m, Bs(t)) == |Blocks(t, slot)|
    ensures |Blocks(t, slot)| * Bs(t) != c
  {
    CDivBounds(m, Bs(t));
  }

  // ---- filing -----------------------------------------------------------------------

  /** Table indices whose state `cache_blocks` files. */
  function Filed(t: Tm, slot: Slot, tokens: nat): set<nat> {
    set i | NumCached(t, slot) <= i < tokens / Bs(t) && i < |Blocks(t, slot)| && Blocks(t, slot)[i] != NULL
  }

  /** A state is filed only under the hash of a token count where a chunk stopped. */
  lemma FiledAtStops(t: Tm, slot: Slot, m: nat, tokens: nat, stops: set<nat>, i: nat)
    requires AlignMode(t) && Tracks(t, slot, m, stops) && tokens <= m && i in Filed(t, slot, tokens)
    ensures (i + 1) * Bs(t) in stops
  {
    hide CDiv;
    var n := |Blocks(t, slot)|;
    LiveLength(t, slot, m);
    if i == n - 1 {
      MulOrder(NumCached(t, slot), n, Bs(t));
      CDivBounds(m, Bs(t));
      FloorBounds(tokens, Bs(t));
      MulOrder(tokens / Bs(t), n, Bs(t));
    }
  }

  lemma FileShape(p: Pool, t: Tm, slot: Slot, hashes: seq<Digest>, stride: nat, tokens: nat)
    ensures var u := CacheBlocks(p, t, slot, hashes, stride, tokens).1;
      && u.group == t.group && Blocks(u, slot) == Blocks(t, slot) && u.lastState == t.lastState
      && u.allocatedReqs == t.allocatedReqs
      && NumCached(u, slot) == Max(NumCached(t, slot), tokens / Bs(t))
  {
    hide CacheFull, StepKeys;
  }

  lemma FileTracks(p: Pool, t: Tm, slot: Slot, hashes: seq<Digest>, stride: nat, m: nat, tokens: nat, stops: set<nat>)
    requires AlignMode(t) && Tracks(t, slot, m, stops) && tokens <= m
    ensures var u := CacheBlocks(p, t, slot, hashes, stride, tokens).1; Tracks(u, slot, m, stops) && AlignMode(u)
  {
    hide CacheBlocks, CDiv;
    FileShape(p, t, slot, hashes, stride, tokens);
    FloorBounds(tokens, Bs(t));
    MulOrder(NumCached(t, slot), tokens / Bs(t), Bs(t));
  }

  /** A prefix hit starts the request off tracked, with nothing left to file. */
  lemma HitTracks(t: Tm, slot: Slot, hit: seq<Id>, c: nat)
    requires AlignMode(t) && Blocks(t, slot) == [] && slot !in t.allocatedReqs && slot !in t.lastState
    requires |hit| * Bs(t) == c
    requires (hit != [] ==> hit[|hit| - 1] != NULL && forall i :: 0 <= i < |hit| - 1 ==> hit[i] == NULL)
    ensures Tracks(AddTm(t, slot, hit, c), slot, c, {}) && AlignMode(AddTm(t, slot, hit, c))
    ensures forall i :: 0 <= i < |hit| - 1 ==> Blocks(AddTm(t, slot, hit, c), slot)[i] == NULL
    ensures |Blocks(AddTm(t, slot, hit, c), slot)| == |hit|
  {
    var n := |hit|;
    if n > 0 {
      HitSkips(n, Bs(t));
      assert SkippedBlocks(t, c) == n - 1;
      assert Kept(t, hit, c) == [hit[n - 1]];
    }
    var u := AddTm(t, slot, hit, c);
    AddTmShape(t, slot, hit, c);
    assert |Blocks(u, slot)| == n;
  }

  lemma HitSkips(n: nat, bs: Pos)
    requires n > 0
    ensures n * bs > 0 && (n * bs - 1) / bs == n - 1
  {
    hide *;
    var x := n * bs - 1;
    assert (n - 1) * bs == n * bs - bs;
    MulOrder(0, n, bs);
    FloorBounds(x, bs);
    MulOrder(x / bs, n, bs);
    MulOrder(n - 1, x / bs + 1, bs);
    assert (x / bs + 1) * bs == x / bs * bs + bs;
  }

  // ---- any sequence of calls --------------------------------------------------------

  /** The request's own part of the tables is the same. */
  predicate SameView(t: Tm, u: Tm, slot: Slot) {
    && u.group == t.group && Blocks(u, slot) == Blocks(t, slot)
    && (slot in u.lastState <==> slot in t.lastState)
    && (slot in t.lastState ==> u.lastState[slot] == t.lastState[slot])
    && (slot in u.allocatedReqs <==> slot in t.allocatedReqs)
  }

  /** One `allocate_slots` call as the group sees it: the pool and tables it finds, whether it is
      granted, the main-model count it asks for, and what it files. */
  datatype Turn = Turn(pool: Pool, tm: Tm, granted: bool, main: nat, hashes: seq<Digest>, stride: nat, tokens: nat)

  function Skipped(x: Turn, slot: Slot, c: nat): (Pool, Tm) { RemoveSkipped(x.pool, x.tm, slot, c) }

  function Taken(x: Turn, slot: Slot, c: nat): Step {
    AllocMamba(Skipped(x, slot, c).0, Skipped(x, slot, c).1, slot, x.main)
  }

  function EndOf(x: Turn, slot: Slot, c: nat): Tm {
    if !x.granted then Skipped(x, slot, c).1
    else CacheBlocks(Taken(x, slot, c).pool, Taken(x, slot, c).tm, slot, x.hashes, x.stride, x.tokens).1
  }

  function Reached(x: Turn, c: nat): nat { if x.granted then x.main else c }

  /** Each call finds the request's tables as the last one left them, and computes on from the last
      granted count; between calls other requests do what they like. */
  ghost predicate Calls(xs: seq<Turn>, slot: Slot, t: Tm, c: nat)
    decreases |xs|
  {
    xs == [] ||
    (var x := xs[0];
     && SameView(t, x.tm, slot) && Inv(x.pool) && TmInv(x.pool, x.tm) && Covered(x.pool, x.tm)
     && (x.granted ==> c < x.main && Taken(x, slot, c).ok)
     && Calls(xs[1..], slot, EndOf(x, slot, c), Reached(x, c)))
  }

  function FinalTm(xs: seq<Turn>, slot: Slot, t: Tm, c: nat): Tm
    decreases |xs|
  {
    if xs == [] then t else FinalTm(xs[1..], slot, EndOf(xs[0], slot, c), Reached(xs[0], c))
  }

  function FinalCount(xs: seq<Turn>, c: nat): nat {
    if xs == [] then c else FinalCount(xs[1..], Reached(xs[0], c))
  }

  lemma ViewLive(t: Tm, u: Tm, slot: Slot, c: nat)
    requires SameView(t, u, slot) && Live(t, slot, c)
    ensures Live(u, slot, c)
  {}

  lemma TurnLive(x: Turn, slot: Slot, t: Tm, c: nat)
    requires AlignMode(t) && Live(t, slot, c) && SameView(t, x.tm, slot)
    requires Inv(x.pool) && TmInv(x.pool, x.tm) && Covered(x.pool, x.tm)
    requires (x.granted ==> c < x.main && Taken(x, slot, c).ok)
    ensures Live(EndOf(x, slot, c), slot, Reached(x, c)) && AlignMode(EndOf(x, slot, c))
  {
    hide Live, RemoveSkipped, AllocMamba, CacheBlocks, Inv, TmInv, Covered, Released, Keeps;
    ViewLive(t, x.tm, slot, c);
    SkipLive(x.pool, x.tm, slot, c);
    RemoveSkippedOk(x.pool, x.tm, slot, c);
    var (q, u) := Skipped(x, slot, c);
    if x.granted {
      ReleasedInv(x.pool, x.tm, q, u, slot);
      GrowLive(q, u, slot, c, x.main);
      var w := Taken(x, slot, c);
      FileShape(w.pool, w.tm, slot, x.hashes, x.stride, x.tokens);
      ViewLive(w.tm, EndOf(x, slot, c), slot, x.main);
    }
  }

  lemma ReleasedInv(p: Pool, t: Tm, q: Pool, u: Tm, slot: Slot)
    requires Released(p, t, q, u, slot)
    ensures Inv(q) && TmInv(q, u)
  {}

  /** Over any such sequence of calls, of the request's entries only the last and one earlier are
      live: any three entries include a null one, and the running state is the last. */
  lemma {:induction false} AtMostTwoLive(xs: seq<Turn>, slot: Slot, t: Tm, c: nat)
    requires AlignMode(t) && Live(t, slot, c) && Calls(xs, slot, t, c)
    ensures Live(FinalTm(xs, slot, t, c), slot, FinalCount(xs, c))
    ensures var v := Blocks(FinalTm(xs, slot, t, c), slot);
      && (v != [] ==> v[|v| - 1] != NULL)
      && forall i, j :: 0 <= i < j < |v| - 1 ==> v[i] == NULL || v[j] == NULL
    decreases |xs|
  {
    hide Live, EndOf, Taken, SameView, Inv, TmInv, Covered;
    if xs == [] {
      LiveTwo(t, slot, c);
    } else {
      TurnLive(xs[0], slot, t, c);
      AtMostTwoLive(xs[1..], slot, EndOf(xs[0], slot, c), Reached(xs[0], c));
    }
  }

  lemma LiveTwo(t: Tm, slot: Slot, c: nat)
    requires Live(t, slot, c)
    ensures var v := Blocks(t, slot);
      && (v != [] ==> v[|v| - 1] != NULL)
      && forall i, j :: 0 <= i < j < |v| - 1 ==> v[i] == NULL || v[j] == NULL
  {}

  // ---- a first call that takes a prefix hit -----------------------------------------

  /** The group's tables once the call has skipped what `c` computed tokens leave behind and added the hit. */
  function Added(x: Turn, slot: Slot, hit: seq<Id>, c: nat): Step {
    AddLocal(Skipped(x, slot, c).0, Skipped(x, slot, c).1, slot, hit, c)
  }

  function TakenAfterHit(x: Turn, slot: Slot, hit: seq<Id>, c: nat): Step {
    AllocMamba(Added(x, slot, hit, c).pool, Added(x, slot, hit, c).tm, slot, x.main)
  }

  function EndAfterHit(x: Turn, slot: Slot, hit: seq<Id>, c: nat): Tm {
    var w := TakenAfterHit(x, slot, hit, c);
    CacheBlocks(w.pool, w.tm, slot, x.hashes, x.stride, x.tokens).1
  }

  /** A request without tables is granted a call with a hit of `c` tokens: one cached state, its last entry. */
  ghost predicate StartsFromHit(x: Turn, slot: Slot, hit: seq<Id>, c: nat) {
    && AlignMode(x.tm) && Blocks(x.tm, slot) == [] && slot !in x.tm.allocatedReqs && slot !in x.tm.lastState
    && Inv(x.pool) && TmInv(x.pool, x.tm) && Covered(x.pool, x.tm)
    && InRange(x.pool, hit) && (x.pool.caching || hit == []) && |hit| * Bs(x.tm) == c
    && (hit != [] ==> hit[|hit| - 1] != NULL && forall i :: 0 <= i < |hit| - 1 ==> hit[i] == NULL)
    && c < x.main && TakenAfterHit(x, slot, hit, c).ok
  }

  lemma HitTurnLive(x: Turn, slot: Slot, hit: seq<Id>, c: nat)
    requires StartsFromHit(x, slot, hit, c)
    ensures Live(EndAfterHit(x, slot, hit, c), slot, x.main) && AlignMode(EndAfterHit(x, slot, hit, c))
  {
    hide Live, RemoveSkipped, AllocMamba, AddLocal, AddTm, CacheBlocks, Inv, TmInv, Covered, Keeps, AtStops, Moved,
      NumEvictable, Kept;
    var (q, u) := Skipped(x, slot, c);
    RemoveSkippedOk(x.pool, x.tm, slot, c);
    RemoveSkippedShape(x.pool, x.tm, slot, c);
    ReleasedInv(x.pool, x.tm, q, u, slot);
    AddLocalOk(q, u, slot, hit, c);
    HitTracks(u, slot, hit, c);
    var a := Added(x, slot, hit, c);
    KeepsInv(q, u, a.pool, a.tm, slot);
    GrowLive(a.pool, a.tm, slot, c, x.main);
    var w := TakenAfterHit(x, slot, hit, c);
    FileShape(w.pool, w.tm, slot, x.hashes, x.stride, x.tokens);
    ViewLive(w.tm, EndAfterHit(x, slot, hit, c), slot, x.main);
  }

  lemma KeepsInv(p: Pool, t: Tm, q: Pool, u: Tm, slot: Slot)
    requires Keeps(p, t, q, u, slot)
    ensures Inv(q) && TmInv(q, u)
  {}

  /** The same for a request that starts from a prefix hit, however many calls follow. */
  lemma TwoLiveFromHit(x: Turn, xs: seq<Turn>, slot: Slot, hit: seq<Id>, c: nat)
    requires StartsFromHit(x, slot, hit, c) && Calls(xs, slot, EndAfterHit(x, slot, hit, c), x.main)
    ensures var v := Blocks(FinalTm(xs, slot, EndAfterHit(x, slot, hit, c), x.main), slot);
      && (v != [] ==> v[|v| - 1] != NULL)
      && forall i, j :: 0 <= i < j < |v| - 1 ==> v[i] == NULL || v[j] == NULL
  {
    hide StartsFromHit, EndAfterHit, Live, Calls;
    HitTurnLive(x, slot, hit, c);
    AtMostTwoLive(xs, slot, EndAfterHit(x, slot, hit, c), x.main);
  }
}
