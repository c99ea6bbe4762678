/** The boundary invariant through steps and whole runs. */
module BoundaryRuns {
  import opened Basics
  import opened PoolSpec
  import opened PoolInv
  import opened PoolCounts
  import opened TypeSpec
  import opened TypeInv
  import opened TypeAlloc
  import opened HitSpec
  import opened HitLookup
  import opened ManagerSpec
  import opened ManagerInv
  import opened Admission
  import opened SchedSpec
  import opened StepProps
  import opened RunInv
  import opened Served
  import opened CacheReset
  import opened TableSpec
  import opened MambaState
  import opened TokenCounts
  import opened Mutations
  import opened Boundaries
  import opened Commits

  /** A request and a token count where one of its chunks stopped. */
  datatype Mark = Mark(slot: Slot, count: nat)

  function StopsOf(marks: set<Mark>, x: Slot): set<nat> {
    set m | m in marks && m.slot == x :: m.count
  }

  /** Requests being computed, with their counts. */
  type Counts = map<Slot, nat>

  ghost predicate FollowAt(s: State, cs: Counts, marks: set<Mark>, g: nat, x: Slot) {
    g < |s.tms| &&
    if x in cs then Tracks(s.tms[g], x, cs[x], StopsOf(marks, x)) else Vacant(s.tms[g], x)
  }

  /** In every mamba group the requests being computed are tracked and all others are vacant. */
  ghost predicate Follow(s: State, cs: Counts, marks: set<Mark>) {
    forall g: nat, x: Slot :: MambaGroup(s.cfg, g) ==> FollowAt(s, cs, marks, g, x)
  }

  ghost predicate Following(s: State, cs: Counts, marks: set<Mark>, bs: Pos) {
    StateInv(s) && ScopeOk(s.cfg, bs) && Follow(s, cs, marks)
  }

  /** Whatever a mamba group's index gained is at a stop of some request. */
  ghost predicate Justified(s: State, r: State, marks: set<Mark>, bs: Pos) {
    forall k, b :: Entered(s.pool, r.pool, k, b) && MambaGroup(s.cfg, k.group) ==> ByStop(s, k, bs, marks)
  }

  ghost predicate ByStop(s: State, k: HashKey, bs: Pos, marks: set<Mark>) {
    exists x :: AtStop(s, x, k, bs, StopsOf(marks, x))
  }

  lemma MoreStops(s: State, r: State, k: HashKey, bs: Pos, marks: set<Mark>, more: set<Mark>)
    requires ByStop(s, k, bs, marks) && marks <= more && r.cfg == s.cfg && r.hashes == s.hashes
    ensures ByStop(r, k, bs, more)
  {
    hide KeyAt;
    var x :| AtStop(s, x, k, bs, StopsOf(marks, x));
    assert StopsOf(marks, x) <= StopsOf(more, x);
    assert Hashes(r, x) == Hashes(s, x);
    assert AtStop(r, x, k, bs, StopsOf(more, x));
  }

  lemma JustifiedTrans(s: State, q: State, r: State, marks: set<Mark>, more: set<Mark>, bs: Pos)
    requires Justified(s, q, marks, bs) && Justified(q, r, more, bs) && marks <= more
    requires q.cfg == s.cfg && q.hashes == s.hashes
    ensures Justified(s, r, more, bs)
  {
    hide ByStop, Entered;
    forall k, b | Entered(s.pool, r.pool, k, b) && MambaGroup(s.cfg, k.group) ensures ByStop(s, k, bs, more) {
      EnteredVia(s.pool, q.pool, r.pool, k, b);
      if Entered(s.pool, q.pool, k, b) {
        MoreStops(s, s, k, bs, marks, more);
      } else {
        MoreStops(q, s, k, bs, more, more);
      }
    }
  }

  lemma JustifiedSame(s: State, r: State, marks: set<Mark>, bs: Pos)
    requires r.pool.cached == s.pool.cached
    ensures Justified(s, r, marks, bs)
  {
    NothingEntered(s.pool, r.pool);
  }

  // ---- other requests are not affected ----------------------------------------------

  /** The slot's part of a group's tables, filed count included. */
  predicate SameFiled(t: Tm, u: Tm, slot: Slot) {
    SameView(t, u, slot) && NumCached(u, slot) == NumCached(t, slot) && (slot in u.numCached <==> slot in t.numCached)
  }

  lemma OtherFiled(t: Tm, u: Tm, slot: Slot, x: Slot)
    requires OnlySlot(t, u, slot) && x != slot
    ensures SameFiled(t, u, x)
  {
    OtherSlot(t, u, slot, x);
  }

  lemma FiledView(t: Tm, u: Tm, x: Slot, c: nat, stops: set<nat>)
    requires SameFiled(t, u, x)
    ensures Tracks(u, x, c, stops) <==> Tracks(t, x, c, stops)
    ensures Vacant(u, x) <==> Vacant(t, x)
  {}

  lemma MoreTracks(t: Tm, x: Slot, c: nat, stops: set<nat>, more: set<nat>)
    requires Tracks(t, x, c, stops) && stops <= more
    ensures Tracks(t, x, c, more)
  {
    hide Live;
  }

  /** A slot untouched between two states is followed as before, with at least the same marks. */
  lemma FollowsOn(s: State, r: State, cs: Counts, ds: Counts, marks: set<Mark>, more: set<Mark>, g: nat, x: Slot)
    requires FollowAt(s, cs, marks, g, x) && g < |r.tms| && SameFiled(s.tms[g], r.tms[g], x) && marks <= more
    requires (x in ds <==> x in cs) && (x in cs ==> ds[x] == cs[x])
    ensures FollowAt(r, ds, more, g, x)
  {
    hide Tracks, Vacant, SameFiled;
    FiledView(s.tms[g], r.tms[g], x, if x in cs then cs[x] else 0, StopsOf(marks, x));
    assert StopsOf(marks, x) <= StopsOf(more, x);
    if x in cs { MoreTracks(r.tms[g], x, cs[x], StopsOf(marks, x), StopsOf(more, x)); }
  }

  /** Only one slot's tables changed, and it is followed: so are all. */
  lemma FollowOne(s: State, r: State, cs: Counts, ds: Counts, marks: set<Mark>, more: set<Mark>, slot: Slot)
    requires Follow(s, cs, marks) && OnlySlotState(s, r, slot) && marks <= more
    requires forall x :: x != slot ==> (x in ds <==> x in cs) && (x in cs ==> ds[x] == cs[x])
    requires forall g :: MambaGroup(s.cfg, g) ==> FollowAt(r, ds, more, g, slot)
    ensures Follow(r, ds, more)
  {
    hide FollowAt, SameFiled;
    forall g: nat, x: Slot | MambaGroup(r.cfg, g) ensures FollowAt(r, ds, more, g, x) {
      assert FollowAt(s, cs, marks, g, x);
      FollowedGroup(s, cs, marks, g, x);
      if x != slot {
        assert OnlySlot(s.tms[g], r.tms[g], slot);
        OtherFiled(s.tms[g], r.tms[g], slot, x);
        FollowsOn(s, r, cs, ds, marks, more, g, x);
      }
    }
  }

  lemma FollowedGroup(s: State, cs: Counts, marks: set<Mark>, g: nat, x: Slot)
    requires FollowAt(s, cs, marks, g, x)
    ensures g < |s.tms|
  {}

  // ---- preemption -------------------------------------------------------------------

  lemma FreeVacant(s: State, slot: Slot, g: nat, bs: Pos)
    requires StateInv(s) && ScopeOk(s.cfg, bs) && MambaGroup(s.cfg, g)
    ensures g < |FreeSlot(s, slot).tms| && Vacant(FreeSlot(s, slot).tms[g], slot)
  {
    hide GInv, ConfigOk, FanOut, Do;
    MambaTm(s, g, bs);
    PlainOk(Release(slot), s.pool, s.tms, 0, []);
    var q := FanGroup(Release(slot), s.pool, s.tms, 0, [], g);
    ReleaseVacant(slot, q, s.tms[g]);
  }

  lemma ReleaseVacant(slot: Slot, p: Pool, t: Tm)
    requires AlignMode(t)
    ensures Vacant(Do(Release(slot), p, t).tm, slot)
  {
    hide FreeBlocks;
  }

  lemma {:induction false} FreeCached(slot: Slot, p: Pool, ts: seq<Tm>, i: nat, outs: seq<seq<nat>>)
    requires GInv(p, ts) && i <= |ts|
    ensures FanOut(Release(slot), p, ts, i, outs).pool.cached == p.cached
    decreases |ts| - i
  {
    hide Inv, Counted, TmInv, Free;
    if i < |ts| {
      GroupTables(p, ts, i);
      GroupCovered(p, ts, i);
      FreeSlotOk(p, ts[i], slot);
      var s := Do(Release(slot), p, ts[i]);
      GroupStep(p, ts, i, s.pool, s.tm, slot);
      FreeCached(slot, s.pool, ts[i := s.tm], i + 1, outs + [s.out]);
    }
  }

  lemma FreeFollows(s: State, slot: Slot, cs: Counts, marks: set<Mark>, bs: Pos)
    requires Following(s, cs, marks, bs)
    ensures Following(FreeSlot(s, slot), cs - {slot}, marks, bs) && FreeSlot(s, slot).pool.cached == s.pool.cached
    ensures FreeSlot(s, slot).cfg == s.cfg && FreeSlot(s, slot).hashes == s.hashes && FreeSlot(s, slot).table == s.table
  {
    hide StateInv, Follow, FanOut, Vacant, ScopeOk;
    var r := FreeSlot(s, slot);
    FreeSlotKeeps(s, slot);
    FreeParts(s, slot);
    forall g | MambaGroup(s.cfg, g) ensures FollowAt(r, cs - {slot}, marks, g, slot) { FreeVacant(s, slot, g, bs); }
    FollowOne(s, r, cs, cs - {slot}, marks, marks, slot);
  }

  lemma FreeParts(s: State, slot: Slot)
    requires StateInv(s)
    ensures FreeSlot(s, slot).pool.cached == s.pool.cached
  {
    FreeCached(slot, s.pool, s.tms, 0, []);
  }

  // ---- a running request's chunk ----------------------------------------------------

  lemma RunningStarts(s: State, e: Entry, n: nat, prm: Params, cs: Counts, marks: set<Mark>, g: nat, bs: Pos)
    requires Follow(s, cs, marks) && e.slot in cs && cs[e.slot] == e.computed && MambaGroup(s.cfg, g)
    ensures StartsAt(s, RunningCall(e, n, prm), g, bs, StopsOf(marks, e.slot))
    ensures g < |s.tms| && Tracks(s.tms[g], e.slot, e.computed, StopsOf(marks, e.slot))
  {
    hide Tracks;
    assert FollowAt(s, cs, marks, g, e.slot);
  }

  lemma AddMark(marks: set<Mark>, x: Slot, c: nat)
    ensures StopsOf(marks + {Mark(x, c)}, x) == StopsOf(marks, x) + {c}
    ensures forall y :: y != x ==> StopsOf(marks + {Mark(x, c)}, y) == StopsOf(marks, y)
  {
    var more := marks + {Mark(x, c)};
    forall m ensures m in StopsOf(more, x) <==> m in StopsOf(marks, x) + {c} {
      if m in StopsOf(marks, x) { assert Mark(x, m) in marks; }
      if m == c { assert Mark(x, c) in more; }
    }
    forall y | y != x ensures StopsOf(more, y) == StopsOf(marks, y) {
      forall m ensures m in StopsOf(more, y) <==> m in StopsOf(marks, y) {}
    }
  }

  lemma AllocateRunning(s: State, e: Entry, n: nat, prm: Params, cs: Counts, marks: set<Mark>, bs: Pos)
    requires Following(s, cs, marks, bs) && e.slot in cs && cs[e.slot] == e.computed && n > 0
    requires e.computed <= s.cfg.maxModelLen && NoStraddle(e.computed, e.computed + n, bs)
    ensures var (r, out) := AllocateSlots(s, RunningCall(e, n, prm));
      var more := marks + {Mark(e.slot, e.computed + n)};
      && r.cfg == s.cfg && r.hashes == s.hashes && r.table == s.table && !out.Failed?
      && (if out.Granted? then Following(r, cs[e.slot := e.computed + n], more, bs) && Justified(s, r, more, bs)
          else Following(r, cs, marks, bs) && Justified(s, r, marks, bs))
  {
    hide StateInv, Follow, AllocateSlots, Tracks, NoStraddle, StartsAt, ScopeOk, Vacant, AtStop, Entered, CallOk;
    var c := RunningCall(e, n, prm);
    var (r, out) := AllocateSlots(s, c);
    var more := marks + {Mark(e.slot, e.computed + n)};
    AddMark(marks, e.slot, e.computed + n);
    RunningCallOk(s, e, n, prm);
    AllOrNothing(s, c);
    AllocTable(s, c);
    forall g | MambaGroup(s.cfg, g)
      ensures FollowAt(r, if out.Granted? then cs[e.slot := e.computed + n] else cs,
                       if out.Granted? then more else marks, g, e.slot)
      ensures forall k, b :: Entered(s.pool, r.pool, k, b) && k.group == g ==>
                out.Granted? && AtStop(s, e.slot, k, bs, StopsOf(more, e.slot))
    {
      RunningStarts(s, e, n, prm, cs, marks, g, bs);
      AllocateFollows(s, c, g, bs, StopsOf(marks, e.slot));
    }
    if out.Granted? {
      FollowOne(s, r, cs, cs[e.slot := e.computed + n], marks, more, e.slot);
    } else {
      FollowOne(s, r, cs, cs, marks, marks, e.slot);
    }
    forall k, b | Entered(s.pool, r.pool, k, b) && MambaGroup(s.cfg, k.group)
      ensures out.Granted? && ByStop(s, k, bs, more)
    {
      assert AtStop(s, e.slot, k, bs, StopsOf(more, e.slot));
    }
  }

  function SlotsOf(slots: seq<Slot>): set<Slot> { set x | x in slots }

  /** What trying to allocate leaves: the freed are vacant, and a granted request is tracked on. */
  ghost predicate Tried(s: State, t: Try, e: Entry, n: nat, cs: Counts, marks: set<Mark>, bs: Pos) {
    && t.state.cfg == s.cfg && t.state.hashes == s.hashes && t.state.table == s.table && !t.outcome.Failed?
    && (if t.outcome.Granted? then
          var more := marks + {Mark(e.slot, e.computed + n)};
          && e.slot !in t.preempted
          && Following(t.state, (cs - SlotsOf(t.preempted))[e.slot := e.computed + n], more, bs)
          && Justified(s, t.state, more, bs)
        else Following(t.state, cs - SlotsOf(t.preempted), marks, bs) && Justified(s, t.state, marks, bs))
  }

  lemma FewerCounts(cs: Counts, preempted: seq<Slot>, v: Slot)
    requires forall x :: x in preempted ==> x !in cs
    ensures cs - SlotsOf(preempted) == cs
    ensures cs - SlotsOf(preempted + [v]) == cs - {v}
  {}

  lemma {:induction false} TryFollows(s: State, running: seq<Entry>, preempted: seq<Slot>, e: Entry, n: nat,
                                      prm: Params,
                                      cs: Counts, marks: set<Mark>, bs: Pos)
    requires Following(s, cs, marks, bs) && e.slot in cs && cs[e.slot] == e.computed && n > 0
    requires e.computed <= s.cfg.maxModelLen && NoStraddle(e.computed, e.computed + n, bs)
    requires forall x :: x in preempted ==> x !in cs
    ensures Tried(s, TryAllocate(s, running, preempted, e, n, prm), e, n, cs, marks, bs)
    ensures preempted <= TryAllocate(s, running, preempted, e, n, prm).preempted
    decreases |running|
  {
    hide Following, Justified, AllocateSlots, FreeSlot, NoStraddle;
    AllocateRunning(s, e, n, prm, cs, marks, bs);
    FewerCounts(cs, preempted, 0);
    var (s1, out) := AllocateSlots(s, RunningCall(e, n, prm));
    if out.Refused? && running != [] {
      var victim := running[|running| - 1];
      FewerCounts(cs, preempted, victim.slot);
      FreeFollows(s1, victim.slot, cs, marks, bs);
      var s2 := FreeSlot(s1, victim.slot);
      JustifiedSame(s1, s2, marks, bs);
      JustifiedTrans(s, s1, s2, marks, marks, bs);
      if victim.slot != e.slot {
        TryFollows(s2, running[..|running| - 1], preempted + [victim.slot], e, n, prm, cs - {victim.slot}, marks, bs);
        var t := TryAllocate(s, running, preempted, e, n, prm);
        assert t.preempted[|preempted|] == victim.slot;
        LaterTried(s, s2, t, e, n, cs, victim.slot, marks, bs);
      }
    }
  }

  lemma LaterTried(s: State, q: State, t: Try, e: Entry, n: nat, cs: Counts, v: Slot, marks: set<Mark>, bs: Pos)
    requires Tried(q, t, e, n, cs - {v}, marks, bs) && Justified(s, q, marks, bs) && v in t.preempted
    requires q.cfg == s.cfg && q.hashes == s.hashes && q.table == s.table
    ensures Tried(s, t, e, n, cs, marks, bs)
  {
    hide Following, Justified;
    assert cs - {v} - SlotsOf(t.preempted) == cs - SlotsOf(t.preempted);
    var more := marks + {Mark(e.slot, e.computed + n)};
    if t.outcome.Granted? {
      JustifiedTrans(s, q, t.state, marks, more, bs);
    } else {
      JustifiedTrans(s, q, t.state, marks, marks, bs);
    }
  }

  // ---- the running loop -------------------------------------------------------------

  /** Counts once the chunks of `run` are done. */
  function CountsAfter(cs: Counts, run: seq<Scheduled>): Counts {
    if run == [] then cs
    else
      var c := CountsAfter(cs, run[..|run| - 1]);
      var x := run[|run| - 1];
      if x.slot in c then c[x.slot := c[x.slot] + x.tokens] else c
  }

  /** Marks once the chunks of `run` are done. */
  function MarksAfter(cs: Counts, marks: set<Mark>, run: seq<Scheduled>): set<Mark> {
    if run == [] then marks
    else
      var c := CountsAfter(cs, run[..|run| - 1]);
      var x := run[|run| - 1];
      MarksAfter(cs, marks, run[..|run| - 1]) + (if x.slot in c then {Mark(x.slot, c[x.slot] + x.tokens)} else {})
  }

  lemma {:induction false} CountsOthers(cs: Counts, run: seq<Scheduled>, x: Slot)
    ensures x in CountsAfter(cs, run) <==> x in cs
    ensures x in cs && (forall k :: 0 <= k < |run| ==> run[k].slot != x) ==> CountsAfter(cs, run)[x] == cs[x]
    decreases |run|
  {
    if run != [] { CountsOthers(cs, run[..|run| - 1], x); }
  }

  lemma CountsNext(cs: Counts, marks: set<Mark>, run: seq<Scheduled>, x: Slot, n: nat)
    requires x in cs && forall k :: 0 <= k < |run| ==> run[k].slot != x
    ensures CountsAfter(cs, run + [Scheduled(x, n)]) == CountsAfter(cs, run)[x := cs[x] + n]
    ensures MarksAfter(cs, marks, run + [Scheduled(x, n)]) == MarksAfter(cs, marks, run) + {Mark(x, cs[x] + n)}
  {
    assert (run + [Scheduled(x, n)])[..|run|] == run;
    CountsOthers(cs, run, x);
  }

  /** The running queue agrees with the counts, and each request is in phase. */
  ghost predicate QueueFollows(all: seq<Entry>, cs: Counts, prm: Params, c: Config, bs: Pos) {
    && DistinctSlots(all) && prm.aligned && prm.cacheBlock == bs && prm.sampled == 1 && prm.maxModelLen <= c.maxModelLen
    && forall j :: 0 <= j < |all| ==>
         all[j].slot in cs && cs[all[j].slot] == all[j].computed && Phase(all[j], bs)
           && all[j].tokens + all[j].placeholders + 1 < WORD
  }

  /** A queue entry not reached yet has neither been scheduled nor preempted. */
  lemma NotYet(all: seq<Entry>, running: seq<Entry>, i: nat, budget: nat, d: Decisions, total: nat)
    requires Books(all, running, i, budget, d, total) && DistinctSlots(all) && i < |running|
    ensures running[i] == all[i] && all[i].slot !in d.preempted
    ensures forall k :: 0 <= k < |d.running| ==> d.running[k].slot != all[i].slot
  {
    var x := all[i].slot;
    assert Slots(all)[i] == x;
    forall k | 0 <= k < |d.running| ensures d.running[k].slot != x {
      assert d.running[k].slot in Slots(all[..i]);
      var a :| 0 <= a < i && Slots(all[..i])[a] == d.running[k].slot;
      assert Slots(all)[a] == d.running[k].slot;
    }
    forall b | 0 <= b < |d.preempted| ensures d.preempted[b] != x {
      var k := |d.preempted| - 1 - b;
      assert Slots(all)[|running| + k] == Reverse(d.preempted)[k] == d.preempted[b];
    }
  }

  /** The loop invariant: what has been scheduled has moved on, what was preempted is gone. */
  ghost predicate RunFollows(s0: State, s: State, d: Decisions, cs: Counts, marks: set<Mark>, bs: Pos) {
    && s.cfg == s0.cfg && s.hashes == s0.hashes && s.table == s0.table
    && Following(s, CountsAfter(cs, d.running) - SlotsOf(d.preempted), MarksAfter(cs, marks, d.running), bs)
    && Justified(s0, s, MarksAfter(cs, marks, d.running), bs)
  }

  lemma GrantFollows(s0: State, s: State, d: Decisions, cs: Counts, marks: set<Mark>, bs: Pos, t: Try, e: Entry, n: nat)
    requires RunFollows(s0, s, d, cs, marks, bs) && t.outcome.Granted? && d.preempted <= t.preempted
    requires e.slot in cs && cs[e.slot] == e.computed
    requires forall k :: 0 <= k < |d.running| ==> d.running[k].slot != e.slot
    requires Tried(s, t, e, n, CountsAfter(cs, d.running) - SlotsOf(d.preempted), MarksAfter(cs, marks, d.running), bs)
    ensures RunFollows(s0, t.state, Record(d.(preempted := t.preempted), e.slot, n, t.outcome.blocks), cs, marks, bs)
  {
    hide Following, Justified;
    CountsNext(cs, marks, d.running, e.slot, n);
    var c, m := CountsAfter(cs, d.running), MarksAfter(cs, marks, d.running);
    assert forall v :: v in d.preempted ==> v in t.preempted;
    assert (c - SlotsOf(d.preempted) - SlotsOf(t.preempted))[e.slot := e.computed + n]
        == c[e.slot := e.computed + n] - SlotsOf(t.preempted);
    JustifiedTrans(s0, s, t.state, m, m + {Mark(e.slot, e.computed + n)}, bs);
  }

  lemma RefuseFollows(s0: State, s: State, d: Decisions, cs: Counts, marks: set<Mark>, bs: Pos, t: Try, e: Entry,
                      n: nat)
    requires RunFollows(s0, s, d, cs, marks, bs) && t.outcome.Refused? && d.preempted <= t.preempted
    requires Tried(s, t, e, n, CountsAfter(cs, d.running) - SlotsOf(d.preempted), MarksAfter(cs, marks, d.running), bs)
    ensures RunFollows(s0, t.state, d.(preempted := t.preempted), cs, marks, bs)
  {
    hide Following, Justified;
    var c, m := CountsAfter(cs, d.running), MarksAfter(cs, marks, d.running);
    assert forall v :: v in d.preempted ==> v in t.preempted;
    assert c - SlotsOf(d.preempted) - SlotsOf(t.preempted) == c - SlotsOf(t.preempted);
    JustifiedTrans(s0, s, t.state, m, m, bs);
  }

  lemma {:induction false} RunningFollows(all: seq<Entry>, s0: State, s: State, running: seq<Entry>, i: nat,
                                          budget: nat, d: Decisions,
                                          prm: Params, total: nat, cs: Counts, marks: set<Mark>, bs: Pos)
    requires Books(all, running, i, budget, d, total) && QueueFollows(all, cs, prm, s.cfg, bs)
    requires RunFollows(s0, s, d, cs, marks, bs)
    ensures var l := RunRunning(s, running, i, budget, d, prm); l.ok && RunFollows(s0, l.state, l.d, cs, marks, bs)
    decreases |running| - i
  {
    hide TryAllocate, RunningTokens, Following, Justified, Books, Phase, NoStraddle;
    if i < |running| && budget > 0 {
      var e := running[i];
      NotYet(all, running, i, budget, d, total);
      var n := RunningTokens(e, budget, prm);
      RunningWithin(e, budget, prm);
      if n == 0 {
        BooksSkip(all, running, i, budget, d, total);
        RunningFollows(all, s0, s, running, i + 1, budget, d, prm, total, cs, marks, bs);
      } else {
        BooksIn(all, running, i, budget, d, total);
        TryTail(all, s, running, d.preempted, i, n, prm);
        ChunkPhase(e, budget, prm, bs);
        CountsOthers(cs, d.running, e.slot);
        TryFollows(s, running, d.preempted, e, n, prm, CountsAfter(cs, d.running) - SlotsOf(d.preempted),
                   MarksAfter(cs, marks, d.running), bs);
        var t := TryAllocate(s, running, d.preempted, e, n, prm);
        if t.outcome.Granted? {
          GrantFollows(s0, s, d, cs, marks, bs, t, e, n);
          BooksRecord(all, running, i, budget, d, total, n, t.running, t.preempted, t.outcome.blocks);
          RunningFollows(all, s0, t.state, t.running, i + 1, budget - n,
                         Record(d.(preempted := t.preempted), e.slot, n, t.outcome.blocks),
                         prm, total, cs, marks, bs);
        } else {
          RefuseFollows(s0, s, d, cs, marks, bs, t, e, n);
        }
      }
    }
  }

  lemma BooksSkip(all: seq<Entry>, running: seq<Entry>, i: nat, budget: nat, d: Decisions, total: nat)
    requires Books(all, running, i, budget, d, total) && i < |running|
    ensures Books(all, running, i + 1, budget, d, total)
  {
    PrefixGrows(all, i, d.running, 0);
  }

  lemma BooksIn(all: seq<Entry>, running: seq<Entry>, i: nat, budget: nat, d: Decisions, total: nat)
    requires Books(all, running, i, budget, d, total)
    ensures Tail(all, running, d.preempted)
  {}

  // ---- admission --------------------------------------------------------------------

  /** A waiting request in scope: nothing computed or outstanding, no drafts, within the model. */
  predicate Admissible(e: Entry, c: Config) {
    && e.computed == 0 && e.placeholders == 0 && e.tokensWithSpec == e.tokens
    && 0 < e.tokens <= c.maxModelLen && e.tokens + 1 < WORD
  }

  lemma HitAligned(s: State, slot: Slot, cap: nat, g: nat, bs: Pos)
    requires StateInv(s) && ScopeOk(s.cfg, bs) && MambaGroup(s.cfg, g) && s.cfg.caching
    ensures HitShape(HitTable(s, slot, HitLength(s, slot, cap))[g], HitLength(s, slot, cap), bs)
  {
    hide GInv, KeyAt, Longest;
    var l, h := LookupOf(s, slot), HitLength(s, slot, cap);
    assert Good(l, s.cfg.specs, ManagerSpec.Align(s.cfg), h);
    assert Grouped(s.cfg, g);
    var j :| 0 <= j < |s.cfg.specs| && g in s.cfg.specs[j].gids;
    var sg := s.cfg.specs[j];
    assert sg.kind == s.cfg.groups[g].kind && sg.blockSize == s.cfg.groups[g].blockSize == bs;
    assert Resumable(l, sg, h);
    StateShape(s, l, sg, g, h);
  }

  lemma StateShape(s: State, l: Lookup, sg: SpecGroup, g: nat, h: nat)
    requires StateInv(s) && l.index == s.pool.cached && sg.kind.Mamba? && g in sg.gids && Resumable(l, sg, h)
    ensures HitShape(HitBlocks(l, Mamba, sg.blockSize, g, h), h, sg.blockSize)
  {
    hide GInv, KeyAt, ConfigOk;
    Exact(h, sg.blockSize);
    var n := h / sg.blockSize;
    if n > 0 {
      assert Cached(l, sg, n - 1);
      var k := KeyAt(l.hashes, Stride(l, sg.blockSize), g, n - 1);
      assert CachedBlock(l, sg.blockSize, g, n - 1).Some?;
      GroupIndex(s);
      IndexedExists(s.pool, k.value);
    }
  }

  lemma GroupIndex(s: State)
    requires StateInv(s)
    ensures IndexOk(s.pool)
  {}

  lemma AskHit(s: State, e: Entry, prm: Params, g: nat, bs: Pos)
    requires StateInv(s) && ScopeOk(s.cfg, bs) && MambaGroup(s.cfg, g) && e.computed == 0
    ensures var a := AskOf(s, e, prm);
      && a.state == s.(pending := a.state.pending, uncached := a.state.uncached, hitLen := a.state.hitLen)
      && |a.state.pending| == |s.cfg.groups| && HitShape(a.state.pending[g], a.hit, bs) && a.computed == a.hit
      && a.hit <= Monus(e.tokens, 1) && a.hit % bs == 0
  {
    hide GInv, HitTable, HitLength, Uncached, ConfigOk;
    if s.cfg.caching && !e.skipCache {
      HitAligned(s, e.slot, Monus(e.tokens, 1), g, bs);
      HitTableExists(s, e.slot, HitLength(s, e.slot, Monus(e.tokens, 1)));
      HitBound(s, e.slot, Monus(e.tokens, 1));
      Whole(|AskOf(s, e, prm).state.pending[g]|, bs);
    } else {
      assert HitShape([], 0, bs);
      assert 0 % bs == 0;
    }
  }

  lemma PlainAsk(s: State, e: Entry, prm: Params)
    requires StateInv(s) && e.computed == 0
    ensures var a := AskOf(s, e, prm);
      && a.state == s.(pending := a.state.pending, uncached := a.state.uncached, hitLen := a.state.hitLen)
      && a.computed == a.hit && a.hit <= Monus(e.tokens, 1)
  {
    hide GInv, HitTable, HitLength, Uncached, ConfigOk;
    HitBound(s, e.slot, Monus(e.tokens, 1));
  }

  lemma NoMarks(marks: set<Mark>, x: Slot)
    requires forall m :: m in marks ==> m.slot != x
    ensures StopsOf(marks, x) == {}
  {}

  lemma AdmitStarts(s: State, a: State, c: Call, g: nat, bs: Pos)
    requires MambaGroup(a.cfg, g) && g < |a.tms| && Vacant(a.tms[g], c.slot) && c.computed == 0 && c.usePending
    requires |a.pending| == |a.cfg.groups| && HitShape(a.pending[g], c.newComputed, bs)
    ensures StartsAt(a, c, g, bs, {})
  {
    if !HasHit(a.pending) { assert a.pending[g] == []; }
  }

  /** Nothing has been marked or counted for the slot. */
  ghost predicate Unseen(cs: Counts, marks: set<Mark>, x: Slot) {
    x !in cs && forall m :: m in marks ==> m.slot != x
  }

  lemma ChunkOf(a: Ask, e: Entry, budget: nat, prm: Params, c: Config, bs: Pos)
    requires Admissible(e, c) && prm.aligned && prm.cacheBlock == bs && a.computed == a.hit < e.tokens
    requires a.hit % bs == 0
    requires a.tokens == LongCap(Sub64(e.tokens, a.computed), prm) && WaitingTokens(a, e, budget, prm) > 0
    ensures var n := WaitingTokens(a, e, budget, prm);
      && NoStraddle(a.hit, a.hit + n, bs) && Begun(e, Admitted(e.slot, n, a.hit), bs)
  {
    hide Split, NoStraddle, Phase, StopsWell, Enter;
    assert Sub64(e.tokens, a.computed) == e.tokens - a.computed;
    AdmitPhase(e, Min(a.tokens, budget), a.hit, a.state.uncached, bs);
  }

  /** One waiting request, admitted or not. */
  lemma AllocateAdmit(s: State, e: Entry, budget: nat, prm: Params, others: bool, cs: Counts, marks: set<Mark>, bs: Pos)
    requires Following(s, cs, marks, bs) && Unseen(cs, marks, e.slot) && Admissible(e, s.cfg) && Blank(s.tms, e.slot)
    requires prm.aligned && prm.cacheBlock == bs && (exists g :: MambaGroup(s.cfg, g))
    ensures var a := AskOf(s, e, prm);
      var n := WaitingTokens(a, e, budget, prm);
      n > 0 ==>
        var (r, out) := AllocateSlots(a.state, WaitingCall(e, n, a.hit, prm, others));
        var more := marks + {Mark(e.slot, a.computed + n)};
        && r.cfg == s.cfg && r.hashes == s.hashes && r.table == s.table && !out.Failed?
        && OnlySlotState(a.state, r, e.slot)
        && (if out.Granted? then
              Following(r, cs[e.slot := a.computed + n], more, bs) && Justified(s, r, more, bs)
              && Begun(e, Admitted(e.slot, n, a.computed), bs)
            else Following(r, cs, marks, bs) && Justified(s, r, marks, bs))
  {
    hide StateInv, Follow, AllocateSlots, AskOf, WaitingTokens, Tracks, NoStraddle, StartsAt, ScopeOk, Vacant, AtStop,
         Entered, CallOk,
         Begun, HitShape, HitsExist, Blank;
    PlainAsk(s, e, prm);
    AskKeeps(s, e, prm);
    var a := AskOf(s, e, prm);
    var n := WaitingTokens(a, e, budget, prm);
    var g0 :| MambaGroup(s.cfg, g0);
    AskHit(s, e, prm, g0, bs);
    AskCap(s, e, prm);
    if n > 0 {
      ChunkOf(a, e, budget, prm, s.cfg, bs);
      WaitingCallOk(s, a, e, n, prm, others);
      var c := WaitingCall(e, n, a.hit, prm, others);
      var (r, out) := AllocateSlots(a.state, c);
      var more := marks + {Mark(e.slot, a.computed + n)};
      AddMark(marks, e.slot, a.computed + n);
      NoMarks(marks, e.slot);
      AllOrNothing(a.state, c);
      AllocTable(a.state, c);
      forall g | MambaGroup(s.cfg, g)
        ensures FollowAt(r, if out.Granted? then cs[e.slot := a.computed + n] else cs,
                         if out.Granted? then more else marks, g, e.slot)
        ensures forall k, b :: Entered(s.pool, r.pool, k, b) && k.group == g ==>
                  out.Granted? && AtStop(s, e.slot, k, bs, StopsOf(more, e.slot))
      {
        AdmitGroup(s, e, a, n, prm, others, cs, marks, g, bs);
      }
      FollowAsk(s, a.state, cs, marks);
      if out.Granted? {
        FollowOne(a.state, r, cs, cs[e.slot := a.computed + n], marks, more, e.slot);
      } else {
        FollowOne(a.state, r, cs, cs, marks, marks, e.slot);
      }
      forall k, b | Entered(s.pool, r.pool, k, b) && MambaGroup(s.cfg, k.group)
        ensures out.Granted? && ByStop(s, k, bs, more)
      {
        assert AtStop(s, e.slot, k, bs, StopsOf(more, e.slot));
      }
    }
  }

  lemma AskCap(s: State, e: Entry, prm: Params)
    ensures var a := AskOf(s, e, prm); a.tokens == LongCap(Sub64(e.tokens, a.computed), prm)
  {
    hide GetComputed;
  }

  lemma FollowAsk(s: State, a: State, cs: Counts, marks: set<Mark>)
    requires Follow(s, cs, marks) && a == s.(pending := a.pending, uncached := a.uncached, hitLen := a.hitLen)
    ensures Follow(a, cs, marks)
  {
    hide Tracks, Vacant;
    forall g: nat, x: Slot | MambaGroup(a.cfg, g)
      ensures FollowAt(a, cs, marks, g, x)
    {
      assert FollowAt(s, cs, marks, g, x);
    }
  }

  /** Admission in group `g`. */
  lemma AdmitGroup(s: State, e: Entry, a: Ask, n: nat, prm: Params, others: bool, cs: Counts, marks: set<Mark>, g: nat,
                   bs: Pos)
    requires Following(s, cs, marks, bs) && Unseen(cs, marks, e.slot) && Admissible(e, s.cfg) && MambaGroup(s.cfg, g)
    requires a == AskOf(s, e, prm) && n > 0 && NoStraddle(a.hit, a.hit + n, bs)
    requires StateInv(a.state) && CallOk(a.state, WaitingCall(e, n, a.hit, prm, others))
    ensures var (r, out) := AllocateSlots(a.state, WaitingCall(e, n, a.hit, prm, others));
      var more := marks + {Mark(e.slot, a.computed + n)};
      && FollowAt(r, if out.Granted? then cs[e.slot := a.computed + n] else cs, if out.Granted? then more else marks,
                  g, e.slot)
      && forall k, b :: Entered(s.pool, r.pool, k, b) && k.group == g ==>
           out.Granted? && AtStop(s, e.slot, k, bs, StopsOf(more, e.slot))
  {
    hide StateInv, AllocateSlots, AskOf, Tracks, NoStraddle, StartsAt, ScopeOk, Vacant, AtStop, Entered, CallOk,
         HitShape;
    AskHit(s, e, prm, g, bs);
    NoMarks(marks, e.slot);
    AddMark(marks, e.slot, a.computed + n);
    assert FollowAt(s, cs, marks, g, e.slot);
    var c := WaitingCall(e, n, a.hit, prm, others);
    AdmitStarts(s, a.state, c, g, bs);
    AllocateFollows(a.state, c, g, bs, {});
    var r := AllocateSlots(a.state, c).0;
    forall k, b | Entered(s.pool, r.pool, k, b) && k.group == g
      ensures AtStop(s, e.slot, k, bs, StopsOf(marks + {Mark(e.slot, a.computed + n)}, e.slot))
    {
      SameCached(s.pool, a.state.pool, r.pool);
      SameStops(s, a.state, e.slot, k, bs, {} + {a.computed + n});
    }
  }

  function CountsAdmitted(cs: Counts, adm: seq<Admitted>): Counts {
    if adm == [] then cs
    else
      var a := adm[|adm| - 1];
      CountsAdmitted(cs, adm[..|adm| - 1])[a.slot := a.computed + a.tokens]
  }

  function MarksAdmitted(marks: set<Mark>, adm: seq<Admitted>): set<Mark> {
    if adm == [] then marks
    else
      var a := adm[|adm| - 1];
      MarksAdmitted(marks, adm[..|adm| - 1]) + {Mark(a.slot, a.computed + a.tokens)}
  }

  /** The waiting queue from `k` on: admissible, distinct, never seen. */
  ghost predicate QueueUnseen(waiting: seq<Entry>, k: nat, cs: Counts, marks: set<Mark>, c: Config) {
    DistinctSlots(waiting) && forall j :: k <= j < |waiting| ==>
      Admissible(waiting[j], c) && Unseen(cs, marks, waiting[j].slot)
  }

  /** An admitted chunk stops well and leaves its request in phase. */
  predicate Begun(e: Entry, a: Admitted, bs: Pos) {
    Phase(Enter(e, a, 1), bs) && StopsWell(a.computed, a.tokens, e.tokens, bs)
  }

  /** So does each of them. */
  predicate InPhase(waiting: seq<Entry>, adm: seq<Admitted>, bs: Pos) {
    |adm| <= |waiting| && forall k :: 0 <= k < |adm| ==> adm[k].slot == waiting[k].slot && Begun(waiting[k], adm[k], bs)
  }

  ghost predicate AdmitFollows(s0: State, s: State, adm: seq<Admitted>, cs: Counts, marks: set<Mark>, bs: Pos) {
    && s.cfg == s0.cfg && s.hashes == s0.hashes && s.table == s0.table
    && Following(s, CountsAdmitted(cs, adm), MarksAdmitted(marks, adm), bs) && marks <= MarksAdmitted(marks, adm)
    && Justified(s0, s, MarksAdmitted(marks, adm), bs)
  }

  lemma AdmittedNext(cs: Counts, marks: set<Mark>, adm: seq<Admitted>, a: Admitted)
    ensures CountsAdmitted(cs, adm + [a]) == CountsAdmitted(cs, adm)[a.slot := a.computed + a.tokens]
    ensures MarksAdmitted(marks, adm + [a]) == MarksAdmitted(marks, adm) + {Mark(a.slot, a.computed + a.tokens)}
  {
    assert (adm + [a])[..|adm|] == adm;
  }

  lemma UnseenNext(waiting: seq<Entry>, k: nat, cs: Counts, marks: set<Mark>, c: Config, m: nat)
    requires k < |waiting| && QueueUnseen(waiting, k, cs, marks, c)
    ensures QueueUnseen(waiting, k + 1, cs[waiting[k].slot := m], marks + {Mark(waiting[k].slot, m)}, c)
  {
    forall j | k + 1 <= j < |waiting|
      ensures waiting[j].slot != waiting[k].slot
    {
      assert Slots(waiting)[k] != Slots(waiting)[j];
    }
  }

  lemma FollowLooked(s: State, r: State, cs: Counts, marks: set<Mark>, bs: Pos)
    requires Following(s, cs, marks, bs) && StateInv(r) && LookedUp(s, r)
    ensures Following(r, cs, marks, bs) && Justified(s, r, marks, bs)
  {
    hide StateInv, Follow, Justified;
    FollowAsk(s, r, cs, marks);
    JustifiedSame(s, r, marks, bs);
  }

  lemma {:induction false} WaitingFollows(s0: State, s: State, running: seq<Entry>, waiting: seq<Entry>, k: nat,
                                          budget: nat, d: Decisions,
                                          prm: Params, cs: Counts, marks: set<Mark>, bs: Pos)
    requires k <= |waiting| && |d.admitted| == k && InPhase(waiting, d.admitted, bs)
    requires AdmitFollows(s0, s, d.admitted, cs, marks, bs)
    requires QueueOk(s.tms, waiting, k) && prm.aligned && prm.cacheBlock == bs && exists g :: MambaGroup(s.cfg, g)
    requires QueueUnseen(waiting, k, CountsAdmitted(cs, d.admitted), MarksAdmitted(marks, d.admitted), s.cfg)
    ensures var w := RunWaiting(s, running, waiting, k, budget, d, prm);
      && w.ok && |w.d.admitted| == w.taken && InPhase(waiting, w.d.admitted, bs) && w.d == d.(admitted := w.d.admitted)
      && AdmitFollows(s0, w.state, w.d.admitted, cs, marks, bs)
    decreases |waiting| - k
  {
    hide Following, Justified, AllocateSlots, AskOf, WaitingTokens, Begun, QueueOk, StateInv, Blank, WaitingCall,
         OnlySlotState,
         AdmitFollows, QueueUnseen, CountsAdmitted, MarksAdmitted;
    if k < |waiting| && budget > 0 && |running| < prm.maxRunning {
      var e := waiting[k];
      var c, m := CountsAdmitted(cs, d.admitted), MarksAdmitted(marks, d.admitted);
      FollowParts(s0, s, d.admitted, cs, marks, bs);
      UnseenHead(waiting, k, c, m, s.cfg);
      QueueHead(s.tms, waiting, k);
      AskKeeps(s, e, prm);
      NoHit(s, e, prm);
      AskableTokens(s, e, prm);
      var a := AskOf(s, e, prm);
      AllocateAdmit(s, e, budget, prm, running != [], c, m, bs);
      AskFollows(s0, s, e, prm, d.admitted, cs, marks, bs);
      var n := WaitingTokens(a, e, budget, prm);
      if n > 0 && !(!prm.chunked && a.tokens > budget) {
        WaitingWithin(a, e, budget, prm);
        var (r, out) := AllocateSlots(a.state, WaitingCall(e, n, a.hit, prm, running != []));
        if out.Granted? {
          AdmitGranted(s0, s, r, d.admitted, Admitted(e.slot, n, a.computed), cs, marks, bs);
          UnseenNext(waiting, k, c, m, s.cfg, a.computed + n);
          SameQueue(s.tms, a.state.tms, waiting, k);
          BlankOthers(a.state, r, waiting, k);
          WaitingFollows(s0, r, running + [e], waiting, k + 1, Monus(budget, n),
                         d.(admitted := d.admitted + [Admitted(e.slot, n, a.computed)]), prm, cs, marks, bs);
        } else {
          AdmitRefused(s0, s, r, d.admitted, cs, marks, bs);
        }
      }
    }
  }

  lemma AdmitGranted(s0: State, s: State, r: State, adm: seq<Admitted>, a: Admitted, cs: Counts, marks: set<Mark>,
                     bs: Pos)
    requires AdmitFollows(s0, s, adm, cs, marks, bs) && r.cfg == s.cfg && r.hashes == s.hashes && r.table == s.table
    requires var more := MarksAdmitted(marks, adm) + {Mark(a.slot, a.computed + a.tokens)};
      Following(r, CountsAdmitted(cs, adm)[a.slot := a.computed + a.tokens], more, bs) && Justified(s, r, more, bs)
    ensures AdmitFollows(s0, r, adm + [a], cs, marks, bs)
    ensures CountsAdmitted(cs, adm + [a]) == CountsAdmitted(cs, adm)[a.slot := a.computed + a.tokens]
    ensures MarksAdmitted(marks, adm + [a]) == MarksAdmitted(marks, adm) + {Mark(a.slot, a.computed + a.tokens)}
  {
    hide Following, Justified;
    AdmittedNext(cs, marks, adm, a);
    JustifiedTrans(s0, s, r, MarksAdmitted(marks, adm), MarksAdmitted(marks, adm + [a]), bs);
  }

  lemma AdmitRefused(s0: State, s: State, r: State, adm: seq<Admitted>, cs: Counts, marks: set<Mark>, bs: Pos)
    requires AdmitFollows(s0, s, adm, cs, marks, bs) && r.cfg == s.cfg && r.hashes == s.hashes && r.table == s.table
    requires Following(r, CountsAdmitted(cs, adm), MarksAdmitted(marks, adm), bs)
    requires Justified(s, r, MarksAdmitted(marks, adm), bs)
    ensures AdmitFollows(s0, r, adm, cs, marks, bs)
  {
    hide Following, Justified;
    JustifiedTrans(s0, s, r, MarksAdmitted(marks, adm), MarksAdmitted(marks, adm), bs);
  }

  lemma FollowParts(s0: State, s: State, adm: seq<Admitted>, cs: Counts, marks: set<Mark>, bs: Pos)
    requires AdmitFollows(s0, s, adm, cs, marks, bs)
    ensures Following(s, CountsAdmitted(cs, adm), MarksAdmitted(marks, adm), bs) && StateInv(s)
    ensures s.cfg == s0.cfg && s.hashes == s0.hashes && s.table == s0.table
  {
    hide StateInv, Follow, Justified;
  }

  lemma UnseenHead(waiting: seq<Entry>, k: nat, cs: Counts, marks: set<Mark>, c: Config)
    requires k < |waiting| && QueueUnseen(waiting, k, cs, marks, c)
    ensures Admissible(waiting[k], c) && Unseen(cs, marks, waiting[k].slot)
  {}

  lemma QueueHead(ts: seq<Tm>, waiting: seq<Entry>, k: nat)
    requires QueueOk(ts, waiting, k) && k < |waiting|
    ensures Askable(waiting[k]) && (waiting[k].computed == 0 ==> Blank(ts, waiting[k].slot))
  {}

  lemma SameQueue(ts: seq<Tm>, us: seq<Tm>, waiting: seq<Entry>, k: nat)
    requires QueueOk(ts, waiting, k) && us == ts
    ensures QueueOk(us, waiting, k)
  {}

  /** Looking a hit up changes nothing that matters here. */
  lemma AskFollows(s0: State, s: State, e: Entry, prm: Params, adm: seq<Admitted>, cs: Counts, marks: set<Mark>,
                   bs: Pos)
    requires AdmitFollows(s0, s, adm, cs, marks, bs) && e.computed == 0
    ensures AdmitFollows(s0, AskOf(s, e, prm).state, adm, cs, marks, bs) && AskOf(s, e, prm).state.tms == s.tms
  {
    hide StateInv, Follow, Justified, AskOf, ScopeOk;
    var a := AskOf(s, e, prm);
    PlainAsk(s, e, prm);
    AskKeeps(s, e, prm);
    var m := MarksAdmitted(marks, adm);
    FollowLooked(s, a.state, CountsAdmitted(cs, adm), m, bs);
    JustifiedTrans(s0, s, a.state, m, m, bs);
  }

  // ---- the commit -------------------------------------------------------------------

  /** The table has every counted request, in phase and at its count. */
  ghost predicate EntriesFollow(s: State, cs: Counts, bs: Pos) {
    forall x :: x in cs ==> EntryAt(s, cs, bs, x)
  }

  predicate EntryAt(s: State, cs: Counts, bs: Pos, x: Slot)
    requires x in cs
  {
    var e := TableGet(s, x);
    e.Some? && e.value.slot == x && e.value.computed == cs[x] && Phase(e.value, bs)
  }

  lemma {:induction false} CountsAt(cs: Counts, run: seq<Scheduled>, k: nat)
    requires DistinctRun(run) && k < |run| && run[k].slot in cs
    ensures run[k].slot in CountsAfter(cs, run) && CountsAfter(cs, run)[run[k].slot] == cs[run[k].slot] + run[k].tokens
    decreases |run|
  {
    var n := |run| - 1;
    CountsOthers(cs, run[..n], run[k].slot);
    if k < n {
      assert run[k].slot != run[n].slot && run[..n][k] == run[k];
      CountsAt(cs, run[..n], k);
    }
  }

  lemma {:induction false} CountsAdmittedAt(cs: Counts, adm: seq<Admitted>, x: Slot)
    ensures x in CountsAdmitted(cs, adm) <==> x in cs || exists k :: 0 <= k < |adm| && adm[k].slot == x
    ensures (forall k :: 0 <= k < |adm| ==> adm[k].slot != x) && x in cs ==> CountsAdmitted(cs, adm)[x] == cs[x]
    decreases |adm|
  {
    if adm != [] {
      var n := |adm| - 1;
      CountsAdmittedAt(cs, adm[..n], x);
      if adm[n].slot != x && (exists k :: 0 <= k < |adm| && adm[k].slot == x) {
        var k :| 0 <= k < |adm| && adm[k].slot == x;
        assert adm[..n][k].slot == x;
      }
    }
  }

  lemma {:induction false} CountsAdmittedOf(cs: Counts, adm: seq<Admitted>, k: nat)
    requires k < |adm| && forall j, l :: 0 <= j < l < |adm| ==> adm[j].slot != adm[l].slot
    ensures adm[k].slot in CountsAdmitted(cs, adm)
    ensures CountsAdmitted(cs, adm)[adm[k].slot] == adm[k].computed + adm[k].tokens
    decreases |adm|
  {
    var n := |adm| - 1;
    if k < n {
      assert adm[..n][k] == adm[k];
      CountsAdmittedOf(cs, adm[..n], k);
    }
  }

  // ---- the scheduled chunks ---------------------------------------------------------

  /** A running request's chunk stops well and leaves it in phase. */
  predicate Stepped(e: Entry, n: nat, bs: Pos) {
    Phase(Advance(e, n, 1), bs) && StopsWell(e.computed, n, e.tokens, bs)
  }

  /** The chunk is that of one of the first `i` requests. */
  ghost predicate ChunkFrom(all: seq<Entry>, i: nat, c: Scheduled, bs: Pos) {
    i <= |all| && exists j :: 0 <= j < i && all[j].slot == c.slot && Stepped(all[j], c.tokens, bs)
  }

  ghost predicate Chunks(all: seq<Entry>, i: nat, run: seq<Scheduled>, bs: Pos) {
    DistinctRun(run) && forall k :: 0 <= k < |run| ==> ChunkFrom(all, i, run[k], bs)
  }

  lemma ChunksNext(all: seq<Entry>, i: nat, run: seq<Scheduled>, n: nat, bs: Pos)
    requires Chunks(all, i, run, bs) && i < |all| && DistinctSlots(all)
    ensures Chunks(all, i + 1, run, bs)
    ensures Stepped(all[i], n, bs) ==> Chunks(all, i + 1, run + [Scheduled(all[i].slot, n)], bs)
  {
    hide Stepped;
    forall k | 0 <= k < |run| ensures run[k].slot != all[i].slot && ChunkFrom(all, i + 1, run[k], bs) {
      assert ChunkFrom(all, i, run[k], bs);
      var j :| 0 <= j < i && all[j].slot == run[k].slot && Stepped(all[j], run[k].tokens, bs);
      assert Slots(all)[j] != Slots(all)[i];
    }
    if Stepped(all[i], n, bs) { assert ChunkFrom(all, i + 1, Scheduled(all[i].slot, n), bs); }
  }

  lemma ChunksSkip(all: seq<Entry>, i: nat, j: nat, run: seq<Scheduled>, bs: Pos)
    requires Chunks(all, i, run, bs) && i <= j <= |all|
    ensures Chunks(all, j, run, bs)
  {
    hide Stepped;
    forall k | 0 <= k < |run| ensures ChunkFrom(all, j, run[k], bs) {
      assert ChunkFrom(all, i, run[k], bs);
      var x :| 0 <= x < i && all[x].slot == run[k].slot && Stepped(all[x], run[k].tokens, bs);
    }
  }

  lemma {:induction false} RunningChunks(all: seq<Entry>, s: State, running: seq<Entry>, i: nat, budget: nat,
                                         d: Decisions, prm: Params,
                                         cs: Counts, c: Config, bs: Pos)
    requires QueueFollows(all, cs, prm, c, bs) && running <= all && Chunks(all, Min(i, |all|), d.running, bs)
    ensures Chunks(all, |all|, RunRunning(s, running, i, budget, d, prm).d.running, bs)
    decreases |running| - i
  {
    hide TryAllocate, RunningTokens, Chunks, Phase, NoStraddle, StopsWell, Advance;
    if i >= |running| || budget == 0 {
      ChunksSkip(all, Min(i, |all|), |all|, d.running, bs);
    } else {
      var e := running[i];
      assert e == all[i];
      var n := RunningTokens(e, budget, prm);
      ChunksNext(all, i, d.running, n, bs);
      ChunksSkip(all, i, |all|, d.running, bs);
      if n == 0 {
        RunningChunks(all, s, running, i + 1, budget, d, prm, cs, c, bs);
      } else {
        ChunkPhase(e, budget, prm, bs);
        var t := TryAllocate(s, running, d.preempted, e, n, prm);
        if t.outcome.Granted? {
          RunningChunks(all, t.state, t.running, i + 1, Monus(budget, n),
                        Record(d.(preempted := t.preempted), e.slot, n, t.outcome.blocks),
                        prm, cs, c, bs);
        }
      }
    }
  }

  // ---- one step ---------------------------------------------------------------------

  function StepCounts(cs: Counts, d: Decisions): Counts {
    CountsAdmitted(CountsAfter(cs, d.running) - SlotsOf(d.preempted), d.admitted)
  }

  function StepMarks(cs: Counts, marks: set<Mark>, d: Decisions): set<Mark> {
    MarksAdmitted(MarksAfter(cs, marks, d.running), d.admitted)
  }

  /** The marks of requests still being computed. */
  function Current(marks: set<Mark>, cs: Counts): set<Mark> {
    set m | m in marks && m.slot in cs
  }

  lemma CurrentStops(marks: set<Mark>, cs: Counts, x: Slot)
    requires x in cs
    ensures StopsOf(Current(marks, cs), x) == StopsOf(marks, x)
  {
    forall c ensures c in StopsOf(Current(marks, cs), x) <==> c in StopsOf(marks, x) {
      if c in StopsOf(marks, x) { assert Mark(x, c) in Current(marks, cs); }
    }
  }

  lemma FollowCurrent(s: State, cs: Counts, marks: set<Mark>)
    requires Follow(s, cs, marks)
    ensures Follow(s, cs, Current(marks, cs))
  {
    hide Tracks, Vacant;
    forall g: nat, x: Slot | MambaGroup(s.cfg, g) ensures FollowAt(s, cs, Current(marks, cs), g, x) {
      assert FollowAt(s, cs, marks, g, x);
      if x in cs { CurrentStops(marks, cs, x); }
    }
  }

  /** Same pool index, and mamba tables that read the same. */
  ghost predicate SameMamba(s: State, r: State) {
    && r.cfg == s.cfg && r.hashes == s.hashes && r.pool.cached == s.pool.cached && |r.tms| == |s.tms|
    && forall g: nat, x: Slot :: MambaGroup(s.cfg, g) && g < |s.tms| ==> SameFiled(s.tms[g], r.tms[g], x)
  }

  lemma FollowSame(s: State, r: State, cs: Counts, marks: set<Mark>, bs: Pos)
    requires Following(s, cs, marks, bs) && SameMamba(s, r) && StateInv(r)
    ensures Following(r, cs, marks, bs) && Justified(s, r, marks, bs)
  {
    hide FollowAt, SameFiled, StateInv, Justified;
    forall g: nat, x: Slot | MambaGroup(r.cfg, g) ensures FollowAt(r, cs, marks, g, x) {
      assert FollowAt(s, cs, marks, g, x);
      FollowedGroup(s, cs, marks, g, x);
      FollowsOn(s, r, cs, cs, marks, marks, g, x);
    }
    JustifiedSame(s, r, marks, bs);
  }

  lemma ViewRefl(t: Tm, x: Slot)
    ensures SameFiled(t, t, x)
  {}

  lemma NewStepView(t: Tm, x: Slot)
    ensures SameFiled(t, NewStep(t), x)
  {}

  lemma ArrangeSameMamba(s: State, waiting: seq<Entry>, prm: Params)
    requires StateInv(s)
    ensures SameMamba(s, Arrange(s, waiting, prm).0) && Arrange(s, waiting, prm).0.table == s.table
  {
    hide StateInv, StartStep, KeyOf, SortKeys, Pick, SameFiled;
    StartStepKeeps(s);
    ArrangeTable(s, waiting, prm);
    if prm.sjf && |waiting| >= 2 { KeysFromKeeps(StartStep(s), waiting, 0, [], prm); }
    var r := Arrange(s, waiting, prm).0;
    forall g: nat, x: Slot | MambaGroup(s.cfg, g) && g < |s.tms|
      ensures SameFiled(s.tms[g], r.tms[g], x)
    {
      NewStepView(s.tms[g], x);
    }
  }

  lemma {:induction false} PrefixPool(slot: Slot, p: Pool, ts: seq<Tm>, i: nat, outs: seq<seq<nat>>)
    requires i <= |ts|
    ensures FanOut(Prefix(slot), p, ts, i, outs).pool == p && FanOut(Prefix(slot), p, ts, i, outs).ok
    decreases |ts| - i
  {
    hide CommonPrefix;
    if i < |ts| {
      var s := Do(Prefix(slot), p, ts[i]);
      PrefixPool(slot, p, ts[i := s.tm], i + 1, outs + [s.out]);
    }
  }

  lemma CommonSameMamba(s: State, slot: Slot, bs: Pos)
    requires StateInv(s) && ScopeOk(s.cfg, bs)
    ensures SameMamba(s, CommonPrefixAll(s, slot).0) && CommonPrefixAll(s, slot).0.table == s.table
  {
    hide GInv, ConfigOk, FanOut, Do, SameFiled;
    CommonTable(s, slot);
    if s.cfg.caching {
      PrefixPool(slot, s.pool, s.tms, 0, []);
      PlainOk(Prefix(slot), s.pool, s.tms, 0, []);
      var r := CommonPrefixAll(s, slot).0;
      forall g: nat, x: Slot | MambaGroup(s.cfg, g) && g < |s.tms| ensures SameFiled(s.tms[g], r.tms[g], x) {
        var q := FanGroup(Prefix(slot), s.pool, s.tms, 0, [], g);
        MambaTm(s, g, bs);
        PrefixMamba(slot, q, s.tms[g], x);
      }
    } else {
      forall g: nat, x: Slot | g < |s.tms| ensures SameFiled(s.tms[g], s.tms[g], x) { ViewRefl(s.tms[g], x); }
    }
  }

  lemma PrefixMamba(slot: Slot, p: Pool, t: Tm, x: Slot)
    requires AlignMode(t)
    ensures SameFiled(t, Do(Prefix(slot), p, t).tm, x)
  {}

  lemma TableSame(s: State, r: State)
    requires r == s.(table := r.table)
    ensures SameMamba(s, r)
  {
    hide SameFiled;
    forall g: nat, x: Slot | g < |s.tms| ensures SameFiled(s.tms[g], s.tms[g], x) { ViewRefl(s.tms[g], x); }
  }

  lemma {:induction false} MarksOthers(cs: Counts, marks: set<Mark>, run: seq<Scheduled>)
    ensures forall m :: m in MarksAfter(cs, marks, run) ==> m in marks || m.slot in cs
    ensures marks <= MarksAfter(cs, marks, run)
    decreases |run|
  {
    if run != [] {
      MarksOthers(cs, marks, run[..|run| - 1]);
      CountsOthers(cs, run[..|run| - 1], run[|run| - 1].slot);
    }
  }

  lemma StillUnseen(waiting: seq<Entry>, cs: Counts, marks: set<Mark>, d: Decisions, c: Config)
    requires QueueUnseen(waiting, 0, cs, marks, c)
    ensures QueueUnseen(waiting, 0, CountsAfter(cs, d.running) - SlotsOf(d.preempted),
                        MarksAfter(cs, marks, d.running), c)
  {
    MarksOthers(cs, marks, d.running);
    forall j | 0 <= j < |waiting|
      ensures Unseen(CountsAfter(cs, d.running) - SlotsOf(d.preempted), MarksAfter(cs, marks, d.running),
                     waiting[j].slot)
    {
      assert Unseen(cs, marks, waiting[j].slot);
      CountsOthers(cs, d.running, waiting[j].slot);
    }
  }

  lemma UnseenPermutes(a: seq<Entry>, b: seq<Entry>, cs: Counts, marks: set<Mark>, c: Config)
    requires QueueUnseen(a, 0, cs, marks, c) && multiset(a) == multiset(b)
    ensures QueueUnseen(b, 0, cs, marks, c)
  {
    hide Admissible, Unseen;
    SlotsPermute(a, b);
    DistinctMultiset(Slots(a));
    DistinctMultiset(Slots(b));
    forall j | 0 <= j < |b| ensures Admissible(b[j], c) && Unseen(cs, marks, b[j].slot) {
      assert b[j] in multiset(b);
      var i :| 0 <= i < |a| && a[i] == b[j];
    }
  }

  /** What the loops of a step leave. */
  ghost predicate StepLeft(s: State, w: Wait, running: seq<Entry>, queue: seq<Entry>, cs: Counts, marks: set<Mark>,
                           bs: Pos) {
    && w.ok && w.state.cfg == s.cfg && w.state.hashes == s.hashes && w.state.table == s.table
    && Following(w.state, StepCounts(cs, w.d), StepMarks(cs, marks, w.d), bs)
    && Justified(s, w.state, StepMarks(cs, marks, w.d), bs)
    && Chunks(running, |running|, w.d.running, bs) && InPhase(queue, w.d.admitted, bs) && |w.d.admitted| == w.taken
  }

  lemma LoopsFollow(s: State, s0: State, running: seq<Entry>, queue: seq<Entry>, prm: Params, cs: Counts,
                    marks: set<Mark>, bs: Pos)
    requires Following(s0, cs, marks, bs) && QueueFollows(running, cs, prm, s0.cfg, bs)
    requires QueueUnseen(queue, 0, cs, marks, s0.cfg)
    requires QueueOk(s0.tms, queue, 0) && (forall f :: f in queue ==> f.slot !in SlotSet(running))
    requires exists g :: MambaGroup(s0.cfg, g)
    requires Justified(s, s0, marks, bs) && s0.cfg == s.cfg && s0.hashes == s.hashes && s0.table == s.table
    ensures var l := RunRunning(s0, running, 0, prm.maxTokens, NONE, prm);
      l.ok && StepLeft(s, Waiting(l, queue, prm), running, queue, cs, marks, bs)
      && (exists front :: Waiting(l, queue, prm).running == front + queue[..Waiting(l, queue, prm).taken])
  {
    hide RunRunning, RunWaiting, Following, Justified, QueueOk, QueueUnseen, QueueFollows, Chunks, InPhase;
    BooksStart(running, prm);
    QueueScope(running, cs, prm, s0.cfg, bs);
    RunStarts(s, s0, cs, marks, bs);
    RunningFollows(running, s, s0, running, 0, prm.maxTokens, NONE, prm, prm.maxTokens, cs, marks, bs);
    assert Chunks(running, 0, NONE.running, bs) by { NoChunks(running, bs); }
    RunningChunks(running, s0, running, 0, prm.maxTokens, NONE, prm, cs, s0.cfg, bs);
    NoneAdmitted(s0, running, prm);
    FollowState(s0, cs, marks, bs);
    RunningKeeps(s0, running, 0, prm.maxTokens, NONE, prm, SlotSet(running));
    var l := RunRunning(s0, running, 0, prm.maxTokens, NONE, prm);
    ProgressQueue(s0, l.state, SlotSet(running), queue);
    StillUnseen(queue, cs, marks, l.d, s0.cfg);
    var c, m := CountsAfter(cs, l.d.running) - SlotsOf(l.d.preempted), MarksAfter(cs, marks, l.d.running);
    JustifiedSame(l.state, l.state, m, bs);
    assert AdmitFollows(l.state, l.state, [], c, m, bs);
    assert InPhase(queue, [], bs) by { NobodyIn(queue, bs); }
    WaitingFollows(l.state, l.state, l.running, queue, 0, l.budget, l.d, prm, c, m, bs);
    var w := Waiting(l, queue, prm);
    WaitingFront(l, queue, prm);
    JustifiedTrans(s, l.state, w.state, m, MarksAdmitted(m, w.d.admitted), bs);
  }

  lemma QueueScope(all: seq<Entry>, cs: Counts, prm: Params, c: Config, bs: Pos)
    requires QueueFollows(all, cs, prm, c, bs)
    ensures prm.aligned && prm.cacheBlock == bs && prm.sampled == 1 && DistinctSlots(all)
  {}

  lemma BooksStart(running: seq<Entry>, prm: Params)
    ensures Books(running, running, 0, prm.maxTokens, NONE, prm.maxTokens)
  {
    assert Tail(running, running, []) by { assert Slots(running) + Reverse([]) == Slots(running); }
  }

  lemma RunStarts(s: State, s0: State, cs: Counts, marks: set<Mark>, bs: Pos)
    requires Following(s0, cs, marks, bs) && Justified(s, s0, marks, bs) && s0.cfg == s.cfg && s0.hashes == s.hashes
    requires s0.table == s.table
    ensures RunFollows(s, s0, NONE, cs, marks, bs)
  {
    hide Following, Justified;
    assert cs - SlotsOf([]) == cs;
  }

  lemma NoChunks(running: seq<Entry>, bs: Pos)
    ensures Chunks(running, 0, [], bs)
  {}

  lemma NobodyIn(queue: seq<Entry>, bs: Pos)
    ensures InPhase(queue, [], bs)
  {}

  lemma FollowState(s: State, cs: Counts, marks: set<Mark>, bs: Pos)
    requires Following(s, cs, marks, bs)
    ensures StateInv(s) && ScopeOk(s.cfg, bs)
  {}

  lemma {:induction false} WaitingTaken(s: State, running: seq<Entry>, waiting: seq<Entry>, k: nat, budget: nat,
                                        d: Decisions, prm: Params)
    requires k <= |waiting|
    ensures var w := RunWaiting(s, running, waiting, k, budget, d, prm); w.running == running + waiting[k..w.taken]
    decreases |waiting| - k
  {
    hide AllocateSlots, AskOf, WaitingTokens, WaitingCall;
    assert running + waiting[k..k] == running;
    if k < |waiting| && budget > 0 && |running| < prm.maxRunning {
      var e := waiting[k];
      var a := AskOf(s, e, prm);
      var n := WaitingTokens(a, e, budget, prm);
      var (s2, out) := AllocateSlots(a.state, WaitingCall(e, n, a.hit, prm, running != []));
      if !((!prm.chunked && a.tokens > budget) || a.tokens == 0 || n == 0) && out.Granted? {
        WaitingTaken(s2, running + [e], waiting, k + 1, Monus(budget, n),
                     d.(admitted := d.admitted + [Admitted(e.slot, n, a.computed)]), prm);
        var w := RunWaiting(s, running, waiting, k, budget, d, prm);
        assert waiting[k..w.taken] == [e] + waiting[k + 1..w.taken];
      }
    }
  }

  lemma WaitingFront(l: Loop, queue: seq<Entry>, prm: Params)
    ensures var w := Waiting(l, queue, prm); w.running == l.running + queue[..w.taken]
  {
    hide RunWaiting;
    WaitingTaken(l.state, l.running, queue, 0, l.budget, l.d, prm);
    assert l.running + queue[..0] == l.running;
    var w := RunWaiting(l.state, l.running, queue, 0, l.budget, l.d, prm);
    assert queue[0..w.taken] == queue[..w.taken];
  }

  /** A request that was running before the step and still is. */
  lemma RunningEntry(s: State, d: Decisions, running: seq<Entry>, cs: Counts, bs: Pos, x: Slot)
    requires EntriesFollow(s, cs, bs) && x in cs && x !in d.preempted && Chunks(running, |running|, d.running, bs)
    requires forall j :: 0 <= j < |running| ==> TableGet(s, running[j].slot) == Some(running[j])
    ensures var e := TableGet(MarkScheduled(MarkPreempted(s, d.preempted), d.running, 1), x);
      && x in CountsAfter(cs, d.running)
      && e.Some? && e.value.slot == x && e.value.computed == CountsAfter(cs, d.running)[x] && Phase(e.value, bs)
  {
    hide TableGet, Phase, StopsWell, MarkPreempted, MarkScheduled;
    assert EntryAt(s, cs, bs, x);
    var s2 := MarkPreempted(s, d.preempted);
    PreemptedOther(s, d.preempted, x);
    CountsOthers(cs, d.running, x);
    if k :| 0 <= k < |d.running| && d.running[k].slot == x {
      ScheduledAt(s2, d.running, 1, k);
      CountsAt(cs, d.running, k);
      assert ChunkFrom(running, |running|, d.running[k], bs);
      var j :| 0 <= j < |running| && running[j].slot == x && Stepped(running[j], d.running[k].tokens, bs);
      assert TableGet(s, running[j].slot) == Some(running[j]);
    } else {
      ScheduledOther(s2, d.running, 1, x);
    }
  }

  lemma AdmittedDistinct(queue: seq<Entry>, adm: seq<Admitted>, bs: Pos)
    requires InPhase(queue, adm, bs) && DistinctSlots(queue)
    ensures forall j, l :: 0 <= j < l < |adm| ==> adm[j].slot != adm[l].slot
  {
    hide Begun;
    forall j, l | 0 <= j < l < |adm| ensures adm[j].slot != adm[l].slot { assert Slots(queue)[j] != Slots(queue)[l]; }
  }

  lemma EnterCount(e: Entry, a: Admitted)
    ensures Enter(e, a, 1).computed == a.computed + a.tokens && Enter(e, a, 1).slot == e.slot
  {}

  /** After the commit the table has every counted request where it stopped. */
  lemma CommitFollows(s: State, d: Decisions, running: seq<Entry>, queue: seq<Entry>, front: seq<Entry>, taken: nat,
                      cs: Counts, bs: Pos, prm: Params)
    requires EntriesFollow(s, cs, bs) && Chunks(running, |running|, d.running, bs) && prm.sampled == 1
    requires forall j :: 0 <= j < |running| ==> TableGet(s, running[j].slot) == Some(running[j])
    requires DistinctSlots(queue) && taken <= |queue| && |d.admitted| == taken && InPhase(queue, d.admitted, bs)
    ensures EntriesFollow(Commit(s, d, front + queue[..taken], prm), StepCounts(cs, d), bs)
  {
    hide TableGet, Phase, StopsWell, MarkPreempted, MarkScheduled, MarkAdmitted, EntriesFollow, Chunks, CountsAfter,
         CountsAdmitted, Enter, LastOf;
    var s3 := MarkScheduled(MarkPreempted(s, d.preempted), d.running, 1);
    var r := Commit(s, d, front + queue[..taken], prm);
    var c1 := CountsAfter(cs, d.running) - SlotsOf(d.preempted);
    AdmittedDistinct(queue, d.admitted, bs);
    forall x | x in StepCounts(cs, d) ensures EntryAt(r, StepCounts(cs, d), bs, x) {
      CountsAdmittedAt(c1, d.admitted, x);
      if k :| 0 <= k < |d.admitted| && d.admitted[k].slot == x {
        assert Slots(queue[..taken]) == Slots(queue)[..taken];
        LastOfQueue(front, queue[..taken], k);
        AdmittedAt(s3, d.admitted, front + queue[..taken], 1, k, queue[k]);
        CountsAdmittedOf(c1, d.admitted, k);
        EnterCount(queue[k], d.admitted[k]);
      } else {
        AdmittedOther(s3, d.admitted, front + queue[..taken], 1, x);
        CountsOthers(cs, d.running, x);
        RunningEntry(s, d, running, cs, bs, x);
      }
    }
    EntriesAll(r, StepCounts(cs, d), bs);
  }

  lemma EntriesAll(s: State, cs: Counts, bs: Pos)
    requires forall x :: x in cs ==> EntryAt(s, cs, bs, x)
    ensures EntriesFollow(s, cs, bs)
  {}

  lemma EntriesSame(s: State, r: State, cs: Counts, bs: Pos)
    requires EntriesFollow(s, cs, bs) && r.table == s.table
    ensures EntriesFollow(r, cs, bs)
  {
    hide Phase;
    forall x | x in cs ensures EntryAt(r, cs, bs, x) { assert EntryAt(s, cs, bs, x); }
  }

  /** The state the epilogue commits to. */
  function PrefixedState(w: Wait): State {
    if w.running != [] then CommonPrefixAll(w.state, w.running[0].slot).0 else w.state
  }

  lemma PrefixedFollows(s: State, w: Wait, running: seq<Entry>, queue: seq<Entry>, cs: Counts, marks: set<Mark>,
                        bs: Pos)
    requires StepLeft(s, w, running, queue, cs, marks, bs)
    ensures var s1 := PrefixedState(w);
      && s1.cfg == s.cfg && s1.hashes == s.hashes && s1.table == s.table
      && Following(s1, StepCounts(cs, w.d), StepMarks(cs, marks, w.d), bs)
      && Justified(s, s1, StepMarks(cs, marks, w.d), bs)
  {
    hide Follow, ScopeOk, StateInv, Justified, Chunks, InPhase, CommonPrefixAll, SameMamba, StepCounts, StepMarks;
    var c, m := StepCounts(cs, w.d), StepMarks(cs, marks, w.d);
    if w.running != [] {
      CommonSameMamba(w.state, w.running[0].slot, bs);
      CommonPrefixKeeps(w.state, w.running[0].slot);
      var s1 := PrefixedState(w);
      FollowSame(w.state, s1, c, m, bs);
      MambaParts(w.state, s1);
      JustifiedTrans(s, w.state, s1, m, m, bs);
    }
  }

  lemma FinishFollows(s: State, w: Wait, running: seq<Entry>, queue: seq<Entry>, prm: Params, cs: Counts,
                      marks: set<Mark>, bs: Pos)
    requires StepLeft(s, w, running, queue, cs, marks, bs) && EntriesFollow(s, cs, bs) && w.taken <= |queue|
    requires forall j :: 0 <= j < |running| ==> TableGet(s, running[j].slot) == Some(running[j])
    requires DistinctSlots(queue) && prm.sampled == 1 && exists front :: w.running == front + queue[..w.taken]
    ensures var r := Epilogue(w, queue, prm);
      && r.state.cfg == s.cfg && r.state.hashes == s.hashes
      && Following(r.state, StepCounts(cs, w.d), StepMarks(cs, marks, w.d), bs)
      && Justified(s, r.state, StepMarks(cs, marks, w.d), bs)
      && EntriesFollow(r.state, StepCounts(cs, w.d), bs)
      && StepCounts(cs, r.decisions) == StepCounts(cs, w.d)
      && StepMarks(cs, marks, r.decisions) == StepMarks(cs, marks, w.d)
  {
    hide Follow, ScopeOk, StateInv, Justified, EntriesFollow, Chunks, InPhase, Commit, CommonPrefixAll, TableGet,
         SameMamba,
         CountsAfter, CountsAdmitted, MarksAfter, MarksAdmitted;
    var front :| w.running == front + queue[..w.taken];
    var c, m := StepCounts(cs, w.d), StepMarks(cs, marks, w.d);
    PrefixedFollows(s, w, running, queue, cs, marks, bs);
    var s1 := PrefixedState(w);
    var d := Epilogue(w, queue, prm).decisions;
    TableFrame(s, s1);
    EntriesSame(s, s1, cs, bs);
    CommitFollows(s1, d, running, queue, front, w.taken, cs, bs, prm);
    CommitTable(s1, d, w.running, prm);
    var r := Commit(s1, d, w.running, prm);
    TableFollows(s1, r, c, m, bs);
    JustifiedTrans(s, s1, r, m, m, bs);
  }

  lemma MambaParts(s: State, r: State)
    requires SameMamba(s, r)
    ensures r.cfg == s.cfg && r.hashes == s.hashes
  {}

  /** Every chunk a step schedules, for a running request or an admitted one, stops well. */
  ghost predicate StepStops(s: State, running: seq<Entry>, waiting: seq<Entry>, prm: Params, bs: Pos) {
    var r := Run(s, running, waiting, prm);
    r.Ok? ==>
      Chunks(running, |running|, r.decisions.running, bs)
      && InPhase(Arrange(s, waiting, prm).1, r.decisions.admitted, bs)
  }

  /**
   * One step in scope: the requests being computed move on to where their chunks stopped, and
   * whatever entered a mamba group's index did so at such a stop.
   */
  lemma StepFollows(s: State, running: seq<Entry>, waiting: seq<Entry>, prm: Params, cs: Counts, marks: set<Mark>,
                    bs: Pos)
    requires WellPosed(s, running, waiting) && Following(s, cs, marks, bs) && EntriesFollow(s, cs, bs)
    requires QueueFollows(running, cs, prm, s.cfg, bs) && QueueUnseen(waiting, 0, cs, marks, s.cfg)
    requires exists g :: MambaGroup(s.cfg, g)
    requires forall j :: 0 <= j < |running| ==> TableGet(s, running[j].slot) == Some(running[j])
    ensures var r := Run(s, running, waiting, prm);
      && r.Ok? && r.state.cfg == s.cfg && r.state.hashes == s.hashes
      && Following(r.state, StepCounts(cs, r.decisions),
                   Current(StepMarks(cs, marks, r.decisions), StepCounts(cs, r.decisions)), bs)
      && EntriesFollow(r.state, StepCounts(cs, r.decisions), bs)
      && Justified(s, r.state, StepMarks(cs, marks, r.decisions), bs)
    ensures StepStops(s, running, waiting, prm, bs)
  {
    hide Arrange, RunRunning, Waiting, Epilogue, StateInv, QueueOk, Follow, Justified, EntriesFollow, QueueFollows,
         QueueUnseen,
         TableGet, StepLeft, SameMamba, Chunks, InPhase, ScopeOk, StepCounts, StepMarks, Current;
    ArrangeKeeps(s, waiting, prm);
    ArrangePermutes(s, waiting, prm);
    ArrangeSameMamba(s, waiting, prm);
    var (s0, queue) := Arrange(s, waiting, prm);
    MambaParts(s, s0);
    FollowSame(s, s0, cs, marks, bs);
    UnseenPermutes(waiting, queue, cs, marks, s.cfg);
    UnseenDistinct(queue, cs, marks, s.cfg);
    QueueScope(running, cs, prm, s.cfg, bs);
    forall f | f in queue
      ensures f.slot !in SlotSet(running)
    {
      assert f in multiset(queue);
      assert f in multiset(waiting);
    }
    LoopsFollow(s, s0, running, queue, prm, cs, marks, bs);
    var l := RunRunning(s0, running, 0, prm.maxTokens, NONE, prm);
    var w := Waiting(l, queue, prm);
    LeftOk(s, w, running, queue, cs, marks, bs);
    FinishFollows(s, w, running, queue, prm, cs, marks, bs);
    FollowCurrent(Epilogue(w, queue, prm).state, StepCounts(cs, w.d), StepMarks(cs, marks, w.d));
    EpilogueIs(w, queue, prm);
    EpilogueDecides(w, queue, prm);
  }

  lemma LeftOk(s: State, w: Wait, running: seq<Entry>, queue: seq<Entry>, cs: Counts, marks: set<Mark>, bs: Pos)
    requires StepLeft(s, w, running, queue, cs, marks, bs)
    ensures w.ok && Chunks(running, |running|, w.d.running, bs) && InPhase(queue, w.d.admitted, bs)
  {
    hide Following, Justified, Chunks, InPhase;
  }

  lemma EpilogueDecides(w: Wait, queue: seq<Entry>, prm: Params)
    requires w.taken <= |queue|
    ensures var d := Epilogue(w, queue, prm).decisions; d.running == w.d.running && d.admitted == w.d.admitted
  {
    hide CommonPrefixAll, Commit;
  }

  lemma EpilogueIs(w: Wait, queue: seq<Entry>, prm: Params)
    requires w.taken <= |queue|
    ensures Epilogue(w, queue, prm).Ok?
  {}

  lemma UnseenDistinct(queue: seq<Entry>, cs: Counts, marks: set<Mark>, c: Config)
    requires QueueUnseen(queue, 0, cs, marks, c)
    ensures DistinctSlots(queue)
  {}

  // ---- whole runs -------------------------------------------------------------------

  /** The queues of a step in scope: aligned split at the mamba block size, one sampled token,
      running requests that are being computed, waiting ones that are not. */
  ghost predicate StepScope(running: seq<Entry>, queue: seq<Entry>, prm: Params, cs: Counts, c: Config, bs: Pos) {
    && prm.aligned && prm.cacheBlock == bs && prm.sampled == 1 && prm.maxModelLen <= c.maxModelLen
    && DistinctSlots(running) && DistinctSlots(queue)
    && (forall j :: 0 <= j < |running| ==>
        running[j].slot in cs && running[j].tokens + running[j].placeholders + 1 < WORD)
    && (forall j :: 0 <= j < |queue| ==> Admissible(queue[j], c) && queue[j].slot !in cs)
  }

  /** Reports in step with the table: the count it has, and no more accepted than is outstanding. */
  predicate ReportsInStep(s: State, reports: seq<Report>, cs: Counts)
    decreases |reports|
  {
    reports == [] ||
    (var e := TableGet(s, reports[0].slot);
     && (e.Some? && reports[0].slot in cs ==>
           reports[0].tokens == e.value.tokens && reports[0].accepted <= e.value.placeholders)
     && ReportsInStep(if e.Some? then TableSet(s, reports[0].slot, Updated(e.value, reports[0])) else s, reports[1..],
                      cs))
  }

  /** A marshalled entry in step with what was computed for its request. */
  predicate InStep(e: Entry, cs: Counts, bs: Pos) { e.slot in cs && e.computed == cs[e.slot] && Phase(e, bs) }

  ghost predicate InScope(m: Mutation, s: State, cs: Counts, bs: Pos) {
    match m
    case Allocating(_) => false
    case Putting(_, _) => false
    case Bursting(_, _) => false
    case Reporting(reports) => ReportsInStep(s, reports, cs)
    case Filing(slot, tokens) => slot in cs && tokens <= cs[slot]
    case Skipping(slot, total) => slot in cs ==> total <= cs[slot]
    case Clearing(slot) => slot !in cs
    case Forgetting(slot) => slot !in cs
    case Scheduling(slots, queue, prm) =>
      (forall j :: 0 <= j < |slots| ==> slots[j] in cs)
      && (Load(s, slots).Some? ==> StepScope(Load(s, slots).value, queue, prm, cs, s.cfg, bs))
    case Marshalling(running, queue, prm) =>
      StepScope(running, queue, prm, cs, s.cfg, bs) && forall j :: 0 <= j < |running| ==>
        InStep(running[j], cs, bs)
    case _ => true
  }

  function NextCounts(m: Mutation, s: State, cs: Counts): Counts {
    if m.Freeing? then cs - {m.slot}
    else if StepOf(m, s).Some? then StepCounts(cs, StepOf(m, s).value)
    else cs
  }

  /** The stops known once the event is over: a step adds the end of every chunk it scheduled. */
  function MarksIn(m: Mutation, s: State, cs: Counts, marks: set<Mark>): set<Mark> {
    if StepOf(m, s).Some? then StepMarks(cs, marks, StepOf(m, s).value) else marks
  }

  function NextMarks(m: Mutation, s: State, cs: Counts, marks: set<Mark>): set<Mark> {
    Current(MarksIn(m, s, cs, marks), NextCounts(m, s, cs))
  }

  /** The run-level invariant. */
  ghost predicate Coherent(s: State, cs: Counts, marks: set<Mark>, bs: Pos) {
    Following(s, cs, marks, bs) && EntriesFollow(s, cs, bs) && (forall m :: m in marks ==> m.slot in cs)
  }

  ghost predicate AllInScope(ms: seq<Mutation>, s: State, cs: Counts, bs: Pos)
    decreases |ms|
  {
    ms == [] || (Allowed(ms[0], s) && InScope(ms[0], s, cs, bs)
                 && AllInScope(ms[1..], Apply(ms[0], s), NextCounts(ms[0], s, cs), bs))
  }

  /** If the event is a step, its chunks stop well. */
  ghost predicate EventStops(m: Mutation, s: State, bs: Pos) {
    match m
    case Scheduling(slots, queue, prm) => Load(s, slots).Some? ==> StepStops(s, Load(s, slots).value, queue, prm, bs)
    case Marshalling(running, queue, prm) => StepStops(Resync(s, running), running, queue, prm, bs)
    case _ => true
  }

  /** At every event of the run the scheduled chunks stop well, and whatever entered a mamba group's
      index is at a recorded stop. */
  ghost predicate Accounted(ms: seq<Mutation>, s: State, cs: Counts, marks: set<Mark>, bs: Pos)
    decreases |ms|
  {
    ms == [] ||
    (Justified(s, Apply(ms[0], s), MarksIn(ms[0], s, cs, marks), bs) && EventStops(ms[0], s, bs)
     && Accounted(ms[1..], Apply(ms[0], s), NextCounts(ms[0], s, cs), NextMarks(ms[0], s, cs, marks), bs))
  }

  lemma ScopeFollows(s: State, running: seq<Entry>, queue: seq<Entry>, prm: Params, cs: Counts, marks: set<Mark>,
                     bs: Pos)
    requires StepScope(running, queue, prm, cs, s.cfg, bs) && EntriesFollow(s, cs, bs)
    requires forall m :: m in marks ==> m.slot in cs
    requires forall j :: 0 <= j < |running| ==> TableGet(s, running[j].slot) == Some(running[j])
    ensures QueueFollows(running, cs, prm, s.cfg, bs) && QueueUnseen(queue, 0, cs, marks, s.cfg)
  {
    hide TableGet, Phase, Admissible;
    forall j | 0 <= j < |running| ensures cs[running[j].slot] == running[j].computed && Phase(running[j], bs) {
      assert EntryAt(s, cs, bs, running[j].slot);
    }
  }

  /** The entries of counted slots are keyed by them. */
  lemma {:induction false} LoadAt(s: State, slots: seq<Slot>, cs: Counts, bs: Pos)
    requires Load(s, slots).Some? && EntriesFollow(s, cs, bs) && forall j :: 0 <= j < |slots| ==> slots[j] in cs
    ensures var es := Load(s, slots).value; forall j :: 0 <= j < |es| ==> TableGet(s, es[j].slot) == Some(es[j])
    decreases |slots|
  {
    hide TableGet, Phase;
    if slots != [] {
      LoadAt(s, slots[1..], cs, bs);
      assert EntryAt(s, cs, bs, slots[0]);
      var es := Load(s, slots).value;
      assert es == [TableGet(s, slots[0]).value] + es[1..];
    }
  }

  lemma {:induction false} ReportsFollow(s: State, reports: seq<Report>, cs: Counts, bs: Pos)
    requires EntriesFollow(s, cs, bs) && ReportsInStep(s, reports, cs)
    ensures EntriesFollow(UpdateTable(s, reports), cs, bs)
    decreases |reports|
  {
    hide TableGet, TableSet, Phase, Updated;
    if reports != [] {
      var e := TableGet(s, reports[0].slot);
      if e.Some? {
        var r := TableSet(s, reports[0].slot, Updated(e.value, reports[0]));
        forall x | x in cs ensures EntryAt(r, cs, bs, x) {
          assert EntryAt(s, cs, bs, x);
          SetOther(s, reports[0].slot, Updated(e.value, reports[0]), x);
          if x == reports[0].slot { ReportPhase(e.value, reports[0], bs); }
        }
        ReportsFollow(r, reports[1..], cs, bs);
      } else {
        ReportsFollow(s, reports[1..], cs, bs);
      }
    }
  }

  lemma HashingFollows(s: State, slot: Slot, ds: seq<Digest>, cs: Counts, marks: set<Mark>, bs: Pos)
    requires Following(s, cs, marks, bs)
    ensures Following(PushHashes(s, slot, ds), cs, marks, bs)
  {
    hide Tracks, Vacant, GInv, ConfigOk;
    var r := PushHashes(s, slot, ds);
    forall g: nat, x: Slot | MambaGroup(r.cfg, g)
      ensures FollowAt(r, cs, marks, g, x)
    {
      assert FollowAt(s, cs, marks, g, x);
    }
  }

  lemma LookingFollows(s: State, slot: Slot, tokens: nat, skip: bool, cs: Counts, marks: set<Mark>, bs: Pos)
    requires Following(s, cs, marks, bs)
    ensures var r := GetComputed(s, slot, tokens, skip).0;
      Following(r, cs, marks, bs) && Justified(s, r, marks, bs) && r.table == s.table
  {
    hide StateInv, Follow, Justified, HitTable, HitLength, Uncached, ScopeOk;
    LookingKeeps(s, slot, tokens, skip);
    FollowLooked(s, GetComputed(s, slot, tokens, skip).0, cs, marks, bs);
  }

  lemma StartingFollows(s: State, cs: Counts, marks: set<Mark>, bs: Pos)
    requires Following(s, cs, marks, bs)
    ensures Following(StartStep(s), cs, marks, bs) && Justified(s, StartStep(s), marks, bs)
    ensures StartStep(s).table == s.table
  {
    hide StateInv, Follow, Justified, StartStep, SameFiled, ScopeOk;
    StartStepKeeps(s);
    var r := StartStep(s);
    forall g: nat, x: Slot | MambaGroup(s.cfg, g) && g < |s.tms|
      ensures SameFiled(s.tms[g], r.tms[g], x)
    {
      NewStepView(s.tms[g], x);
    }
    FollowSame(s, r, cs, marks, bs);
  }

  lemma TableFollows(s: State, r: State, cs: Counts, marks: set<Mark>, bs: Pos)
    requires Following(s, cs, marks, bs) && r == s.(table := r.table)
    ensures Following(r, cs, marks, bs) && Justified(s, r, marks, bs)
  {
    hide StateInv, Follow, Justified, ScopeOk;
    TableOnly(s, r);
    TableSame(s, r);
    FollowSame(s, r, cs, marks, bs);
  }

  /** Filing a request's blocks up to where it was last computed. */
  lemma FilingFollows(s: State, slot: Slot, tokens: nat, cs: Counts, marks: set<Mark>, bs: Pos)
    requires Following(s, cs, marks, bs) && slot in cs && tokens <= cs[slot]
    ensures var r := CacheAll(s, slot, tokens); Following(r, cs, marks, bs) && Justified(s, r, marks, bs)
  {
    hide GInv, ConfigOk, FanOut, Tracks, Vacant, AtStop, CacheAll, Follow, FollowAt;
    var r := CacheAll(s, slot, tokens);
    CacheAllOk(s, slot, tokens);
    forall g: nat | MambaGroup(s.cfg, g)
      ensures FollowAt(r, cs, marks, g, slot)
      ensures forall k, b :: Entered(s.pool, r.pool, k, b) && k.group == g ==>
                AtStop(s, slot, k, bs, StopsOf(marks, slot))
    {
      FiledFollow(s, slot, tokens, cs, marks, g, bs);
    }
    FollowOne(s, r, cs, cs, marks, marks, slot);
  }

  lemma FiledFollow(s: State, slot: Slot, tokens: nat, cs: Counts, marks: set<Mark>, g: nat, bs: Pos)
    requires Following(s, cs, marks, bs) && slot in cs && tokens <= cs[slot] && MambaGroup(s.cfg, g)
    ensures var r := CacheAll(s, slot, tokens);
      && FollowAt(r, cs, marks, g, slot)
      && forall k, b :: Entered(s.pool, r.pool, k, b) && k.group == g ==> AtStop(s, slot, k, bs, StopsOf(marks, slot))
  {
    hide GInv, ConfigOk, FanOut, Tracks, AtStop, CacheAll, Entered;
    MambaTm(s, g, bs);
    assert FollowAt(s, cs, marks, g, slot);
    FiledGroup(s, slot, tokens, g, bs, cs[slot], StopsOf(marks, slot));
  }

  /** Giving back what a request skipped, no further than it was computed. */
  lemma SkippingFollows(s: State, slot: Slot, total: nat, cs: Counts, marks: set<Mark>, bs: Pos)
    requires Following(s, cs, marks, bs) && (slot in cs ==> total <= cs[slot])
    ensures var r := SkipSlot(s, slot, total);
      && Following(r, cs, marks, bs) && Justified(s, r, marks, bs) && r.cfg == s.cfg && r.table == s.table
  {
    hide GInv, ConfigOk, SkipSlot, Follow, FollowAt, NoneGained;
    var r := SkipSlot(s, slot, total);
    SkipSlotKeeps(s, slot, total);
    JustifiedSame(s, r, marks, bs);
    forall g: nat | MambaGroup(s.cfg, g) ensures FollowAt(r, cs, marks, g, slot) {
      SkippedFollow(s, slot, total, cs, marks, g, bs);
    }
    FollowOne(s, r, cs, cs, marks, marks, slot);
  }

  lemma SkippedFollow(s: State, slot: Slot, total: nat, cs: Counts, marks: set<Mark>, g: nat, bs: Pos)
    requires Following(s, cs, marks, bs) && (slot in cs ==> total <= cs[slot]) && MambaGroup(s.cfg, g)
    ensures FollowAt(SkipSlot(s, slot, total), cs, marks, g, slot)
  {
    hide GInv, ConfigOk, FanOut, Tracks, Vacant, RemoveSkipped;
    MambaTm(s, g, bs);
    assert FollowAt(s, cs, marks, g, slot);
    PlainOk(Skip(slot, total), s.pool, s.tms, 0, []);
    var q := FanGroup(Skip(slot, total), s.pool, s.tms, 0, [], g);
    if slot in cs {
      SkipEarlier(q, s.tms[g], slot, total, cs[slot], StopsOf(marks, slot));
    } else {
      SkipVacant(q, s.tms[g], slot, total);
    }
  }

  lemma PeekingFollows(s: State, slot: Slot, tokens: nat, cs: Counts, marks: set<Mark>, bs: Pos)
    requires Following(s, cs, marks, bs)
    ensures var r := Peek(s, slot, tokens).0;
      && Following(r, cs, marks, bs) && Justified(s, r, marks, bs) && r.cfg == s.cfg && r.table == s.table
  {
    hide StateInv, Follow, Justified, HitLength, Uncached, ScopeOk;
    UncachedOnly(s, Peek(s, slot, tokens).0);
    FollowLooked(s, Peek(s, slot, tokens).0, cs, marks, bs);
  }

  /** The index only lost mappings. */
  lemma PoolFollows(s: State, q: Pool, cs: Counts, marks: set<Mark>, bs: Pos)
    requires Following(s, cs, marks, bs) && Inv(q) && SameCounts(s.pool, q)
    requires forall k, b :: Contain(q.cached, k, b) ==> Contain(s.pool.cached, k, b)
    ensures var r := s.(pool := q); Following(r, cs, marks, bs) && Justified(s, r, marks, bs)
  {
    hide Inv, GInv, ConfigOk, Tracks, Vacant, StateInv;
    var r := s.(pool := q);
    PoolKept(s, q);
    forall g: nat, x: Slot | MambaGroup(r.cfg, g)
      ensures FollowAt(r, cs, marks, g, x)
    {
      assert FollowAt(s, cs, marks, g, x);
    }
  }

  lemma EvictFollows(s: State, ids: seq<Id>, cs: Counts, marks: set<Mark>, bs: Pos)
    requires Following(s, cs, marks, bs) && InRange(s.pool, ids)
    ensures Following(EvictIds(s, ids), cs, marks, bs) && Justified(s, EvictIds(s, ids), marks, bs)
  {
    hide Inv, ConfigOk, Follow, Justified, TablesOk, Counted, ScopeOk;
    EvictAllOk(s.pool, ids);
    PoolFollows(s, EvictAll(s.pool, ids), cs, marks, bs);
  }

  lemma ResetFollows(s: State, cs: Counts, marks: set<Mark>, bs: Pos)
    requires Following(s, cs, marks, bs)
    ensures Following(ResetAll(s), cs, marks, bs) && Justified(s, ResetAll(s), marks, bs)
  {
    hide Inv, ConfigOk, Follow, Justified, TablesOk, Counted, ScopeOk;
    ResetOk(s.pool);
    PoolFollows(s, ResetCache(s.pool).0, cs, marks, bs);
  }

  /** A slot nobody is computing for loses its entry, or everything. */
  lemma ClearFollows(s: State, slot: Slot, cs: Counts, marks: set<Mark>, bs: Pos)
    requires Following(s, cs, marks, bs) && EntriesFollow(s, cs, bs) && slot !in cs
    ensures forall r :: r in [TableClear(s, slot), Forget(s, slot)] ==>
      r.cfg == s.cfg && Following(r, cs, marks, bs) && EntriesFollow(r, cs, bs) && Justified(s, r, marks, bs)
  {
    hide GInv, ConfigOk, Tracks, Vacant, StateInv, Phase;
    ForgetKeeps(s, slot);
    forall r | r in [TableClear(s, slot), Forget(s, slot)]
      ensures r.cfg == s.cfg && Following(r, cs, marks, bs) && EntriesFollow(r, cs, bs) && Justified(s, r, marks, bs)
    {
      forall g: nat, x: Slot | MambaGroup(r.cfg, g)
        ensures FollowAt(r, cs, marks, g, x)
      {
        assert FollowAt(s, cs, marks, g, x);
      }
      forall x | x in cs ensures EntryAt(r, cs, bs, x) { assert EntryAt(s, cs, bs, x); }
      JustifiedSame(s, r, marks, bs);
    }
  }

  /** Freeing a request, or any event that is not a step. */
  lemma QuietFollows(m: Mutation, s: State, cs: Counts, marks: set<Mark>, bs: Pos)
    requires Coherent(s, cs, marks, bs) && Allowed(m, s) && InScope(m, s, cs, bs) && !m.Scheduling? && !m.Marshalling?
    ensures var ds := if m.Freeing? then cs - {m.slot} else cs;
      && Apply(m, s).cfg == s.cfg && Following(Apply(m, s), ds, marks, bs) && EntriesFollow(Apply(m, s), ds, bs)
      && Justified(s, Apply(m, s), marks, bs)
  {
    hide StateInv, Follow, Justified, EntriesFollow, AllocateSlots, FreeSlot, TableSet, UpdateTable, BurstTable,
         GetComputed,
         StartStep, CommonPrefixAll, PushHashes, ScopeOk, SameMamba, ReportsInStep, CacheAll, EvictAll, ResetCache,
         TableClear, Forget, CanFile, SkipSlot,
         Peek;
    match m
    case Freeing(slot) =>
      FreeFollows(s, slot, cs, marks, bs);
      JustifiedSame(s, Apply(m, s), marks, bs);
      FewerEntries(s, Apply(m, s), cs, slot, bs);
    case Hashing(slot, ds) =>
      HashingFollows(s, slot, ds, cs, marks, bs);
      PushOnly(s, slot, ds);
      JustifiedSame(s, Apply(m, s), marks, bs);
      EntriesSame(s, Apply(m, s), cs, bs);
    case Reporting(reports) =>
      UpdateTableOnly(s, reports);
      TableFollows(s, Apply(m, s), cs, marks, bs);
      ReportsFollow(s, reports, cs, bs);
    case Looking(slot, tokens, skip) =>
      LookingFollows(s, slot, tokens, skip, cs, marks, bs);
      LookedOnly(s, slot, tokens, skip);
      EntriesSame(s, Apply(m, s), cs, bs);
    case Starting =>
      StartingFollows(s, cs, marks, bs);
      StartStepKeeps(s);
      EntriesSame(s, Apply(m, s), cs, bs);
    case Filing(slot, tokens) =>
      FilingFollows(s, slot, tokens, cs, marks, bs);
      CacheAllOk(s, slot, tokens);
      EntriesSame(s, Apply(m, s), cs, bs);
    case Skipping(slot, total) =>
      SkippingFollows(s, slot, total, cs, marks, bs);
      EntriesSame(s, Apply(m, s), cs, bs);
    case Peeking(slot, tokens) =>
      PeekingFollows(s, slot, tokens, cs, marks, bs);
      EntriesSame(s, Apply(m, s), cs, bs);
    case Evicting(ids) =>
      EvictFollows(s, ids, cs, marks, bs);
      EntriesSame(s, Apply(m, s), cs, bs);
    case Resetting =>
      ResetFollows(s, cs, marks, bs);
      EntriesSame(s, Apply(m, s), cs, bs);
    case Clearing(slot) => ClearFollows(s, slot, cs, marks, bs);
    case Forgetting(slot) => ClearFollows(s, slot, cs, marks, bs);
    case Counting(slot) =>
      CommonSameMamba(s, slot, bs);
      CommonPrefixKeeps(s, slot);
      MambaParts(s, Apply(m, s));
      FollowSame(s, Apply(m, s), cs, marks, bs);
      EntriesSame(s, Apply(m, s), cs, bs);
    case _ =>
  }

  lemma FewerEntries(s: State, r: State, cs: Counts, slot: Slot, bs: Pos)
    requires EntriesFollow(s, cs, bs) && r.table == s.table
    ensures EntriesFollow(r, cs - {slot}, bs)
  {
    hide Phase;
    forall x | x in cs - {slot} ensures EntryAt(r, cs - {slot}, bs, x) { assert EntryAt(s, cs, bs, x); }
  }

  lemma PushOnly(s: State, slot: Slot, ds: seq<Digest>)
    ensures var r := PushHashes(s, slot, ds); r.cfg == s.cfg && r.pool == s.pool && r.table == s.table
  {}

  lemma LookedOnly(s: State, slot: Slot, tokens: nat, skip: bool)
    ensures GetComputed(s, slot, tokens, skip).0.cfg == s.cfg
  {
    hide HitTable, HitLength, Uncached;
  }

  lemma {:induction false} ResyncOther(s: State, running: seq<Entry>, x: Slot)
    requires forall j :: 0 <= j < |running| ==> running[j].slot != x
    ensures TableGet(Resync(s, running), x) == TableGet(s, x)
    decreases |running|
  {
    hide TableGet, TableSet;
    if running != [] {
      SetOther(s, running[0].slot, running[0], x);
      ResyncOther(TableSet(s, running[0].slot, running[0]), running[1..], x);
    }
  }

  lemma {:induction false} ResyncAt(s: State, running: seq<Entry>, j: nat)
    requires DistinctSlots(running) && j < |running|
    ensures TableGet(Resync(s, running), running[j].slot) == Some(running[j])
    decreases |running|
  {
    hide TableGet, TableSet;
    var r := TableSet(s, running[0].slot, running[0]);
    if j > 0 {
      assert Slots(running[1..]) == Slots(running)[1..];
      ResyncAt(r, running[1..], j - 1);
    } else {
      SetOther(s, running[0].slot, running[0], running[0].slot);
      forall i | 0 <= i < |running[1..]| ensures running[1..][i].slot != running[0].slot {
        assert Slots(running)[i + 1] != Slots(running)[0];
      }
      ResyncOther(r, running[1..], running[0].slot);
    }
  }

  /** Entries in step with what was computed replace the table's. */
  lemma {:induction false} ResyncEntries(s: State, running: seq<Entry>, cs: Counts, bs: Pos)
    requires EntriesFollow(s, cs, bs) && forall j :: 0 <= j < |running| ==> InStep(running[j], cs, bs)
    ensures EntriesFollow(Resync(s, running), cs, bs)
    decreases |running|
  {
    hide TableGet, TableSet, Phase;
    if running != [] {
      var e := running[0];
      var r := TableSet(s, e.slot, e);
      forall x | x in cs ensures EntryAt(r, cs, bs, x) {
        SetOther(s, e.slot, e, x);
        assert EntryAt(s, cs, bs, x);
      }
      ResyncEntries(r, running[1..], cs, bs);
    }
  }

  lemma ResyncFollows(s: State, running: seq<Entry>, queue: seq<Entry>, prm: Params, cs: Counts, marks: set<Mark>,
                      bs: Pos)
    requires Following(s, cs, marks, bs) && EntriesFollow(s, cs, bs) && StepScope(running, queue, prm, cs, s.cfg, bs)
    requires forall j :: 0 <= j < |running| ==> InStep(running[j], cs, bs)
    ensures var r := Resync(s, running);
      && Following(r, cs, marks, bs) && EntriesFollow(r, cs, bs) && r.cfg == s.cfg
      && forall j :: 0 <= j < |running| ==> TableGet(r, running[j].slot) == Some(running[j])
  {
    hide Following, EntriesFollow, Resync, TableGet;
    ResyncOnly(s, running);
    TableFollows(s, Resync(s, running), cs, marks, bs);
    ResyncEntries(s, running, cs, bs);
    forall j | 0 <= j < |running| ensures TableGet(Resync(s, running), running[j].slot) == Some(running[j]) {
      ResyncAt(s, running, j);
    }
  }

  lemma JustifiedFrom(s: State, r: State, q: State, marks: set<Mark>, bs: Pos)
    requires r == s.(table := r.table) && Justified(r, q, marks, bs)
    ensures Justified(s, q, marks, bs)
  {
    hide AtStop, ByStop;
    forall k, b | Entered(s.pool, q.pool, k, b) && MambaGroup(s.cfg, k.group) ensures ByStop(s, k, bs, marks) {
      MoreStops(r, s, k, bs, marks, marks);
    }
  }

  lemma SteppedFollows(m: Mutation, s: State, cs: Counts, marks: set<Mark>, bs: Pos)
    requires Coherent(s, cs, marks, bs) && Allowed(m, s) && InScope(m, s, cs, bs) && (m.Scheduling? || m.Marshalling?)
    requires exists g :: MambaGroup(s.cfg, g)
    ensures Apply(m, s).cfg == s.cfg
    ensures Justified(s, Apply(m, s), MarksIn(m, s, cs, marks), bs) && EventStops(m, s, bs)
    ensures Following(Apply(m, s), NextCounts(m, s, cs), NextMarks(m, s, cs, marks), bs)
    ensures EntriesFollow(Apply(m, s), NextCounts(m, s, cs), bs)
  {
    hide Follow, Justified, EntriesFollow, Run, Load, TableGet, StepScope, QueueFollows, QueueUnseen, StepCounts,
         StepMarks, Current,
         QueueOk, StateInv, ScopeOk, Hashed, StepStops;
    match m
    case Scheduling(slots, queue, prm) =>
      if Load(s, slots).Some? {
        LoadAt(s, slots, cs, bs);
        ScopeFollows(s, Load(s, slots).value, queue, prm, cs, marks, bs);
        StepFollows(s, Load(s, slots).value, queue, prm, cs, marks, bs);
      } else {
        JustifiedSame(s, s, marks, bs);
        AllCurrent(marks, cs);
      }
    case Marshalling(running, queue, prm) =>
      var r := Resync(s, running);
      ResyncFollows(s, running, queue, prm, cs, marks, bs);
      ResyncPosed(s, running, queue);
      ResyncOnly(s, running);
      ScopeFollows(r, running, queue, prm, cs, marks, bs);
      StepFollows(r, running, queue, prm, cs, marks, bs);
      JustifiedFrom(s, r, Apply(m, s), MarksIn(m, s, cs, marks), bs);
  }

  lemma AllCurrent(marks: set<Mark>, cs: Counts)
    requires forall m :: m in marks ==> m.slot in cs
    ensures Current(marks, cs) == marks
  {}

  lemma EventFollows(m: Mutation, s: State, cs: Counts, marks: set<Mark>, bs: Pos)
    requires Coherent(s, cs, marks, bs) && Allowed(m, s) && InScope(m, s, cs, bs) && exists g :: MambaGroup(s.cfg, g)
    ensures Apply(m, s).cfg == s.cfg && Justified(s, Apply(m, s), MarksIn(m, s, cs, marks), bs) && EventStops(m, s, bs)
    ensures Coherent(Apply(m, s), NextCounts(m, s, cs), NextMarks(m, s, cs, marks), bs)
  {
    hide Following, Justified, EntriesFollow, Apply, Allowed, InScope, StepCounts, StepMarks, StateInv, Follow,
         ScopeOk, StepStops;
    if m.Scheduling? || m.Marshalling? {
      SteppedFollows(m, s, cs, marks, bs);
    } else {
      QuietFollows(m, s, cs, marks, bs);
      NoStep(m, s);
      StillCurrent(Apply(m, s), NextCounts(m, s, cs), marks, bs);
    }
  }

  lemma StillCurrent(s: State, cs: Counts, marks: set<Mark>, bs: Pos)
    requires Following(s, cs, marks, bs)
    ensures Following(s, cs, Current(marks, cs), bs)
  {
    hide Follow, StateInv;
    FollowCurrent(s, cs, marks);
  }

  /**
   * Over any run in scope, whatever enters the prefix-cache index for a mamba group does so under
   * the hash of a token count where a scheduled chunk of some request stopped.
   */
  lemma {:induction false} FiledOnlyAtStops(ms: seq<Mutation>, s: State, cs: Counts, marks: set<Mark>, bs: Pos)
    requires Coherent(s, cs, marks, bs) && AllInScope(ms, s, cs, bs) && exists g :: MambaGroup(s.cfg, g)
    ensures Accounted(ms, s, cs, marks, bs)
    decreases |ms|
  {
    hide Coherent, Justified, Allowed, InScope, Apply, NextCounts, NextMarks, MarksIn, EventStops;
    if ms != [] {
      EventFollows(ms[0], s, cs, marks, bs);
      FiledOnlyAtStops(ms[1..], Apply(ms[0], s), NextCounts(ms[0], s, cs), NextMarks(ms[0], s, cs, marks), bs);
    }
  }

  /** A new manager is in scope: nothing is computed, nothing is filed. */
  lemma NewManagerInScope(c: Config, n: nat, bs: Pos)
    requires ConfigOk(c) && ScopeOk(c, bs) && n > 0
    ensures Coherent(State(c, InitPool(c.caching, n),
                           seq(|c.groups|, i requires 0 <= i < |c.groups| => InitTm(c.groups[i])),
                           map[], [], map[], seq(|c.groups|, _ => []), 0), map[], {}, bs)
  {
    hide StateInv;
    InitKeeps(c, n);
  }
}
