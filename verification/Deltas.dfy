/**
 * Each step records, flattened, the blocks it handed to every scheduled request. Appending a
 * request's recorded deltas to its admission-time table reproduces the manager's full-attention
 * table, also when an allocation succeeded only after preemptions.
 */
module Deltas {
  import opened Basics
  import opened PoolSpec
  import opened PoolInv
  import opened TypeSpec
  import opened TypeInv
  import opened TypeAlloc
  import opened ManagerSpec
  import opened ManagerInv
  import opened Admission
  import opened SchedSpec
  import opened StepProps
  import opened RunInv
  import opened Served
  import opened TableSpec
  import opened Mutations

  // ---- the flattened record ---------------------------------------------------------

  function Sum(ns: seq<nat>): nat {
    if ns == [] then 0 else ns[0] + Sum(ns[1..])
  }

  /** Cut `blocks` into pieces of the given lengths. */
  function Cut(lens: seq<nat>, blocks: seq<Id>): seq<seq<Id>>
    requires Sum(lens) <= |blocks|
  {
    if lens == [] then [] else [blocks[..lens[0]]] + Cut(lens[1..], blocks[lens[0]..])
  }

  /** The reader of the record: one row per scheduled request, one piece per group. */
  function Rows(lens: seq<nat>, blocks: seq<Id>, groups: Pos): seq<seq<seq<Id>>>
    requires Sum(lens) == |blocks|
    decreases |lens|
  {
    if |lens| < groups then []
    else
      SumSplit(lens, groups);
      var n := Sum(lens[..groups]);
      [Cut(lens[..groups], blocks[..n])] + Rows(lens[groups..], blocks[n..], groups)
  }

  lemma {:induction false} SumSplit(ns: seq<nat>, k: nat)
    requires k <= |ns|
    ensures Sum(ns) == Sum(ns[..k]) + Sum(ns[k..])
    decreases k
  {
    if k == 0 {
      assert ns[0..] == ns;
    } else {
      SumSplit(ns[1..], k - 1);
      assert ns[..k][1..] == ns[1..][..k - 1] && ns[1..][k - 1..] == ns[k..];
    }
  }

  lemma {:induction false} CutFlatten(row: seq<seq<Id>>)
    ensures Sum(Lens(row)) == |Flatten(row)| && Cut(Lens(row), Flatten(row)) == row
  {
    if row == [] {
    } else {
      CutFlatten(row[1..]);
      assert Lens(row)[1..] == Lens(row[1..]) && Lens(row)[0] == |row[0]|;
      Apart(row[0], Flatten(row[1..]));
      assert row == [row[0]] + row[1..];
    }
  }

  lemma Apart(a: seq<Id>, b: seq<Id>)
    ensures (a + b)[..|a|] == a && (a + b)[|a|..] == b
  {}

  lemma SumConcat(a: seq<nat>, b: seq<nat>)
    ensures Sum(a + b) == Sum(a) + Sum(b)
  {
    SumSplit(a + b, |a|);
    assert (a + b)[..|a|] == a && (a + b)[|a|..] == b;
  }

  /** A whole number of rows. */
  predicate Even(n: nat, groups: Pos) {
    n == 0 || (n >= groups && Even(n - groups, groups))
  }

  lemma RowsStep(lens: seq<nat>, blocks: seq<Id>, groups: Pos)
    requires Sum(lens) == |blocks| && |lens| >= groups
    ensures var n := Sum(lens[..groups]);
      n <= |blocks| && Sum(lens[groups..]) == |blocks[n..]|
      && Rows(lens, blocks, groups) == [Cut(lens[..groups], blocks[..n])] + Rows(lens[groups..], blocks[n..], groups)
  {
    SumSplit(lens, groups);
  }

  lemma OneRow(row: seq<seq<Id>>, groups: Pos)
    requires |row| == groups
    ensures Sum(Lens(row)) == |Flatten(row)| && Rows(Lens(row), Flatten(row), groups) == [row]
  {
    hide Sum, Cut, Flatten;
    CutFlatten(row);
    var l, b := Lens(row), Flatten(row);
    RowsStep(l, b, groups);
    assert l[..groups] == l && b[..|b|] == b && l[groups..] == [] && b[|b|..] == [];
    assert Rows([], [], groups) == [];
  }

  /** Recording one more row is reading one more row. */
  lemma {:induction false} RowsGrow(lens: seq<nat>, blocks: seq<Id>, row: seq<seq<Id>>, groups: Pos)
    requires Sum(lens) == |blocks| && Even(|lens|, groups) && |row| == groups
    ensures Sum(lens + Lens(row)) == |blocks + Flatten(row)| && Even(|lens + Lens(row)|, groups)
    ensures Rows(lens + Lens(row), blocks + Flatten(row), groups) == Rows(lens, blocks, groups) + [row]
    decreases |lens|
  {
    hide Sum, Cut, Flatten, Rows;
    CutFlatten(row);
    SumConcat(lens, Lens(row));
    var l, b := lens + Lens(row), blocks + Flatten(row);
    if lens == [] {
      NoRows(groups);
      assert l == Lens(row) && b == Flatten(row);
      OneRow(row, groups);
    } else {
      RowsStep(l, b, groups);
      RowsStep(lens, blocks, groups);
      var n := Sum(lens[..groups]);
      assert l[..groups] == lens[..groups] && l[groups..] == lens[groups..] + Lens(row);
      assert b[..n] == blocks[..n] && b[n..] == blocks[n..] + Flatten(row);
      RowsGrow(lens[groups..], blocks[n..], row, groups);
    }
  }

  lemma NoRows(groups: Pos)
    ensures Sum([]) == 0 && Rows([], [], groups) == []
    ensures forall blocks: seq<Id> :: |blocks| == Sum([]) ==> blocks == []
  {}

  /** The record is well formed: a row for each scheduled request. */
  ghost predicate Recorded(d: Decisions, groups: Pos) {
    && Sum(d.newLens) == |d.newBlocks| && Even(|d.newLens|, groups)
    && |Rows(d.newLens, d.newBlocks, groups)| == |d.running|
    && forall k :: 0 <= k < |d.running| ==> |Rows(d.newLens, d.newBlocks, groups)[k]| == groups
  }

  /** A request's pieces for one group, in order. */
  function Pieces(run: seq<Scheduled>, rows: seq<seq<seq<Id>>>, slot: Slot, g: nat): seq<Id>
    requires |rows| == |run| && forall k :: 0 <= k < |rows| ==> g < |rows[k]|
  {
    if run == [] then []
    else
      var n := |run| - 1;
      Pieces(run[..n], rows[..n], slot, g) + (if run[n].slot == slot then rows[n][g] else [])
  }

  /** What a step's decisions say was appended to a request's table in group `g`. */
  function Delta(d: Decisions, groups: Pos, slot: Slot, g: nat): seq<Id>
    requires Recorded(d, groups) && g < groups
  {
    Pieces(d.running, Rows(d.newLens, d.newBlocks, groups), slot, g)
  }

  lemma DeltaGrows(d: Decisions, groups: Pos, e: Slot, n: nat, row: seq<seq<Id>>, slot: Slot, g: nat)
    requires Recorded(d, groups) && |row| == groups && g < groups
    ensures Recorded(Record(d, e, n, row), groups)
    ensures Delta(Record(d, e, n, row), groups, slot, g)
        == Delta(d, groups, slot, g) + (if e == slot then row[g] else [])
  {
    RowsGrow(d.newLens, d.newBlocks, row, groups);
    var r := Record(d, e, n, row);
    var rows := Rows(d.newLens, d.newBlocks, groups);
    assert Rows(r.newLens, r.newBlocks, groups) == rows + [row];
    assert r.running[..|d.running|] == d.running && (rows + [row])[..|d.running|] == rows;
  }

  // ---- one allocation ---------------------------------------------------------------

  lemma AppendOnly(op: Op, p: Pool, t: Tm)
    requires t.group.kind.FullAttention? && (op.Skip? || op.Grow? || op.File?) && Do(op, p, t).ok
    ensures Do(op, p, t).tm.group == t.group
    ensures Blocks(Do(op, p, t).tm, op.slot) == Blocks(t, op.slot) + (if op.Grow? then Do(op, p, t).out else [])
  {
    hide GetNew, CDiv, CacheFull, StepKeys;
    match op
    case Skip(slot, total) => RemoveSkippedShape(p, t, slot, total);
    case File(slot, hashes, hb, tokens) => CacheShape(p, t, slot, hashes, t.group.blockSize / hb, tokens);
    case _ =>
  }

  lemma OpAppends(op: Op, p: Pool, ts: seq<Tm>, g: nat)
    requires (op.Skip? || op.Grow? || op.File?) && g < |ts| && ts[g].group.kind.FullAttention? && All(op, p, ts).ok
    ensures |All(op, p, ts).tms| == |All(op, p, ts).outs| == |ts| && All(op, p, ts).tms[g].group == ts[g].group
    ensures Blocks(All(op, p, ts).tms[g], op.slot)
         == Blocks(ts[g], op.slot) + (if op.Grow? then All(op, p, ts).outs[g] else [])
  {
    hide Do, FanOut;
    var q := FanGroup(op, p, ts, 0, [], g);
    AppendOnly(op, q, ts[g]);
  }

  /** A running request's allocation appends exactly what it reports, or nothing when refused. */
  lemma AllocateAppends(s: State, c: Call, g: nat)
    requires StateInv(s) && CallHits(s, c) == [] && c.newTokens > 0 && g < |s.tms| && s.tms[g].group.kind.FullAttention?
    ensures var (r, out) := AllocateSlots(s, c);
      && |r.tms| == |s.tms| && r.tms[g].group == s.tms[g].group && (out.Granted? ==> |out.blocks| == |s.tms|)
      && Blocks(r.tms[g], c.slot) == Blocks(s.tms[g], c.slot) + (if out.Granted? then out.blocks[g] else [])
  {
    hide FanOut, EstimateFrom, GInv, ConfigOk, Blank, HitsExist, NoneGained, SameHashes;
    SkipAllOk(s, c);
    PlainOk(Skip(c.slot, Total(s, c)), s.pool, s.tms, 0, []);
    OpAppends(Skip(c.slot, Total(s, c)), s.pool, s.tms, g);
    var f1 := All(Skip(c.slot, Total(s, c)), s.pool, s.tms);
    if Admits(s, c, f1) {
      GrantedOk(s, c);
      var op := Grow(c.slot, NeedTokens(s, c), MainTokens(s, c));
      OpAppends(op, f1.pool, f1.tms, g);
      var f3 := All(op, f1.pool, f1.tms);
      FileAppends(s.(pool := f3.pool, tms := f3.tms), c.slot, Min(MainTokens(s, c), c.reqTokens), g);
    }
  }

  lemma FileAppends(s: State, slot: Slot, tokens: nat, g: nat)
    requires GInv(s.pool, s.tms) && g < |s.tms| && s.tms[g].group.kind.FullAttention?
    ensures |CacheAll(s, slot, tokens).tms| == |s.tms| && CacheAll(s, slot, tokens).tms[g].group == s.tms[g].group
    ensures Blocks(CacheAll(s, slot, tokens).tms[g], slot) == Blocks(s.tms[g], slot)
  {
    hide FanOut;
    if s.cfg.caching {
      var op := File(slot, Hashes(s, slot), s.cfg.hashBlock, Cacheable(s.cfg, tokens));
      PlainOk(op, s.pool, s.tms, 0, []);
      OpAppends(op, s.pool, s.tms, g);
    }
  }

  // ---- one step ---------------------------------------------------------------------

  /** Group `g` is full attention. */
  predicate FullGroup(c: Config, g: nat) { g < |c.groups| && c.groups[g].kind.FullAttention? }

  lemma GroupOf(s: State, g: nat)
    requires StateInv(s) && FullGroup(s.cfg, g)
    ensures g < |s.tms| == |s.cfg.groups| && s.tms[g].group == s.cfg.groups[g]
  {}

  function TableOf(s: State, g: nat, slot: Slot): seq<Id> {
    if g < |s.tms| then Blocks(s.tms[g], slot) else []
  }

  lemma SlotLeft(s: State, r: State, slot: Slot, x: Slot, g: nat)
    requires OnlySlotState(s, r, slot) && x != slot
    ensures TableOf(r, g, x) == TableOf(s, g, x)
  {
    if g < |s.tms| {
      assert OnlySlot(s.tms[g], r.tms[g], slot);
      OtherSlot(s.tms[g], r.tms[g], slot, x);
    }
  }

  /** One allocation, seen from any slot. */
  lemma AllocateSeen(s: State, e: Entry, n: nat, prm: Params, x: Slot, g: nat)
    requires StateInv(s) && n > 0 && FullGroup(s.cfg, g)
    ensures var (r, out) := AllocateSlots(s, RunningCall(e, n, prm));
      && StateInv(r) && r.cfg == s.cfg && !out.Failed? && (out.Granted? ==> |out.blocks| == |s.cfg.groups|)
      && TableOf(r, g, x) == TableOf(s, g, x) + (if out.Granted? && x == e.slot then out.blocks[g] else [])
  {
    hide StateInv, ManagerSpec.AllocateSlots, CallOk;
    var c := RunningCall(e, n, prm);
    RunningCallOk(s, e, n, prm);
    AllOrNothing(s, c);
    GroupOf(s, g);
    AllocateAppends(s, c, g);
    if x != e.slot { SlotLeft(s, AllocateSlots(s, c).0, e.slot, x, g); }
  }

  lemma {:induction false} TryAppends(s: State, running: seq<Entry>, preempted: seq<Slot>, e: Entry, n: nat,
                                      prm: Params, x: Slot, g: nat)
    requires StateInv(s) && n > 0 && FullGroup(s.cfg, g)
    ensures var t := TryAllocate(s, running, preempted, e, n, prm);
      && StateInv(t.state) && t.state.cfg == s.cfg && !t.outcome.Failed? && preempted <= t.preempted
      && (t.outcome.Granted? ==> |t.outcome.blocks| == |s.cfg.groups|)
      && (x !in t.preempted ==>
            TableOf(t.state, g, x)
            == TableOf(s, g, x) + (if t.outcome.Granted? && x == e.slot then t.outcome.blocks[g] else []))
    decreases |running|
  {
    hide StateInv, AllocateSlots, FreeSlot, TableOf;
    AllocateSeen(s, e, n, prm, x, g);
    assert TableOf(s, g, x) + [] == TableOf(s, g, x);
    var (s1, out) := AllocateSlots(s, RunningCall(e, n, prm));
    if out.Refused? && running != [] {
      var victim := running[|running| - 1];
      FreeSlotKeeps(s1, victim.slot);
      var s2 := FreeSlot(s1, victim.slot);
      if x != victim.slot { SlotLeft(s1, s2, victim.slot, x, g); }
      if victim.slot != e.slot {
        TryAppends(s2, running[..|running| - 1], preempted + [victim.slot], e, n, prm, x, g);
        assert TryAllocate(s, running, preempted, e, n, prm).preempted[|preempted|] == victim.slot;
      }
    }
  }

  /** So far, what was recorded is what was appended. */
  ghost predicate Matches(s0: State, s: State, d: Decisions, x: Slot, g: nat) {
    && s.cfg == s0.cfg && FullGroup(s0.cfg, g) && Recorded(d, |s0.cfg.groups|)
    && (x !in d.preempted ==> TableOf(s, g, x) == TableOf(s0, g, x) + Delta(d, |s0.cfg.groups|, x, g))
  }

  lemma MatchesGrant(s0: State, s: State, d: Decisions, x: Slot, g: nat, t: Try, e: Slot, n: nat)
    requires Matches(s0, s, d, x, g) && d.preempted <= t.preempted && t.outcome.Granted?
    requires |t.outcome.blocks| == |s0.cfg.groups|
    requires t.state.cfg == s.cfg
    requires x !in t.preempted ==>
               TableOf(t.state, g, x) == TableOf(s, g, x) + (if x == e then t.outcome.blocks[g] else [])
    ensures Matches(s0, t.state, Record(d.(preempted := t.preempted), e, n, t.outcome.blocks), x, g)
  {
    hide TableOf;
    var d1 := d.(preempted := t.preempted);
    DeltaGrows(d1, |s0.cfg.groups|, e, n, t.outcome.blocks, x, g);
    assert forall v :: v in d.preempted ==> v in t.preempted;
  }

  lemma {:induction false} RunningMatches(s0: State, s: State, running: seq<Entry>, i: nat, budget: nat, d: Decisions,
                                          prm: Params, x: Slot, g: nat)
    requires StateInv(s) && Matches(s0, s, d, x, g)
    ensures var l := RunRunning(s, running, i, budget, d, prm);
      l.ok && StateInv(l.state) && Matches(s0, l.state, l.d, x, g)
    decreases |running| - i
  {
    hide StateInv, TryAllocate, RunningTokens, TableOf, Recorded, Delta;
    if i < |running| && budget > 0 {
      var e := running[i];
      var n := RunningTokens(e, budget, prm);
      if n == 0 {
        RunningMatches(s0, s, running, i + 1, budget, d, prm, x, g);
      } else {
        TryAppends(s, running, d.preempted, e, n, prm, x, g);
        var t := TryAllocate(s, running, d.preempted, e, n, prm);
        var d1 := d.(preempted := t.preempted);
        if t.outcome.Granted? {
          MatchesGrant(s0, s, d, x, g, t, e.slot, n);
          RunningMatches(s0, t.state, t.running, i + 1, Monus(budget, n), Record(d1, e.slot, n, t.outcome.blocks), prm,
                         x, g);
        } else {
          MatchesRefused(s0, s, d, x, g, t);
        }
      }
    }
  }

  lemma MatchesRefused(s0: State, s: State, d: Decisions, x: Slot, g: nat, t: Try)
    requires Matches(s0, s, d, x, g) && d.preempted <= t.preempted && t.state.cfg == s.cfg
    requires x !in t.preempted ==> TableOf(t.state, g, x) == TableOf(s, g, x)
    ensures Matches(s0, t.state, d.(preempted := t.preempted), x, g)
  {
    assert forall v :: v in d.preempted ==> v in t.preempted;
  }

  lemma AskSeen(s: State, e: Entry, prm: Params)
    ensures AskOf(s, e, prm).state.tms == s.tms
  {
    hide HitTable, HitLength, Uncached;
  }

  /** The waiting loop leaves the tables of those not waiting alone. */
  lemma {:induction false} WaitingLeaves(s: State, running: seq<Entry>, waiting: seq<Entry>, k: nat, budget: nat,
                                         d: Decisions,
                                         prm: Params, x: Slot, g: nat)
    requires StateInv(s) && k <= |waiting| && QueueOk(s.tms, waiting, k)
    requires forall j :: 0 <= j < |waiting| ==> waiting[j].slot != x
    ensures var w := RunWaiting(s, running, waiting, k, budget, d, prm);
      && StateInv(w.state) && w.ok && w.state.cfg == s.cfg && TableOf(w.state, g, x) == TableOf(s, g, x)
      && w.d == d.(admitted := w.d.admitted)
    decreases |waiting| - k
  {
    hide AllocateSlots, AskOf, WaitingTokens, StateInv, CallOk, HitsExist, Blank, TableOf;
    if k < |waiting| && budget > 0 && |running| < prm.maxRunning {
      var e := waiting[k];
      AskKeeps(s, e, prm);
      AskSeen(s, e, prm);
      var a := AskOf(s, e, prm);
      NoHit(s, e, prm);
      AskableTokens(s, e, prm);
      SameTables(s, a.state, g, x);
      var n := WaitingTokens(a, e, budget, prm);
      if n > 0 && !(!prm.chunked && a.tokens > budget) {
        WaitingWithin(a, e, budget, prm);
        WaitingCallOk(s, a, e, n, prm, running != []);
        var c := WaitingCall(e, n, a.hit, prm, running != []);
        AllOrNothing(a.state, c);
        var (s2, out) := AllocateSlots(a.state, c);
        SlotLeft(a.state, s2, e.slot, x, g);
        if out.Granted? {
          BlankOthers(a.state, s2, waiting, k);
          WaitingLeaves(s2, running + [e], waiting, k + 1, Monus(budget, n),
                        d.(admitted := d.admitted + [Admitted(e.slot, n, a.computed)]), prm, x, g);
        }
      }
    }
  }

  lemma SameTables(s: State, r: State, g: nat, x: Slot)
    requires r.tms == s.tms
    ensures TableOf(r, g, x) == TableOf(s, g, x)
  {}

  lemma ArrangeLeaves(s: State, waiting: seq<Entry>, prm: Params, g: nat, x: Slot)
    requires StateInv(s)
    ensures TableOf(Arrange(s, waiting, prm).0, g, x) == TableOf(s, g, x)
  {
    hide StateInv, StartStep, KeyOf, SortKeys, Pick;
    StartStepKeeps(s);
    if prm.sjf && |waiting| >= 2 { KeysFromKeeps(StartStep(s), waiting, 0, [], prm); }
  }

  lemma EpilogueLeaves(w: Wait, waiting: seq<Entry>, prm: Params, g: nat, x: Slot)
    requires StateInv(w.state) && w.taken <= |waiting|
    ensures TableOf(Epilogue(w, waiting, prm).state, g, x) == TableOf(w.state, g, x)
  {
    hide StateInv, CommonPrefixAll, Commit;
    var s := w.state;
    if w.running != [] { CommonLeaves(s, w.running[0].slot, g, x); s := CommonPrefixAll(s, w.running[0].slot).0; }
    var d := Epilogue(w, waiting, prm).decisions;
    CommitTable(s, d, w.running, prm);
    SameTables(s, Commit(s, d, w.running, prm), g, x);
  }

  lemma CommonLeaves(s: State, slot: Slot, g: nat, x: Slot)
    requires StateInv(s)
    ensures TableOf(CommonPrefixAll(s, slot).0, g, x) == TableOf(s, g, x)
  {
    hide GInv, FanOut, Do;
    if s.cfg.caching && g < |s.tms| {
      PlainOk(Prefix(slot), s.pool, s.tms, 0, []);
      var q := FanGroup(Prefix(slot), s.pool, s.tms, 0, [], g);
      PrefixLeaves(slot, q, s.tms[g], x);
    } else if s.cfg.caching {
      PlainOk(Prefix(slot), s.pool, s.tms, 0, []);
    }
  }

  lemma PrefixLeaves(slot: Slot, p: Pool, t: Tm, x: Slot)
    ensures Blocks(Do(Prefix(slot), p, t).tm, x) == Blocks(t, x)
  {}

  /** The record of an empty step. */
  lemma NoneMatches(s: State, x: Slot, g: nat)
    requires FullGroup(s.cfg, g)
    ensures Matches(s, s, NONE, x, g)
  {
    NoRows(|s.cfg.groups|);
  }

  lemma SameDelta(d: Decisions, e: Decisions, groups: Pos, x: Slot, g: nat)
    requires Recorded(d, groups) && g < groups && e.running == d.running && e.newLens == d.newLens
    requires e.newBlocks == d.newBlocks
    ensures Recorded(e, groups) && Delta(e, groups, x, g) == Delta(d, groups, x, g)
  {}

  /**
   * One step, for any slot that is not waiting and was not preempted: its full-attention table
   * grew by exactly the pieces the decisions record for it.
   */
  lemma StepAppends(s: State, running: seq<Entry>, waiting: seq<Entry>, prm: Params, x: Slot, g: nat)
    requires WellPosed(s, running, waiting) && FullGroup(s.cfg, g)
    requires forall j :: 0 <= j < |waiting| ==> waiting[j].slot != x
    ensures var r := Run(s, running, waiting, prm);
      && r.Ok? && StateInv(r.state) && r.state.cfg == s.cfg && Recorded(r.decisions, |s.cfg.groups|)
      && (x !in r.decisions.preempted ==>
            TableOf(r.state, g, x) == TableOf(s, g, x) + Delta(r.decisions, |s.cfg.groups|, x, g))
  {
    hide Arrange, RunRunning, RunWaiting, Epilogue, StateInv, QueueOk, TableOf, Recorded, Delta;
    StepKeeps(s, running, waiting, prm);
    ArrangeKeeps(s, waiting, prm);
    ArrangePermutes(s, waiting, prm);
    ArrangeLeaves(s, waiting, prm, g, x);
    var (s0, queue) := Arrange(s, waiting, prm);
    NoneMatches(s0, x, g);
    RunningMatches(s0, s0, running, 0, prm.maxTokens, NONE, prm, x, g);
    RunningKeeps(s0, running, 0, prm.maxTokens, NONE, prm, SlotSet(running));
    var l := RunRunning(s0, running, 0, prm.maxTokens, NONE, prm);
    forall f | f in queue ensures f.slot !in SlotSet(running) && f.slot != x {
      assert f in multiset(queue);
      assert f in multiset(waiting);
    }
    ProgressQueue(s0, l.state, SlotSet(running), queue);
    WaitingLeaves(l.state, l.running, queue, 0, l.budget, l.d, prm, x, g);
    FinishMatches(s0, l, queue, prm, x, g);
  }

  lemma FinishMatches(s0: State, l: Loop, queue: seq<Entry>, prm: Params, x: Slot, g: nat)
    requires StateInv(l.state) && Matches(s0, l.state, l.d, x, g)
    requires var w := RunWaiting(l.state, l.running, queue, 0, l.budget, l.d, prm);
      && StateInv(w.state) && w.ok && w.state.cfg == l.state.cfg && TableOf(w.state, g, x) == TableOf(l.state, g, x)
      && w.d == l.d.(admitted := w.d.admitted)
    ensures var r := Epilogue(Waiting(l, queue, prm), queue, prm);
      && r.state.cfg == s0.cfg && Recorded(r.decisions, |s0.cfg.groups|)
      && (x !in r.decisions.preempted ==>
            TableOf(r.state, g, x) == TableOf(s0, g, x) + Delta(r.decisions, |s0.cfg.groups|, x, g))
  {
    hide StateInv, RunWaiting, TableOf, CommonPrefixAll, Commit, Recorded, Delta;
    var w := Waiting(l, queue, prm);
    EpilogueLeaves(w, queue, prm, g, x);
    EpilogueCfg(w, queue, prm);
    SameDelta(l.d, Epilogue(w, queue, prm).decisions, |s0.cfg.groups|, x, g);
  }

  lemma EpilogueCfg(w: Wait, waiting: seq<Entry>, prm: Params)
    requires w.taken <= |waiting|
    ensures Epilogue(w, waiting, prm).state.cfg == w.state.cfg
    ensures var d := Epilogue(w, waiting, prm).decisions;
      d.running == w.d.running && d.newLens == w.d.newLens && d.newBlocks == w.d.newBlocks
        && d.preempted == w.d.preempted
  {
    hide FanOut, Commit;
    var s := if w.running != [] then CommonPrefixAll(w.state, w.running[0].slot).0 else w.state;
    CommitTable(s, Epilogue(w, waiting, prm).decisions, w.running, prm);
  }

  // ---- whole runs -------------------------------------------------------------------

  /** The request neither starts nor ends its stay here: it is not freed, preempted or waiting, and
      nobody allocates for it out of turn. */
  predicate Stays(m: Mutation, s: State, x: Slot) {
    match m
    case Allocating(c) => c.slot != x
    case Freeing(slot) => slot != x
    case Scheduling(_, queue, _) => NotWaiting(queue, x) && (StepOf(m, s).Some? ==> x !in StepOf(m, s).value.preempted)
    case Marshalling(_, queue, _) => NotWaiting(queue, x) && (StepOf(m, s).Some? ==> x !in StepOf(m, s).value.preempted)
    case _ => true
  }

  predicate NotWaiting(queue: seq<Entry>, x: Slot) {
    forall j :: 0 <= j < |queue| ==> queue[j].slot != x
  }

  ghost predicate AllStay(ms: seq<Mutation>, s: State, x: Slot)
    decreases |ms|
  {
    ms == [] || (Stays(ms[0], s, x) && AllStay(ms[1..], Apply(ms[0], s), x))
  }

  /** The deltas a run records for a request, in order. */
  ghost function Trail(ms: seq<Mutation>, s: State, x: Slot, g: nat): seq<Id>
    requires g < |s.cfg.groups|
    decreases |ms|
  {
    if ms == [] then []
    else
      var d := StepOf(ms[0], s);
      var piece := if d.Some? && Recorded(d.value, |s.cfg.groups|) then Delta(d.value, |s.cfg.groups|, x, g) else [];
      piece + (if g < |Apply(ms[0], s).cfg.groups| then Trail(ms[1..], Apply(ms[0], s), x, g) else [])
  }

  lemma StartLeaves(s: State, g: nat, x: Slot)
    requires StateInv(s)
    ensures TableOf(StartStep(s), g, x) == TableOf(s, g, x) && StartStep(s).cfg == s.cfg
  {
    hide StateInv, FanOut;
    StartStepKeeps(s);
  }

  lemma FilingLeaves(s: State, slot: Slot, tokens: nat, g: nat, x: Slot)
    requires StateInv(s) && FullGroup(s.cfg, g)
    ensures CacheAll(s, slot, tokens).cfg == s.cfg && TableOf(CacheAll(s, slot, tokens), g, x) == TableOf(s, g, x)
  {
    hide CacheAll, GInv, ConfigOk;
    CacheAllOk(s, slot, tokens);
    GroupOf(s, g);
    if x == slot {
      FileAppends(s, slot, tokens, g);
    } else {
      SlotLeft(s, CacheAll(s, slot, tokens), slot, x, g);
    }
  }

  lemma SkippingLeaves(s: State, slot: Slot, total: nat, g: nat, x: Slot)
    requires StateInv(s) && FullGroup(s.cfg, g)
    ensures SkipSlot(s, slot, total).cfg == s.cfg && TableOf(SkipSlot(s, slot, total), g, x) == TableOf(s, g, x)
  {
    hide FanOut, GInv, ConfigOk, NoneGained, OnlySlots;
    SkipSlotKeeps(s, slot, total);
    GroupOf(s, g);
    if x == slot {
      PlainOk(Skip(slot, total), s.pool, s.tms, 0, []);
      OpAppends(Skip(slot, total), s.pool, s.tms, g);
    } else {
      SlotLeft(s, SkipSlot(s, slot, total), slot, x, g);
    }
  }

  /** Everything but a step leaves a staying request's table alone. */
  lemma OthersLeave(m: Mutation, s: State, x: Slot, g: nat)
    requires StateInv(s) && Allowed(m, s) && Stays(m, s, x) && !m.Scheduling? && !m.Marshalling? && FullGroup(s.cfg, g)
    ensures Apply(m, s).cfg == s.cfg && TableOf(Apply(m, s), g, x) == TableOf(s, g, x)
  {
    hide StateInv, AllocateSlots, FreeSlot, UpdateTable, BurstTable, StartStep, CommonPrefixAll, TableOf, CallOk,
         Hashed,
         HitTable, HitLength, Uncached, CacheAll, EvictAll, ResetCache, CanFile, SkipSlot;
    match m
    case Allocating(c) =>
      if c.newTokens > 0 { AllOrNothing(s, c); } else { NothingAsked(s, c); OnlySlotsRefl(s.tms, c.slot); }
      SlotLeft(s, Apply(m, s), c.slot, x, g);
    case Freeing(slot) => FreeSlotKeeps(s, slot); SlotLeft(s, Apply(m, s), slot, x, g);
    case Reporting(reports) => UpdateTableOnly(s, reports); SameTables(s, Apply(m, s), g, x);
    case Bursting(slots, delta) => BurstTableOnly(s, slots, delta); SameTables(s, Apply(m, s), g, x);
    case Starting => StartLeaves(s, g, x);
    case Counting(slot) => CommonLeaves(s, slot, g, x); CommonPrefixKeeps(s, slot);
    case Filing(slot, tokens) => FilingLeaves(s, slot, tokens, g, x);
    case Skipping(slot, total) => SkippingLeaves(s, slot, total, g, x);
    case _ => SameTables(s, Apply(m, s), g, x);
  }

  lemma StepLeaves(m: Mutation, s: State, x: Slot, g: nat)
    requires StateInv(s) && Allowed(m, s) && Stays(m, s, x) && (m.Scheduling? || m.Marshalling?) && FullGroup(s.cfg, g)
    ensures Apply(m, s).cfg == s.cfg
    ensures StepOf(m, s).Some? ==> Recorded(StepOf(m, s).value, |s.cfg.groups|)
    ensures TableOf(Apply(m, s), g, x)
         == TableOf(s, g, x) + (if StepOf(m, s).Some? then Delta(StepOf(m, s).value, |s.cfg.groups|, x, g) else [])
  {
    hide StateInv, Run, Resync, Load, QueueOk, Hashed, TableOf, Recorded, Delta;
    assert TableOf(s, g, x) + [] == TableOf(s, g, x);
    match m
    case Scheduling(slots, queue, prm) =>
      if Load(s, slots).Some? { StepAppends(s, Load(s, slots).value, queue, prm, x, g); }
    case Marshalling(marshalled, queue, prm) =>
      ResyncPosed(s, marshalled, queue);
      ResyncOnly(s, marshalled);
      SameTables(s, Resync(s, marshalled), g, x);
      StepAppends(Resync(s, marshalled), marshalled, queue, prm, x, g);
  }

  /**
   * Over any run in which a request stays scheduled, its table in a full-attention group is the
   * table it started with followed by the deltas the steps recorded for it, in order.
   */
  lemma {:induction false} DeltasRebuild(ms: seq<Mutation>, s: State, x: Slot, g: nat)
    requires StateInv(s) && AllAllowed(ms, s) && AllStay(ms, s, x) && FullGroup(s.cfg, g)
    ensures TableOf(ApplyAll(ms, s), g, x) == TableOf(s, g, x) + Trail(ms, s, x, g)
    decreases |ms|
  {
    hide StateInv, Allowed, Apply, Stays, StepOf, TableOf, Recorded, Delta;
    if ms == [] {
      assert TableOf(s, g, x) + [] == TableOf(s, g, x);
    } else {
      var m := ms[0];
      ApplyKeeps(m, s);
      var d := StepOf(m, s);
      if m.Scheduling? || m.Marshalling? {
        StepLeaves(m, s, x, g);
      } else {
        OthersLeave(m, s, x, g);
        NoStep(m, s);
        assert TableOf(s, g, x) + [] == TableOf(s, g, x);
      }
      DeltasRebuild(ms[1..], Apply(m, s), x, g);
      var piece := if d.Some? then Delta(d.value, |s.cfg.groups|, x, g) else [];
      var rest := Trail(ms[1..], Apply(m, s), x, g);
      assert TableOf(s, g, x) + piece + rest == TableOf(s, g, x) + (piece + rest);
    }
  }
}
