/** Every scheduling step keeps the reachable-state invariant and cannot fail on well-posed queues. */
module RunInv {
  import opened Basics
  import opened PoolSpec
  import opened PoolInv
  import opened PoolCounts
  import opened TypeSpec
  import opened TypeInv
  import opened HitSpec
  import opened ManagerSpec
  import opened ManagerInv
  import opened Admission
  import opened SchedSpec
  import opened StepProps

  // ---- the other manager operations -------------------------------------------------

  lemma FreeSlotKeeps(s: State, slot: Slot)
    requires StateInv(s)
    ensures StateInv(FreeSlot(s, slot)) && OnlySlotState(s, FreeSlot(s, slot), slot)
    ensures FreeSlot(s, slot).hitLen == s.hitLen - {slot}
  {
    hide FanOut, GInv;
    PlainOk(Release(slot), s.pool, s.tms, 0, []);
    GroupsKept(s, FreeSlot(s, slot), slot);
  }

  /** Giving skipped blocks back: one slot's tables change, nobody gains, the index stays. */
  lemma SkipSlotKeeps(s: State, slot: Slot, total: nat)
    requires StateInv(s)
    ensures StateInv(SkipSlot(s, slot, total)) && OnlySlotState(s, SkipSlot(s, slot, total), slot)
    ensures NoneGained(s.pool, SkipSlot(s, slot, total).pool) && SkipSlot(s, slot, total).pool.cached == s.pool.cached
  {
    hide FanOut, GInv, ConfigOk, NoneGained, OnlySlots;
    PlainOk(Skip(slot, total), s.pool, s.tms, 0, []);
    SkipGives(slot, total, s.pool, s.tms, 0, []);
    GroupsKept(s, SkipSlot(s, slot, total), slot);
  }

  lemma StartStepKeeps(s: State)
    requires StateInv(s)
    ensures StateInv(StartStep(s)) && StartStep(s) == s.(tms := StartStep(s).tms) && |StartStep(s).tms| == |s.tms|
    ensures forall j :: 0 <= j < |s.tms| ==> StartStep(s).tms[j] == NewStep(s.tms[j])
  {
    hide FanOut, GInv;
    StepStartOk(s.pool, s.tms, 0, []);
  }

  lemma CommonPrefixKeeps(s: State, slot: Slot)
    requires StateInv(s)
    ensures StateInv(CommonPrefixAll(s, slot).0) && OnlySlotState(s, CommonPrefixAll(s, slot).0, slot)
    ensures CommonPrefixAll(s, slot).0.hitLen == s.hitLen
  {
    hide FanOut, GInv;
    if s.cfg.caching {
      PlainOk(Prefix(slot), s.pool, s.tms, 0, []);
      GroupsKept(s, CommonPrefixAll(s, slot).0, slot);
    } else {
      OnlySlotsRefl(s.tms, slot);
    }
  }

  // ---- pending hits -----------------------------------------------------------------

  lemma IndexedExists(p: Pool, k: HashKey)
    requires IndexOk(p)
    ensures GetOne(p.cached, k).Some? ==> 0 < GetOne(p.cached, k).value < |p.meta|
  {
    if GetOne(p.cached, k).Some? {
      var b := GetOne(p.cached, k).value;
      assert Contain(p.cached, k, b);
      KeyLookup(p, k, b);
      assert Owns(p, k, b);
      assert k in KeysOf(p, b);
      if b !in p.aliases { assert AliasesOf(p, b) == []; }
    }
  }

  lemma HitTableExists(s: State, slot: Slot, len: nat)
    requires StateInv(s)
    ensures HitsExist(s.pool, HitTable(s, slot, len)) && |HitTable(s, slot, len)| == |s.cfg.groups|
  {
    forall g | 0 <= g < |s.cfg.groups| ensures InRange(s.pool, HitTable(s, slot, len)[g]) {
      HitBlocksExist(s, s.cfg.groups[g].kind, s.cfg.groups[g].blockSize, slot, g, len);
      assert !s.cfg.caching ==> InRange(s.pool, []);
    }
  }

  lemma HitBlocksExist(s: State, kind: Kind, bs: Pos, slot: Slot, g: nat, len: nat)
    requires StateInv(s)
    ensures InRange(s.pool, HitBlocks(LookupOf(s, slot), kind, bs, g, len))
  {
    var l := LookupOf(s, slot);
    forall i: nat ensures BlockOr(CachedBlock(l, bs, g, i)) < |s.pool.meta| {
      var k := KeyAt(l.hashes, Stride(l, bs), g, i);
      if k.Some? { IndexedExists(s.pool, k.value); }
    }
  }

  /** The state differs in lookup bookkeeping only. */
  ghost predicate LookedUp(s: State, r: State) {
    r == s.(pending := r.pending, uncached := r.uncached, hitLen := r.hitLen)
  }

  lemma AskKeeps(s: State, e: Entry, prm: Params)
    requires StateInv(s)
    ensures var a := AskOf(s, e, prm);
      && StateInv(a.state) && LookedUp(s, a.state)
      && (e.computed == 0 ==> HitsExist(a.state.pool, a.state.pending) && (!s.cfg.caching ==> !HasHit(a.state.pending)))
      && (e.computed == 0 ==> a.hit <= Monus(e.tokens, 1))
  {
    hide GInv, Longest, Good;
    if e.computed == 0 && s.cfg.caching && !e.skipCache {
      HitTableExists(s, e.slot, HitLength(s, e.slot, Monus(e.tokens, 1)));
      LongestBound(s, e.slot, Monus(e.tokens, 1));
    }
  }

  lemma LongestBound(s: State, slot: Slot, cap: nat)
    ensures HitLength(s, slot, cap) <= cap
  {}

  // ---- the running loop -------------------------------------------------------------

  /** Slots whose tables may have changed are all in `slots`. */
  ghost predicate OnlyIn(ts: seq<Tm>, us: seq<Tm>, slots: set<Slot>) {
    |us| == |ts| && forall i, x :: 0 <= i < |ts| && x !in slots ==>
      Blocks(us[i], x) == Blocks(ts[i], x) && (x in us[i].numCached <==> x in ts[i].numCached)
  }

  ghost predicate Progress(s: State, r: State, slots: set<Slot>) {
    && StateInv(r) && r.cfg == s.cfg && r.hashes == s.hashes && r.table == s.table
    && OnlyIn(s.tms, r.tms, slots)
  }

  lemma ProgressTrans(s: State, r: State, q: State, slots: set<Slot>)
    requires Progress(s, r, slots) && Progress(r, q, slots)
    ensures Progress(s, q, slots)
  {
    hide StateInv;
  }

  lemma OneSlotProgress(s: State, r: State, slot: Slot, slots: set<Slot>)
    requires StateInv(r) && OnlySlotState(s, r, slot) && slot in slots
    ensures Progress(s, r, slots)
  {
    hide StateInv;
    forall i, x | 0 <= i < |s.tms| && x !in slots
      ensures Blocks(r.tms[i], x) == Blocks(s.tms[i], x) && (x in r.tms[i].numCached <==> x in s.tms[i].numCached)
    {
      assert OnlySlot(s.tms[i], r.tms[i], slot);
      OtherSlot(s.tms[i], r.tms[i], slot, x);
    }
  }

  function SlotSet(es: seq<Entry>): set<Slot> { set e | e in es :: e.slot }

  lemma RunningCallOk(s: State, e: Entry, n: nat, prm: Params)
    ensures CallOk(s, RunningCall(e, n, prm))
  {}

  lemma {:induction false} TryKeeps(s: State, running: seq<Entry>, preempted: seq<Slot>, e: Entry, n: nat, prm: Params,
                                    slots: set<Slot>)
    requires StateInv(s) && n > 0 && e.slot in slots && SlotSet(running) <= slots
    ensures var t := TryAllocate(s, running, preempted, e, n, prm); Progress(s, t.state, slots) && !t.outcome.Failed?
    decreases |running|
  {
    hide AllocateSlots, FreeSlot, StateInv, Progress, CallOk;
    RunningCallOk(s, e, n, prm);
    AllOrNothing(s, RunningCall(e, n, prm));
    var (s1, out) := AllocateSlots(s, RunningCall(e, n, prm));
    OneSlotProgress(s, s1, e.slot, slots);
    if out.Refused? && running != [] {
      var victim := running[|running| - 1];
      assert victim.slot in SlotSet(running);
      FreeSlotKeeps(s1, victim.slot);
      var s2 := FreeSlot(s1, victim.slot);
      OneSlotProgress(s1, s2, victim.slot, slots);
      ProgressTrans(s, s1, s2, slots);
      if victim.slot != e.slot {
        TryKeeps(s2, running[..|running| - 1], preempted + [victim.slot], e, n, prm, slots);
        ProgressTrans(s, s2, TryAllocate(s, running, preempted, e, n, prm).state, slots);
      }
    }
  }

  lemma ProgressRefl(s: State, slots: set<Slot>)
    requires StateInv(s)
    ensures Progress(s, s, slots)
  {}

  lemma {:induction false} RunningKeeps(s: State, running: seq<Entry>, i: nat, budget: nat, d: Decisions, prm: Params,
                                        slots: set<Slot>)
    requires StateInv(s) && SlotSet(running) <= slots
    ensures var l := RunRunning(s, running, i, budget, d, prm);
      Progress(s, l.state, slots) && l.ok && l.running <= running
    decreases |running| - i
  {
    hide TryAllocate, RunningTokens, StateInv, Progress;
    ProgressRefl(s, slots);
    if i < |running| && budget > 0 {
      var n := RunningTokens(running[i], budget, prm);
      if n == 0 {
        RunningKeeps(s, running, i + 1, budget, d, prm, slots);
      } else {
        assert running[i].slot in SlotSet(running);
        TryKeeps(s, running, d.preempted, running[i], n, prm, slots);
        var t := TryAllocate(s, running, d.preempted, running[i], n, prm);
        ProgressInv(s, t.state, slots);
        if t.outcome.Granted? {
          var d2 := Record(d.(preempted := t.preempted), running[i].slot, n, t.outcome.blocks);
          RunningKeeps(t.state, t.running, i + 1, Monus(budget, n), d2, prm, slots);
          ProgressTrans(s, t.state, RunRunning(s, running, i, budget, d, prm).state, slots);
        }
      }
    }
  }

  lemma ProgressInv(s: State, r: State, slots: set<Slot>)
    requires Progress(s, r, slots)
    ensures StateInv(r)
  {}

  // ---- the waiting loop -------------------------------------------------------------

  /** A waiting request asks for at least one token. */
  predicate Askable(e: Entry) { e.computed < e.tokens < 0x1_0000_0000_0000_0000 }

  /** What the step demands of the waiting queue: distinct requests with something to compute;
      one that has computed nothing yet holds nothing. */
  ghost predicate QueueOk(ts: seq<Tm>, waiting: seq<Entry>, k: nat) {
    && DistinctSlots(waiting)
    && forall j :: k <= j < |waiting| ==>
       Askable(waiting[j]) && (waiting[j].computed == 0 ==> Blank(ts, waiting[j].slot))
  }

  lemma AskableTokens(s: State, e: Entry, prm: Params)
    requires Askable(e) && AskOf(s, e, prm).hit <= (if e.computed == 0 then Monus(e.tokens, 1) else 0)
    ensures AskOf(s, e, prm).tokens > 0
  {
    hide GetComputed;
    var a := AskOf(s, e, prm);
    assert a.computed < e.tokens;
    assert Sub64(e.tokens, a.computed) == e.tokens - a.computed;
  }

  lemma WaitingCallOk(s: State, a: Ask, e: Entry, n: nat, prm: Params, others: bool)
    requires e.computed == 0 ==>
               HitsExist(a.state.pool, a.state.pending) && (!s.cfg.caching ==> !HasHit(a.state.pending))
    requires e.computed == 0 ==> Blank(a.state.tms, e.slot)
    requires a.state.cfg == s.cfg
    ensures CallOk(a.state, WaitingCall(e, n, a.hit, prm, others))
  {
    hide HitsExist, Blank;
  }

  lemma BlankOthers(s: State, r: State, waiting: seq<Entry>, k: nat)
    requires k < |waiting| && QueueOk(s.tms, waiting, k) && OnlySlotState(s, r, waiting[k].slot)
    ensures QueueOk(r.tms, waiting, k + 1)
  {
    forall j | k + 1 <= j < |waiting| && waiting[j].computed == 0 ensures Blank(r.tms, waiting[j].slot) {
      assert Slots(waiting)[k] != Slots(waiting)[j];
      forall i | 0 <= i < |r.tms|
        ensures Blocks(r.tms[i], waiting[j].slot) == [] && waiting[j].slot !in r.tms[i].numCached
      {
        assert OnlySlot(s.tms[i], r.tms[i], waiting[k].slot);
        OtherSlot(s.tms[i], r.tms[i], waiting[k].slot, waiting[j].slot);
        assert Blocks(s.tms[i], waiting[j].slot) == [];
      }
    }
  }

  lemma {:induction false} WaitingKeeps(s: State, running: seq<Entry>, waiting: seq<Entry>, k: nat, budget: nat,
                                        d: Decisions, prm: Params)
    requires StateInv(s) && k <= |waiting| && QueueOk(s.tms, waiting, k)
    ensures var w := RunWaiting(s, running, waiting, k, budget, d, prm);
      StateInv(w.state) && w.ok && w.state.cfg == s.cfg && w.state.table == s.table
    decreases |waiting| - k
  {
    hide AllocateSlots, AskOf, WaitingTokens, StateInv, CallOk, HitsExist, Blank;
    if k < |waiting| && budget > 0 && |running| < prm.maxRunning {
      var e := waiting[k];
      AskKeeps(s, e, prm);
      var a := AskOf(s, e, prm);
      NoHit(s, e, prm);
      AskableTokens(s, e, prm);
      var n := WaitingTokens(a, e, budget, prm);
      if n > 0 && !(!prm.chunked && a.tokens > budget) {
        WaitingWithin(a, e, budget, prm);
        WaitingCallOk(s, a, e, n, prm, running != []);
        var c := WaitingCall(e, n, a.hit, prm, running != []);
        AllOrNothing(a.state, c);
        var (s2, out) := AllocateSlots(a.state, c);
        if out.Granted? {
          BlankOthers(a.state, s2, waiting, k);
          WaitingKeeps(s2, running + [e], waiting, k + 1, Monus(budget, n),
                       d.(admitted := d.admitted + [Admitted(e.slot, n, a.computed)]), prm);
        }
      }
    }
  }

  lemma NoHit(s: State, e: Entry, prm: Params)
    ensures e.computed != 0 ==> AskOf(s, e, prm).hit == 0
  {
    hide GetComputed;
  }

  // ---- reordering, commit -----------------------------------------------------------

  lemma SlotsConcat(a: seq<Entry>, b: seq<Entry>)
    ensures Slots(a + b) == Slots(a) + Slots(b)
  {}

  lemma {:induction false} SlotsPermute(a: seq<Entry>, b: seq<Entry>)
    requires multiset(a) == multiset(b)
    ensures multiset(Slots(a)) == multiset(Slots(b))
    decreases |a|
  {
    if a == [] {
      assert multiset(b) == multiset{};
      assert b == [];
    } else {
      assert a[0] in multiset(b);
      var i :| 0 <= i < |b| && b[i] == a[0];
      RemovePermutes(a, b, i);
      var c := b[..i] + b[i + 1..];
      SlotsPermute(a[1..], c);
      SlotsSplit(a, 0);
      SlotsSplit(b, i);
      assert a[..0] + a[1..] == a[1..];
    }
  }

  lemma RemovePermutes(a: seq<Entry>, b: seq<Entry>, i: nat)
    requires a != [] && i < |b| && b[i] == a[0] && multiset(a) == multiset(b)
    ensures multiset(a[1..]) == multiset(b[..i] + b[i + 1..])
  {
    var x, y, z, e := a[1..], b[..i], b[i + 1..], a[0];
    assert a == [e] + x;
    assert b == y + [e] + z;
    assert multiset(a) == multiset{e} + multiset(x);
    assert multiset(b) == multiset(y) + multiset{e} + multiset(z);
    assert multiset(y + z) == multiset(y) + multiset(z);
    assert multiset(x) == multiset(a) - multiset{e};
    assert multiset(y + z) == multiset(b) - multiset{e};
  }

  lemma SlotsSplit(b: seq<Entry>, i: nat)
    requires i < |b|
    ensures multiset(Slots(b)) == multiset(Slots(b[..i] + b[i + 1..])) + multiset{b[i].slot}
  {
    var x, y, v := Slots(b[..i]), Slots(b[i + 1..]), b[i].slot;
    assert Slots(b) == x + [v] + y;
    SlotsConcat(b[..i], b[i + 1..]);
    assert multiset(x + [v] + y) == multiset(x) + multiset{v} + multiset(y);
  }

  lemma QueuePermutes(ts: seq<Tm>, a: seq<Entry>, b: seq<Entry>)
    requires QueueOk(ts, a, 0) && multiset(a) == multiset(b)
    ensures QueueOk(ts, b, 0)
  {
    hide Blank, Askable;
    SlotsPermute(a, b);
    DistinctMultiset(Slots(a));
    DistinctMultiset(Slots(b));
    forall j | 0 <= j < |b| ensures Askable(b[j]) && (b[j].computed == 0 ==> Blank(ts, b[j].slot)) {
      assert b[j] in multiset(b);
      var i :| 0 <= i < |a| && a[i] == b[j];
    }
  }

  lemma {:induction false} KeysFromKeeps(s: State, waiting: seq<Entry>, i: nat, keys: seq<RKey>, prm: Params)
    requires i <= |waiting|
    ensures var r := KeysFrom(s, waiting, i, keys, prm).0; r == s.(uncached := r.uncached)
    decreases |waiting| - i
  {
    hide Uncached, HitLength;
    if i < |waiting| {
      var (s1, k) := KeyOf(s, waiting[i], i, prm);
      KeysFromKeeps(s1, waiting, i + 1, keys + [k], prm);
    }
  }

  lemma ArrangeKeeps(s: State, waiting: seq<Entry>, prm: Params)
    requires StateInv(s) && QueueOk(s.tms, waiting, 0)
    ensures var (r, queue) := Arrange(s, waiting, prm);
      StateInv(r) && QueueOk(r.tms, queue, 0) && r.cfg == s.cfg && r.table == s.table
  {
    hide StateInv, StartStep, Pick, SortKeys;
    StartStepKeeps(s);
    var s1 := StartStep(s);
    StartedQueue(s.tms, s1.tms, waiting);
    if prm.sjf {
      KeysFromKeeps(s1, waiting, 0, [], prm);
      UncachedOnly(s1, KeysFrom(s1, waiting, 0, [], prm).0);
      ArrangePermutes(s, waiting, prm);
      QueuePermutes(s1.tms, waiting, Arrange(s, waiting, prm).1);
    }
  }

  lemma StartedQueue(ts: seq<Tm>, us: seq<Tm>, waiting: seq<Entry>)
    requires QueueOk(ts, waiting, 0) && |us| == |ts| && forall j :: 0 <= j < |ts| ==> us[j] == NewStep(ts[j])
    ensures QueueOk(us, waiting, 0)
  {
    forall j | 0 <= j < |waiting| && waiting[j].computed == 0 ensures Blank(us, waiting[j].slot) {
      forall i | 0 <= i < |us| ensures Blocks(us[i], waiting[j].slot) == [] && waiting[j].slot !in us[i].numCached {
        assert Blocks(ts[i], waiting[j].slot) == [];
      }
    }
  }

  lemma UncachedOnly(s: State, r: State)
    requires StateInv(s) && r == s.(uncached := r.uncached)
    ensures StateInv(r)
  {}

  lemma TableOnly(s: State, r: State)
    requires StateInv(s) && r == s.(table := r.table)
    ensures StateInv(r)
  {}

  lemma {:induction false} MarkPreemptedTable(s: State, slots: seq<Slot>)
    ensures MarkPreempted(s, slots) == s.(table := MarkPreempted(s, slots).table)
    decreases |slots|
  {
    if slots != [] {
      var e := TableGet(s, slots[0]);
      MarkPreemptedTable(if e.Some? then TableSet(s, slots[0], Preempted(e.value)) else s, slots[1..]);
    }
  }

  lemma {:induction false} MarkScheduledTable(s: State, run: seq<Scheduled>, sampled: nat)
    ensures MarkScheduled(s, run, sampled) == s.(table := MarkScheduled(s, run, sampled).table)
    decreases |run|
  {
    if run != [] {
      var e := TableGet(s, run[0].slot);
      MarkScheduledTable(if e.Some? then TableSet(s, run[0].slot, Advance(e.value, run[0].tokens, sampled)) else s,
                         run[1..], sampled);
    }
  }

  lemma {:induction false} MarkAdmittedTable(s: State, adm: seq<Admitted>, running: seq<Entry>, sampled: nat)
    ensures MarkAdmitted(s, adm, running, sampled) == s.(table := MarkAdmitted(s, adm, running, sampled).table)
    decreases |adm|
  {
    if adm != [] {
      var e := LastOf(running, adm[0].slot);
      MarkAdmittedTable(if e.Some? then TableSet(s, adm[0].slot, Enter(e.value, adm[0], sampled)) else s, adm[1..],
                        running, sampled);
    }
  }

  lemma CommitTable(s: State, d: Decisions, running: seq<Entry>, prm: Params)
    ensures Commit(s, d, running, prm) == s.(table := Commit(s, d, running, prm).table)
  {
    hide MarkPreempted, MarkScheduled, MarkAdmitted;
    MarkPreemptedTable(s, d.preempted);
    MarkScheduledTable(MarkPreempted(s, d.preempted), d.running, prm.sampled);
    MarkAdmittedTable(MarkScheduled(MarkPreempted(s, d.preempted), d.running, prm.sampled), d.admitted, running,
                      prm.sampled);
  }

  // ---- the step ---------------------------------------------------------------------

  /** What a step demands of its queues. */
  ghost predicate WellPosed(s: State, running: seq<Entry>, waiting: seq<Entry>) {
    && StateInv(s) && QueueOk(s.tms, waiting, 0)
    && (forall e, f :: e in running && f in waiting ==> e.slot != f.slot)
  }

  lemma ProgressQueue(s: State, r: State, slots: set<Slot>, waiting: seq<Entry>)
    requires Progress(s, r, slots) && QueueOk(s.tms, waiting, 0)
    requires forall f :: f in waiting ==> f.slot !in slots
    ensures QueueOk(r.tms, waiting, 0)
  {
    hide StateInv;
    forall j | 0 <= j < |waiting| && waiting[j].computed == 0 ensures Blank(r.tms, waiting[j].slot) {
      var x := waiting[j].slot;
      assert waiting[j] in waiting;
      forall i | 0 <= i < |r.tms| ensures Blocks(r.tms[i], x) == [] && x !in r.tms[i].numCached {
        assert Blocks(s.tms[i], x) == [];
      }
    }
  }

  /** On a reachable state and well-posed queues a step succeeds and leaves a reachable state. */
  lemma StepKeeps(s: State, running: seq<Entry>, waiting: seq<Entry>, prm: Params)
    requires WellPosed(s, running, waiting)
    ensures Run(s, running, waiting, prm).Ok? && StateInv(Run(s, running, waiting, prm).state)
  {
    hide Arrange, RunRunning, RunWaiting, Commit, CommonPrefixAll, StateInv, Progress, QueueOk;
    ArrangeKeeps(s, waiting, prm);
    ArrangePermutes(s, waiting, prm);
    var (s0, queue) := Arrange(s, waiting, prm);
    RunningKeeps(s0, running, 0, prm.maxTokens, NONE, prm, SlotSet(running));
    var l := RunRunning(s0, running, 0, prm.maxTokens, NONE, prm);
    ProgressInv(s0, l.state, SlotSet(running));
    forall f | f in queue
      ensures f.slot !in SlotSet(running)
    {
      assert f in multiset(queue);
      assert f in multiset(waiting);
    }
    ProgressQueue(s0, l.state, SlotSet(running), queue);
    if l.d.preempted == [] { WaitingKeeps(l.state, l.running, queue, 0, l.budget, l.d, prm); }
    var w := Waiting(l, queue, prm);
    EpilogueKeeps(w, queue, prm);
  }

  lemma EpilogueKeeps(w: Wait, waiting: seq<Entry>, prm: Params)
    requires StateInv(w.state) && w.taken <= |waiting|
    ensures StateInv(Epilogue(w, waiting, prm).state)
  {
    hide StateInv, CommonPrefixAll, Commit;
    var s := w.state;
    if w.running != [] {
      CommonPrefixKeeps(s, w.running[0].slot);
      s := CommonPrefixAll(s, w.running[0].slot).0;
    }
    var d := Epilogue(w, waiting, prm).decisions;
    CommitTable(s, d, w.running, prm);
    TableOnly(s, Commit(s, d, w.running, prm));
  }
}
