/**
 * Slot recycling: once a request has been freed and forgotten, nothing of it is left, and no run
 * of entry points that do not name the slot brings anything back. Whoever gets the slot next
 * finds it as a new manager has it.
 */
module Recycled {
  import opened Basics
  import opened PoolSpec
  import opened PoolInv
  import opened TypeSpec
  import opened TypeInv
  import opened TypeAlloc
  import opened HitSpec
  import opened ManagerSpec
  import opened ManagerInv
  import opened Admission
  import opened SchedSpec
  import opened StepProps
  import opened RunInv
  import opened Served
  import opened TableSpec
  import opened CacheReset
  import opened Mutations
  import opened BoundaryRuns
  import opened Commits

  /** The group has no key for the slot: no table, not even an empty one, and no mamba state. */
  predicate Keyless(t: Tm, x: Slot) {
    && x !in t.reqBlocks && x !in t.numCached
    && (t.group.kind.Mamba? ==> x !in t.lastState && x !in t.allocatedReqs)
  }

  predicate NoTrace(ts: seq<Tm>, x: Slot) {
    forall i :: 0 <= i < |ts| ==> Keyless(ts[i], x)
  }

  /** No entry, no hashes, no hit length, and in no group any trace. */
  ghost predicate Clean(s: State, x: Slot) {
    TableGet(s, x).None? && Hashes(s, x) == [] && x !in s.hitLen && NoTrace(s.tms, x)
  }

  /** Another slot's tables changed. */
  lemma SlotClean(s: State, r: State, slot: Slot, x: Slot)
    requires OnlySlotState(s, r, slot) && x != slot && (x in r.hitLen ==> x in s.hitLen) && Clean(s, x)
    ensures Clean(r, x)
  {
    forall i | 0 <= i < |r.tms| ensures Keyless(r.tms[i], x)
    {
      assert OnlySlot(s.tms[i], r.tms[i], slot) && Keyless(s.tms[i], x);
      OtherSlot(s.tms[i], r.tms[i], slot, x);
    }
  }

  lemma AllocClean(s: State, c: Call, x: Slot)
    requires StateInv(s) && CallOk(s, c) && c.slot != x && Clean(s, x)
    ensures Clean(AllocateSlots(s, c).0, x)
  {
    hide StateInv, CallOk, Clean, AllocateSlots, NoneGained;
    if c.newTokens > 0 {
      AllOrNothing(s, c);
      SlotClean(s, AllocateSlots(s, c).0, c.slot, x);
    } else {
      NothingAsked(s, c);
    }
  }

  lemma FreeClean(s: State, slot: Slot, x: Slot)
    requires StateInv(s) && slot != x && Clean(s, x)
    ensures Clean(FreeSlot(s, slot), x) && StateInv(FreeSlot(s, slot))
  {
    hide StateInv, Clean, FreeSlot;
    FreeSlotKeeps(s, slot);
    SlotClean(s, FreeSlot(s, slot), slot, x);
  }

  /** Nobody in the queue has the slot. */
  predicate Absent(es: seq<Entry>, x: Slot) {
    forall i :: 0 <= i < |es| ==> es[i].slot != x
  }

  // ---- one step ---------------------------------------------------------------------

  lemma {:induction false} TryClean(s: State, running: seq<Entry>, preempted: seq<Slot>, e: Entry, n: nat, prm: Params,
                                    x: Slot)
    requires StateInv(s) && n > 0 && e.slot != x && Absent(running, x) && Clean(s, x)
    ensures Clean(TryAllocate(s, running, preempted, e, n, prm).state, x)
    decreases |running|
  {
    hide AllocateSlots, FreeSlot, StateInv, Clean, CallOk;
    RunningCallOk(s, e, n, prm);
    AllocClean(s, RunningCall(e, n, prm), x);
    AllOrNothing(s, RunningCall(e, n, prm));
    var (s1, out) := AllocateSlots(s, RunningCall(e, n, prm));
    if out.Refused? && running != [] {
      var victim := running[|running| - 1];
      FreeClean(s1, victim.slot, x);
      if victim.slot != e.slot {
        TryClean(FreeSlot(s1, victim.slot), running[..|running| - 1], preempted + [victim.slot], e, n, prm, x);
      }
    }
  }

  lemma {:induction false} RunningClean(s: State, running: seq<Entry>, i: nat, budget: nat, d: Decisions, prm: Params,
                                        x: Slot)
    requires StateInv(s) && Absent(running, x) && Clean(s, x)
    ensures Clean(RunRunning(s, running, i, budget, d, prm).state, x)
    decreases |running| - i
  {
    hide TryAllocate, RunningTokens, StateInv, Clean, Progress;
    if i < |running| && budget > 0 {
      var n := RunningTokens(running[i], budget, prm);
      if n == 0 {
        RunningClean(s, running, i + 1, budget, d, prm, x);
      } else {
        TryKeeps(s, running, d.preempted, running[i], n, prm, SlotSet(running) + {running[i].slot});
        TryClean(s, running, d.preempted, running[i], n, prm, x);
        var t := TryAllocate(s, running, d.preempted, running[i], n, prm);
        ProgressInv(s, t.state, SlotSet(running) + {running[i].slot});
        TryShorter(s, running, d.preempted, running[i], n, prm);
        if t.outcome.Granted? {
          RunningClean(t.state, t.running, i + 1, Monus(budget, n),
                       Record(d.(preempted := t.preempted), running[i].slot, n, t.outcome.blocks), prm, x);
        }
      }
    }
  }

  lemma {:induction false} TryShorter(s: State, running: seq<Entry>, preempted: seq<Slot>, e: Entry, n: nat,
                                      prm: Params)
    ensures TryAllocate(s, running, preempted, e, n, prm).running <= running
    decreases |running|
  {
    hide AllocateSlots, FreeSlot;
    var (s1, out) := AllocateSlots(s, RunningCall(e, n, prm));
    if out.Refused? && running != [] {
      var victim := running[|running| - 1];
      if victim.slot != e.slot {
        TryShorter(FreeSlot(s1, victim.slot), running[..|running| - 1], preempted + [victim.slot], e, n, prm);
      }
    }
  }

  lemma AskClean(s: State, e: Entry, prm: Params, x: Slot)
    requires e.slot != x && Clean(s, x)
    ensures Clean(AskOf(s, e, prm).state, x)
  {
    hide Blank, NoTrace, HitTable, HitLength, Uncached;
  }

  lemma {:induction false} WaitingClean(s: State, running: seq<Entry>, waiting: seq<Entry>, k: nat, budget: nat,
                                        d: Decisions,
                                        prm: Params, x: Slot)
    requires StateInv(s) && k <= |waiting| && QueueOk(s.tms, waiting, k) && Absent(waiting, x) && Clean(s, x)
    ensures Clean(RunWaiting(s, running, waiting, k, budget, d, prm).state, x)
    decreases |waiting| - k
  {
    hide AllocateSlots, AskOf, WaitingTokens, StateInv, CallOk, HitsExist, Blank, NoTrace, Clean;
    if k < |waiting| && budget > 0 && |running| < prm.maxRunning {
      var e := waiting[k];
      AskKeeps(s, e, prm);
      AskClean(s, e, prm, x);
      var a := AskOf(s, e, prm);
      NoHit(s, e, prm);
      AskableTokens(s, e, prm);
      var n := WaitingTokens(a, e, budget, prm);
      if n > 0 && !(!prm.chunked && a.tokens > budget) {
        WaitingCallOk(s, a, e, n, prm, running != []);
        var c := WaitingCall(e, n, a.hit, prm, running != []);
        AllOrNothing(a.state, c);
        AllocClean(a.state, c, x);
        var (s2, out) := AllocateSlots(a.state, c);
        if out.Granted? {
          BlankOthers(a.state, s2, waiting, k);
          WaitingClean(s2, running + [e], waiting, k + 1, Monus(budget, n),
                       d.(admitted := d.admitted + [Admitted(e.slot, n, a.computed)]), prm, x);
        }
      }
    }
  }

  lemma StartClean(s: State, x: Slot)
    requires StateInv(s) && Clean(s, x)
    ensures Clean(StartStep(s), x)
  {
    hide StateInv, StartStep;
    StartStepKeeps(s);
    forall i | 0 <= i < |s.tms| ensures Keyless(StartStep(s).tms[i], x) { assert Keyless(s.tms[i], x); }
  }

  lemma ArrangeClean(s: State, waiting: seq<Entry>, prm: Params, x: Slot)
    requires StateInv(s) && Clean(s, x)
    ensures Clean(Arrange(s, waiting, prm).0, x)
  {
    hide StateInv, StartStep, Blank, NoTrace, Pick, SortKeys;
    StartClean(s, x);
    if prm.sjf { KeysFromKeeps(StartStep(s), waiting, 0, [], prm); }
  }

  lemma {:induction false} PreemptedNone(s: State, slots: seq<Slot>, x: Slot)
    requires TableGet(s, x).None?
    ensures TableGet(MarkPreempted(s, slots), x).None?
    decreases |slots|
  {
    hide TableGet, TableSet;
    if slots != [] {
      var e := TableGet(s, slots[0]);
      if e.Some? { SetOther(s, slots[0], Preempted(e.value), x); }
      PreemptedNone(if e.Some? then TableSet(s, slots[0], Preempted(e.value)) else s, slots[1..], x);
    }
  }

  lemma {:induction false} ScheduledNone(s: State, run: seq<Scheduled>, sampled: nat, x: Slot)
    requires TableGet(s, x).None?
    ensures TableGet(MarkScheduled(s, run, sampled), x).None?
    decreases |run|
  {
    hide TableGet, TableSet;
    if run != [] {
      var e := TableGet(s, run[0].slot);
      if e.Some? { SetOther(s, run[0].slot, Advance(e.value, run[0].tokens, sampled), x); }
      ScheduledNone(if e.Some? then TableSet(s, run[0].slot, Advance(e.value, run[0].tokens, sampled)) else s,
                    run[1..], sampled, x);
    }
  }

  lemma {:induction false} AdmittedNone(s: State, adm: seq<Admitted>, running: seq<Entry>, sampled: nat, x: Slot)
    requires TableGet(s, x).None? && forall k :: 0 <= k < |adm| ==> adm[k].slot != x
    ensures TableGet(MarkAdmitted(s, adm, running, sampled), x).None?
    decreases |adm|
  {
    hide TableGet, TableSet, LastOf, Enter;
    if adm != [] {
      var e := LastOf(running, adm[0].slot);
      if e.Some? { SetOther(s, adm[0].slot, Enter(e.value, adm[0], sampled), x); }
      AdmittedNone(if e.Some? then TableSet(s, adm[0].slot, Enter(e.value, adm[0], sampled)) else s, adm[1..], running,
                   sampled, x);
    }
  }

  lemma CommitClean(s: State, d: Decisions, running: seq<Entry>, prm: Params, x: Slot)
    requires Clean(s, x) && NotAdmitted(d, x)
    ensures Clean(Commit(s, d, running, prm), x)
  {
    hide Blank, NoTrace, TableGet, MarkPreempted, MarkScheduled, MarkAdmitted;
    PreemptedNone(s, d.preempted, x);
    ScheduledNone(MarkPreempted(s, d.preempted), d.running, prm.sampled, x);
    AdmittedNone(MarkScheduled(MarkPreempted(s, d.preempted), d.running, prm.sampled), d.admitted, running,
                 prm.sampled, x);
    CommitTable(s, d, running, prm);
  }

  lemma EpilogueClean(w: Wait, queue: seq<Entry>, prm: Params, x: Slot)
    requires StateInv(w.state) && w.taken <= |queue| && Absent(w.running, x) && Clean(w.state, x)
    requires NotAdmitted(w.d, x)
    ensures Clean(Epilogue(w, queue, prm).state, x)
  {
    hide StateInv, Clean, CommonPrefixAll, Commit;
    var s := w.state;
    if w.running != [] {
      CommonPrefixKeeps(s, w.running[0].slot);
      SlotClean(s, CommonPrefixAll(s, w.running[0].slot).0, w.running[0].slot, x);
      s := CommonPrefixAll(s, w.running[0].slot).0;
    }
    CommitClean(s, Epilogue(w, queue, prm).decisions, w.running, prm, x);
  }

  predicate NotAdmitted(d: Decisions, x: Slot) {
    forall k :: 0 <= k < |d.admitted| ==> d.admitted[k].slot != x
  }

  /** Admitted slots come from the queue. */
  lemma {:induction false} WaitingAbsent(s: State, running: seq<Entry>, waiting: seq<Entry>, k: nat, budget: nat,
                                         d: Decisions,
                                         prm: Params, x: Slot)
    requires k <= |waiting| && Absent(waiting, x) && NotAdmitted(d, x)
    ensures NotAdmitted(RunWaiting(s, running, waiting, k, budget, d, prm).d, x)
    decreases |waiting| - k
  {
    hide AllocateSlots, AskOf, WaitingTokens, WaitingCall;
    if k < |waiting| && budget > 0 && |running| < prm.maxRunning {
      var e := waiting[k];
      var a := AskOf(s, e, prm);
      var n := WaitingTokens(a, e, budget, prm);
      var (s2, out) := AllocateSlots(a.state, WaitingCall(e, n, a.hit, prm, running != []));
      if !((!prm.chunked && a.tokens > budget) || a.tokens == 0 || n == 0) && out.Granted? {
        WaitingAbsent(s2, running + [e], waiting, k + 1, Monus(budget, n),
                      d.(admitted := d.admitted + [Admitted(e.slot, n, a.computed)]), prm, x);
      }
    }
  }

  /** A step leaves a clean slot clean that is in neither queue. */
  lemma StepClean(s: State, running: seq<Entry>, waiting: seq<Entry>, prm: Params, x: Slot)
    requires WellPosed(s, running, waiting) && Absent(running, x) && Absent(waiting, x) && Clean(s, x)
    ensures Run(s, running, waiting, prm).Ok? && Clean(Run(s, running, waiting, prm).state, x)
  {
    hide Arrange, RunRunning, RunWaiting, Commit, CommonPrefixAll, StateInv, Progress, QueueOk, Clean;
    ArrangeKeeps(s, waiting, prm);
    ArrangePermutes(s, waiting, prm);
    ArrangeClean(s, waiting, prm, x);
    var (s0, queue) := Arrange(s, waiting, prm);
    assert Absent(queue, x) by {
      forall i | 0 <= i < |queue| ensures queue[i].slot != x { assert queue[i] in multiset(waiting); }
    }
    RunningKeeps(s0, running, 0, prm.maxTokens, NONE, prm, SlotSet(running));
    RunningClean(s0, running, 0, prm.maxTokens, NONE, prm, x);
    var l := RunRunning(s0, running, 0, prm.maxTokens, NONE, prm);
    ProgressInv(s0, l.state, SlotSet(running));
    forall f | f in queue
      ensures f.slot !in SlotSet(running)
    {
      assert f in multiset(queue);
      assert f in multiset(waiting);
    }
    ProgressQueue(s0, l.state, SlotSet(running), queue);
    if l.d.preempted == [] {
      WaitingKeeps(l.state, l.running, queue, 0, l.budget, l.d, prm);
      WaitingClean(l.state, l.running, queue, 0, l.budget, l.d, prm, x);
    }
    var w := Waiting(l, queue, prm);
    WaitingFront(l, queue, prm);
    NoneAdmitted(s0, running, prm);
    if l.d.preempted == [] { WaitingAbsent(l.state, l.running, queue, 0, l.budget, l.d, prm, x); }
    EpilogueClean(w, queue, prm, x);
  }

  // ---- whole runs -------------------------------------------------------------------

  /** The event does not name the slot. */
  predicate Silent(m: Mutation, s: State, x: Slot) {
    match m
    case Allocating(c) => c.slot != x
    case Freeing(slot) => slot != x
    case Putting(slot, _) => slot != x
    case Hashing(slot, _) => slot != x
    case Looking(slot, _, _) => slot != x
    case Counting(slot) => slot != x
    case Filing(slot, _) => slot != x
    case Skipping(slot, _) => slot != x
    case Scheduling(slots, queue, _) => Absent(queue, x) && (Load(s, slots).Some? ==> Absent(Load(s, slots).value, x))
    case Marshalling(running, queue, _) => Absent(running, x) && Absent(queue, x)
    case _ => true
  }

  ghost predicate AllSilent(ms: seq<Mutation>, s: State, x: Slot)
    decreases |ms|
  {
    ms == [] || (Silent(ms[0], s, x) && AllSilent(ms[1..], Apply(ms[0], s), x))
  }

  lemma {:induction false} ReportsNone(s: State, reports: seq<Report>, x: Slot)
    requires TableGet(s, x).None?
    ensures TableGet(UpdateTable(s, reports), x).None?
    decreases |reports|
  {
    hide TableGet, TableSet, Updated;
    if reports != [] {
      var e := TableGet(s, reports[0].slot);
      if e.Some? { SetOther(s, reports[0].slot, Updated(e.value, reports[0]), x); }
      ReportsNone(if e.Some? then TableSet(s, reports[0].slot, Updated(e.value, reports[0])) else s, reports[1..], x);
    }
  }

  lemma {:induction false} BurstsNone(s: State, slots: seq<Slot>, delta: int, x: Slot)
    requires TableGet(s, x).None?
    ensures TableGet(BurstTable(s, slots, delta), x).None?
    decreases |slots|
  {
    hide TableGet, TableSet, Burst;
    if slots != [] {
      var e := TableGet(s, slots[0]);
      if e.Some? { SetOther(s, slots[0], Burst(e.value, delta), x); }
      BurstsNone(if e.Some? then TableSet(s, slots[0], Burst(e.value, delta)) else s, slots[1..], delta, x);
    }
  }

  lemma {:induction false} ResyncNone(s: State, running: seq<Entry>, x: Slot)
    requires TableGet(s, x).None? && Absent(running, x)
    ensures TableGet(Resync(s, running), x).None?
    decreases |running|
  {
    hide TableGet, TableSet;
    if running != [] {
      SetOther(s, running[0].slot, running[0], x);
      ResyncNone(TableSet(s, running[0].slot, running[0]), running[1..], x);
    }
  }

  /** Only the resident table changed, and not for the slot. */
  lemma TableClean(s: State, r: State, x: Slot)
    requires Clean(s, x) && r == s.(table := r.table) && TableGet(r, x).None?
    ensures Clean(r, x)
  {
    hide Blank, NoTrace;
  }

  /** Entry points that write the resident table or the request's own maps. */
  lemma EntryClean(m: Mutation, s: State, x: Slot)
    requires Clean(s, x) && Silent(m, s, x)
    requires m.Putting? || m.Hashing? || m.Reporting? || m.Bursting? || m.Clearing? || m.Forgetting?
    ensures Clean(Apply(m, s), x)
  {
    hide Blank, NoTrace;
    match m
    case Reporting(reports) =>
      ReportsNone(s, reports, x);
      UpdateTableOnly(s, reports);
    case Bursting(slots, delta) =>
      BurstsNone(s, slots, delta, x);
      BurstTableOnly(s, slots, delta);
    case _ =>
  }

  /** Entry points that move blocks or mappings, and lookups. */
  lemma BlocksClean(m: Mutation, s: State, x: Slot)
    requires StateInv(s) && Allowed(m, s) && Clean(s, x) && Silent(m, s, x)
    requires !m.Putting? && !m.Hashing? && !m.Reporting? && !m.Bursting? && !m.Clearing? && !m.Forgetting?
    requires !m.Scheduling? && !m.Marshalling?
    ensures Clean(Apply(m, s), x)
  {
    hide StateInv, Blank, NoTrace, AllocateSlots, FreeSlot, StartStep, CommonPrefixAll, CacheAll, FanOut, EvictAll,
         ResetCache, CallOk, Hashed, CanFile, HitTable, HitLength, Uncached, OnlySlots, NoneGained;
    match m
    case Allocating(c) => AllocClean(s, c, x);
    case Freeing(slot) => FreeClean(s, slot, x);
    case Starting => StartClean(s, x);
    case Counting(slot) =>
      CommonPrefixKeeps(s, slot);
      SlotClean(s, Apply(m, s), slot, x);
    case Filing(slot, tokens) =>
      CacheAllOk(s, slot, tokens);
      SlotClean(s, Apply(m, s), slot, x);
    case Skipping(slot, total) =>
      SkipSlotKeeps(s, slot, total);
      SlotClean(s, Apply(m, s), slot, x);
    case _ =>
  }

  lemma EventClean(m: Mutation, s: State, x: Slot)
    requires StateInv(s) && Allowed(m, s) && Clean(s, x) && Silent(m, s, x)
    ensures Clean(Apply(m, s), x)
  {
    hide StateInv, Clean, Run, Resync, Load, QueueOk, Hashed;
    if m.Scheduling? {
      if Load(s, m.slots).Some? { StepClean(s, Load(s, m.slots).value, m.queue, m.params, x); }
    } else if m.Marshalling? {
      ResyncClean(s, m.marshalled, x);
      ResyncPosed(s, m.marshalled, m.queue);
      StepClean(Resync(s, m.marshalled), m.marshalled, m.queue, m.params, x);
    } else if m.Putting? || m.Hashing? || m.Reporting? || m.Bursting? || m.Clearing? || m.Forgetting? {
      EntryClean(m, s, x);
    } else {
      BlocksClean(m, s, x);
    }
  }

  lemma ResyncClean(s: State, running: seq<Entry>, x: Slot)
    requires Clean(s, x) && Absent(running, x)
    ensures Clean(Resync(s, running), x)
  {
    hide Blank, NoTrace, Resync;
    ResyncNone(s, running, x);
    ResyncOnly(s, running);
    TableClean(s, Resync(s, running), x);
  }

  lemma {:induction false} RunClean(ms: seq<Mutation>, s: State, x: Slot)
    requires StateInv(s) && AllAllowed(ms, s) && AllSilent(ms, s, x) && Clean(s, x)
    ensures Clean(ApplyAll(ms, s), x)
    decreases |ms|
  {
    hide StateInv, Allowed, Apply, Silent, Clean;
    if ms != [] {
      EventClean(ms[0], s, x);
      ApplyKeeps(ms[0], s);
      RunClean(ms[1..], Apply(ms[0], s), x);
    }
  }

  /** A freed and forgotten slot holds nothing. */
  lemma Recycle(s: State, x: Slot)
    requires StateInv(s)
    ensures StateInv(Forget(FreeSlot(s, x), x)) && Clean(Forget(FreeSlot(s, x), x), x)
  {
    hide StateInv, FanOut, Do, GInv, ConfigOk;
    FreeSlotKeeps(s, x);
    ForgetKeeps(FreeSlot(s, x), x);
    assert NoTrace(FreeSlot(s, x).tms, x) by { ReleaseTraces(s, x); }
    ForgetLeavesNothing(FreeSlot(s, x), x);
  }

  /** A preempted request keeps its hashes and its resident entry, and nothing else. */
  lemma FreeKeeps(s: State, x: Slot)
    requires StateInv(s)
    ensures var r := FreeSlot(s, x);
      && NoTrace(r.tms, x) && x !in r.hitLen
      && Hashes(r, x) == Hashes(s, x) && TableGet(r, x) == TableGet(s, x)
  {
    hide FanOut, GInv, ConfigOk, NoTrace;
    ReleaseTraces(s, x);
  }

  lemma ReleaseTraces(s: State, x: Slot)
    requires StateInv(s)
    ensures NoTrace(FreeSlot(s, x).tms, x)
  {
    hide FanOut, Do, GInv, ConfigOk;
    PlainOk(Release(x), s.pool, s.tms, 0, []);
    var f := All(Release(x), s.pool, s.tms);
    forall i | 0 <= i < |f.tms| ensures Keyless(f.tms[i], x)
    {
      var q := FanGroup(Release(x), s.pool, s.tms, 0, [], i);
      ReleaseKeys(q, s.tms[i], x);
    }
  }

  lemma ReleaseKeys(p: Pool, t: Tm, x: Slot)
    ensures Keyless(Do(Release(x), p, t).tm, x)
  {
    hide FreeBlocks;
  }

  /**
   * Request death: free the slot and forget it. After any run of entry points that do not name
   * it, the slot is as a new manager has it: no entry, no hashes, no hit, and no key in any group.
   */
  lemma RecycledIsNew(s: State, x: Slot, ms: seq<Mutation>)
    requires StateInv(s) && AllAllowed(ms, Forget(FreeSlot(s, x), x)) && AllSilent(ms, Forget(FreeSlot(s, x), x), x)
    ensures Clean(ApplyAll(ms, Forget(FreeSlot(s, x), x)), x)
  {
    hide StateInv, Clean, FreeSlot, Forget;
    Recycle(s, x);
    RunClean(ms, Forget(FreeSlot(s, x), x), x);
  }

  /** In a new manager every slot is clean. */
  lemma NewIsClean(c: Config, n: nat, x: Slot)
    requires ConfigOk(c) && n > 0
    ensures Clean(State(c, InitPool(c.caching, n),
                        seq(|c.groups|, i requires 0 <= i < |c.groups| => InitTm(c.groups[i])),
                        map[], [], map[], seq(|c.groups|, _ => []), 0), x)
  {
    hide ConfigOk, InitPool;
  }
}
