/**
 * The running loop subtracts computed tokens from tokens plus placeholders in unsigned
 * arithmetic. Without draft tokens, and as long as reported counts never fall below the table's,
 * no run of steps, reports and bursts lets that subtraction wrap.
 */
module TokenCounts {
  import opened Basics
  import opened TypeSpec
  import opened HitSpec
  import opened ManagerSpec
  import opened SchedSpec
  import opened StepProps
  import opened RunInv
  import opened TableSpec
  import opened Mutations

  const WORD: nat := 0x1_0000_0000_0000_0000

  /** No draft tokens, and nothing computed that is neither a token nor a placeholder. */
  predicate Steady(e: Entry) {
    e.tokensWithSpec == e.tokens && e.computed <= e.tokens + e.placeholders
  }

  /** Every resident entry is steady and filed under its own slot. */
  ghost predicate TableSteady(s: State) {
    forall slot: Slot :: TableGet(s, slot).Some? ==>
      TableGet(s, slot).value.slot == slot && Steady(TableGet(s, slot).value)
  }

  /** What a running request may still be given. */
  function Room(e: Entry): int { e.tokensWithSpec + e.placeholders - e.computed }

  /** A steady request is never given more than is left of it. */
  lemma WithinRoom(e: Entry, budget: nat, prm: Params)
    requires Steady(e) && e.tokens + e.placeholders < WORD
    ensures RunningTokens(e, budget, prm) <= Room(e)
  {
    if !AtMax(e) {
      assert Sub64(e.tokensWithSpec + e.placeholders, e.computed) == Room(e);
      var n := Min(LongCap(Sub64(e.tokensWithSpec + e.placeholders, e.computed), prm), budget);
      SplitShortens(e, Min(n, Monus(prm.maxModelLen, e.computed + prm.sampled)), 0, 0, prm.cacheBlock);
    }
  }

  // ---- what the running loop schedules ----------------------------------------------

  /** The chunk belongs to one of the first `i` requests, within its room. */
  ghost predicate From(all: seq<Entry>, i: nat, c: Scheduled) {
    i <= |all| && exists j :: 0 <= j < i && all[j].slot == c.slot && c.tokens <= Room(all[j])
  }

  /** So does each scheduled chunk, and no slot is scheduled twice. */
  ghost predicate Picked(all: seq<Entry>, i: nat, run: seq<Scheduled>) {
    && (forall k :: 0 <= k < |run| ==> From(all, i, run[k]))
    && (forall k, l :: 0 <= k < l < |run| ==> run[k].slot != run[l].slot)
  }

  lemma FromLater(all: seq<Entry>, i: nat, j: nat, c: Scheduled)
    requires From(all, i, c) && i <= j <= |all|
    ensures From(all, j, c)
  {}

  lemma PickedNext(all: seq<Entry>, i: nat, run: seq<Scheduled>, n: nat)
    requires Picked(all, i, run) && i < |all| && DistinctSlots(all) && n <= Room(all[i])
    ensures Picked(all, i + 1, run) && Picked(all, i + 1, run + [Scheduled(all[i].slot, n)])
  {
    forall k | 0 <= k < |run| ensures run[k].slot != all[i].slot && From(all, i + 1, run[k]) {
      assert From(all, i, run[k]);
      var j :| 0 <= j < i && all[j].slot == run[k].slot && run[k].tokens <= Room(all[j]);
      assert Slots(all)[j] != Slots(all)[i];
    }
    assert From(all, i + 1, Scheduled(all[i].slot, n));
  }

  lemma PickedSkip(all: seq<Entry>, i: nat, j: nat, run: seq<Scheduled>)
    requires Picked(all, i, run) && i <= j <= |all|
    ensures Picked(all, j, run)
  {
    forall k | 0 <= k < |run| ensures From(all, j, run[k]) { FromLater(all, i, j, run[k]); }
  }

  lemma TryPrefix(s: State, running: seq<Entry>, preempted: seq<Slot>, e: Entry, n: nat, prm: Params)
    ensures TryAllocate(s, running, preempted, e, n, prm).state.table == s.table
    decreases |running|
  {
    hide FanOut, EstimateFrom;
    var (s1, out) := AllocateSlots(s, RunningCall(e, n, prm));
    if out.Refused? && running != [] {
      var victim := running[|running| - 1];
      if victim.slot != e.slot {
        TryPrefix(FreeSlot(s1, victim.slot), running[..|running| - 1], preempted + [victim.slot], e, n, prm);
      }
    }
  }

  lemma {:induction false} RunningPicks(all: seq<Entry>, s: State, running: seq<Entry>, i: nat, budget: nat,
                                        d: Decisions, prm: Params)
    requires DistinctSlots(all) && running <= all && Picked(all, Min(i, |all|), d.running)
    requires forall j :: 0 <= j < |all| ==> Steady(all[j]) && all[j].tokens + all[j].placeholders < WORD
    ensures var l := RunRunning(s, running, i, budget, d, prm);
      Picked(all, |all|, l.d.running) && l.state.table == s.table
    decreases |running| - i
  {
    hide TryAllocate, RunningTokens, Picked, Steady;
    if i >= |running| || budget == 0 {
      PickedSkip(all, Min(i, |all|), |all|, d.running);
    } else {
      var e := running[i];
      assert e == all[i];
      var n := RunningTokens(e, budget, prm);
      WithinRoom(e, budget, prm);
      RoomLeft(e);
      PickedNext(all, i, d.running, n);
      PickedSkip(all, i, |all|, d.running);
      if n == 0 {
        RunningPicks(all, s, running, i + 1, budget, d, prm);
      } else {
        TryPrefix(s, running, d.preempted, e, n, prm);
        var t := TryAllocate(s, running, d.preempted, e, n, prm);
        if t.outcome.Granted? {
          RunningPicks(all, t.state, t.running, i + 1, Monus(budget, n),
                       Record(d.(preempted := t.preempted), e.slot, n, t.outcome.blocks), prm);
        }
      }
    }
  }

  lemma RoomLeft(e: Entry)
    requires Steady(e)
    ensures Room(e) >= 0
  {}

  // ---- what the waiting loop admits -------------------------------------------------

  /** A waiting request the step may admit. */
  predicate Fresh(e: Entry) { e.tokensWithSpec == e.tokens && e.computed <= e.tokens < WORD }

  /** Each admitted chunk ends within its request. */
  predicate Fits(waiting: seq<Entry>, adm: seq<Admitted>) {
    |adm| <= |waiting| && forall k :: 0 <= k < |adm| ==>
      adm[k].slot == waiting[k].slot && adm[k].computed + adm[k].tokens <= waiting[k].tokens
  }

  lemma AskFits(s: State, e: Entry, budget: nat, prm: Params)
    requires Fresh(e)
    ensures var a := AskOf(s, e, prm);
      a.computed + WaitingTokens(a, e, budget, prm) <= e.tokens && a.state.table == s.table
  {
    hide HitTable, Uncached, HitLength;
    var a := AskOf(s, e, prm);
    HitBound(s, e.slot, Monus(e.tokens, 1));
    assert a.computed <= e.tokens;
    assert Sub64(e.tokens, a.computed) == e.tokens - a.computed;
    SplitShortens(e, Min(a.tokens, budget), a.hit, if e.computed == 0 then a.state.uncached else 0, prm.cacheBlock);
  }

  lemma HitBound(s: State, slot: Slot, cap: nat)
    ensures HitLength(s, slot, cap) <= cap
  {}

  lemma AllocTable(s: State, c: Call)
    ensures AllocateSlots(s, c).0.table == s.table
  {
    hide FanOut, EstimateFrom;
  }

  lemma {:induction false} WaitingFits(s: State, running: seq<Entry>, waiting: seq<Entry>, k: nat, budget: nat,
                                       d: Decisions, prm: Params)
    requires k <= |waiting| && |d.admitted| == k && Fits(waiting, d.admitted)
    requires forall j :: 0 <= j < |waiting| ==> Fresh(waiting[j])
    ensures var w := RunWaiting(s, running, waiting, k, budget, d, prm);
      && |w.d.admitted| == w.taken && Fits(waiting, w.d.admitted) && w.state.table == s.table
      && w.running == running + waiting[k..w.taken] && w.d == d.(admitted := w.d.admitted)
    decreases |waiting| - k
  {
    hide AllocateSlots, AskOf, WaitingTokens, WaitingCall, Fresh;
    assert running + waiting[k..k] == running;
    if k < |waiting| && budget > 0 && |running| < prm.maxRunning {
      var e := waiting[k];
      AskFits(s, e, budget, prm);
      var a := AskOf(s, e, prm);
      var n := WaitingTokens(a, e, budget, prm);
      AllocTable(a.state, WaitingCall(e, n, a.hit, prm, running != []));
      var (s2, out) := AllocateSlots(a.state, WaitingCall(e, n, a.hit, prm, running != []));
      if (!prm.chunked && a.tokens > budget) || a.tokens == 0 || n == 0 {
      } else if out.Granted? {
        var d1 := d.(admitted := d.admitted + [Admitted(e.slot, n, a.computed)]);
        WaitingFits(s2, running + [e], waiting, k + 1, Monus(budget, n), d1, prm);
        var w := RunWaiting(s, running, waiting, k, budget, d, prm);
        assert waiting[k..w.taken] == [e] + waiting[k + 1..w.taken];
      }
    }
  }

  // ---- the commit -------------------------------------------------------------------

  lemma PutSteady(s: State, slot: Slot, e: Entry)
    requires TableSteady(s) && Steady(e) && e.slot == slot
    ensures TableSteady(TableSet(s, slot, e))
    ensures forall x: Slot :: x != slot ==> TableGet(TableSet(s, slot, e), x) == TableGet(s, x)
  {
    forall x: Slot ensures TableGet(TableSet(s, slot, e), x) == if x == slot then Some(e) else TableGet(s, x) {}
  }

  lemma {:induction false} PreemptedSteady(s: State, slots: seq<Slot>)
    requires TableSteady(s)
    ensures TableSteady(MarkPreempted(s, slots)) && Lowered(s, MarkPreempted(s, slots))
    decreases |slots|
  {
    if slots != [] {
      var e := TableGet(s, slots[0]);
      if e.Some? {
        PutSteady(s, slots[0], Preempted(e.value));
        var r := TableSet(s, slots[0], Preempted(e.value));
        PreemptedSteady(r, slots[1..]);
      } else {
        PreemptedSteady(s, slots[1..]);
      }
    }
  }

  /** The same request with no more computed. */
  predicate Lower(e: Entry, f: Entry) {
    f.tokens == e.tokens && f.placeholders == e.placeholders && f.computed <= e.computed
  }

  /** Same entries, some with less computed. */
  ghost predicate Lowered(s: State, r: State) {
    forall x: Slot :: TableGet(r, x).Some? ==> TableGet(s, x).Some? && Lower(TableGet(s, x).value, TableGet(r, x).value)
  }

  /** The table has room for every chunk about to be committed. */
  ghost predicate Roomy(s: State, run: seq<Scheduled>) {
    && (forall k, l :: 0 <= k < l < |run| ==> run[k].slot != run[l].slot)
    && (forall k :: 0 <= k < |run| && TableGet(s, run[k].slot).Some? ==>
        run[k].tokens <= Room(TableGet(s, run[k].slot).value))
  }

  lemma AdvanceSteady(e: Entry, n: nat, sampled: nat)
    requires Steady(e) && n <= Room(e)
    ensures Steady(Advance(e, n, sampled)) && Advance(e, n, sampled).slot == e.slot
  {}

  lemma {:induction false} ScheduledSteady(s: State, run: seq<Scheduled>, sampled: nat)
    requires TableSteady(s) && Roomy(s, run)
    ensures TableSteady(MarkScheduled(s, run, sampled))
    decreases |run|
  {
    hide Steady, Advance, TableSet, TableGet, Room;
    if run != [] {
      var e := TableGet(s, run[0].slot);
      var r := s;
      if e.Some? {
        AdvanceSteady(e.value, run[0].tokens, sampled);
        PutSteady(s, run[0].slot, Advance(e.value, run[0].tokens, sampled));
        r := TableSet(s, run[0].slot, Advance(e.value, run[0].tokens, sampled));
      }
      forall k | 0 <= k < |run[1..]| && TableGet(r, run[1..][k].slot).Some?
        ensures run[1..][k].tokens <= Room(TableGet(r, run[1..][k].slot).value)
      {
        assert run[k + 1].slot != run[0].slot;
      }
      ScheduledSteady(r, run[1..], sampled);
    }
  }

  lemma {:induction false} LastOfQueue(a: seq<Entry>, b: seq<Entry>, k: nat)
    requires k < |b| && DistinctSlots(b)
    ensures LastOf(a + b, b[k].slot) == Some(b[k])
    decreases |b|
  {
    var all := a + b;
    assert all[|all| - 1] == b[|b| - 1];
    if k < |b| - 1 {
      assert Slots(b)[k] != Slots(b)[|b| - 1];
      var c := b[..|b| - 1];
      assert Slots(c) == Slots(b)[..|b| - 1];
      assert all[..|all| - 1] == a + c;
      LastOfQueue(a, c, k);
    }
  }

  lemma EnterSteady(e: Entry, a: Admitted, sampled: nat)
    requires Fresh(e) && a.computed + a.tokens <= e.tokens
    ensures Steady(Enter(e, a, sampled)) && Enter(e, a, sampled).slot == e.slot
  {}

  lemma {:induction false} AdmittedSteady(s: State, adm: seq<Admitted>, k: nat, front: seq<Entry>, queue: seq<Entry>,
                                          sampled: nat)
    requires TableSteady(s) && DistinctSlots(queue) && Fits(queue, adm) && |adm| == |queue| && k <= |adm|
    requires forall j :: 0 <= j < |queue| ==> Fresh(queue[j])
    ensures TableSteady(MarkAdmitted(s, adm[k..], front + queue, sampled))
    decreases |adm| - k
  {
    hide Steady, Fresh, Enter, TableSet, LastOf;
    if k < |adm| {
      LastOfQueue(front, queue, k);
      EnterSteady(queue[k], adm[k], sampled);
      PutSteady(s, adm[k].slot, Enter(queue[k], adm[k], sampled));
      assert adm[k..][0] == adm[k] && adm[k..][1..] == adm[k + 1..];
      AdmittedSteady(TableSet(s, adm[k].slot, Enter(queue[k], adm[k], sampled)), adm, k + 1, front, queue, sampled);
    }
  }

  /** What a scheduled chunk was cut from is still there when the commit reaches it. */
  lemma PickedRoomy(s: State, r: State, all: seq<Entry>, run: seq<Scheduled>)
    requires Picked(all, |all|, run) && Lowered(s, r) && TableSteady(r)
    requires forall j :: 0 <= j < |all| ==> TableGet(s, all[j].slot) == Some(all[j]) && Steady(all[j])
    requires DistinctSlots(all)
    ensures Roomy(r, run)
  {
    hide TableGet;
    forall k | 0 <= k < |run| && TableGet(r, run[k].slot).Some?
      ensures run[k].tokens <= Room(TableGet(r, run[k].slot).value)
    {
      assert From(all, |all|, run[k]);
      var j :| 0 <= j < |all| && all[j].slot == run[k].slot && run[k].tokens <= Room(all[j]);
      assert TableGet(s, all[j].slot) == Some(all[j]);
    }
  }

  // ---- whole runs -------------------------------------------------------------------

  predicate AllSteady(es: seq<Entry>) { forall j :: 0 <= j < |es| ==> Steady(es[j]) }

  /** Distinct slots, counts in a machine word, and requests that may be admitted. */
  predicate QueuesOk(running: seq<Entry>, waiting: seq<Entry>) {
    && DistinctSlots(running) && DistinctSlots(waiting)
    && (forall j :: 0 <= j < |running| ==> running[j].tokens + running[j].placeholders < WORD)
    && (forall j :: 0 <= j < |waiting| ==> Fresh(waiting[j]))
  }

  /** No report is behind the table. */
  predicate ReportsAhead(s: State, reports: seq<Report>)
    decreases |reports|
  {
    reports == [] ||
    (var e := TableGet(s, reports[0].slot);
     && (e.Some? ==> reports[0].tokens >= e.value.tokens)
     && ReportsAhead(if e.Some? then TableSet(s, reports[0].slot, Updated(e.value, reports[0])) else s, reports[1..]))
  }

  /** Distinct slots in the queues, counts in a machine word, reports not behind; entries that come
      from outside have no draft tokens and are steady. */
  ghost predicate Fair(s: State, m: Mutation) {
    match m
    case Scheduling(slots, waiting, _) => Load(s, slots).Some? ==> QueuesOk(Load(s, slots).value, waiting)
    case Marshalling(running, waiting, _) => AllSteady(running) && QueuesOk(running, waiting)
    case Reporting(reports) => ReportsAhead(s, reports)
    case Putting(slot, e) => e.slot == slot && Steady(e)
    case _ => true
  }

  ghost predicate AllFair(ms: seq<Mutation>, s: State)
    decreases |ms|
  {
    ms == [] || (Fair(s, ms[0]) && AllFair(ms[1..], Apply(ms[0], s)))
  }

  /** The machine's subtraction for each of these requests is the true difference. */
  predicate Unwrapped(running: seq<Entry>) {
    forall j :: 0 <= j < |running| ==>
      Sub64(running[j].tokensWithSpec + running[j].placeholders, running[j].computed) == Room(running[j])
  }

  /** So it is for each request whose turn may come in the event's running loop. */
  predicate EventUnwrapped(m: Mutation, s: State) {
    match m
    case Scheduling(slots, _, _) => Load(s, slots).Some? ==> Unwrapped(Load(s, slots).value)
    case Marshalling(running, _, _) => Unwrapped(running)
    case _ => true
  }

  ghost predicate AllUnwrapped(ms: seq<Mutation>, s: State)
    decreases |ms|
  {
    ms == [] || (EventUnwrapped(ms[0], s) && AllUnwrapped(ms[1..], Apply(ms[0], s)))
  }

  lemma SteadyUnwrapped(running: seq<Entry>, waiting: seq<Entry>)
    requires AllSteady(running) && QueuesOk(running, waiting)
    ensures Unwrapped(running)
  {}

  lemma TableFrame(s: State, r: State)
    requires r.table == s.table
    ensures TableSteady(s) ==> TableSteady(r)
    ensures forall x: Slot :: TableGet(r, x) == TableGet(s, x)
  {
    hide Steady;
    forall x: Slot ensures TableGet(r, x) == TableGet(s, x) {}
  }

  lemma ArrangeTable(s: State, waiting: seq<Entry>, prm: Params)
    ensures Arrange(s, waiting, prm).0.table == s.table
  {
    hide FanOut, SortKeys, Pick;
    if prm.sjf && |waiting| >= 2 { KeysTable(StartStep(s), waiting, 0, [], prm); }
  }

  lemma {:induction false} KeysTable(s: State, waiting: seq<Entry>, i: nat, keys: seq<RKey>, prm: Params)
    requires i <= |waiting|
    ensures KeysFrom(s, waiting, i, keys, prm).0.table == s.table
    decreases |waiting| - i
  {
    hide Uncached, HitLength;
    if i < |waiting| {
      var (s1, k) := KeyOf(s, waiting[i], i, prm);
      KeysTable(s1, waiting, i + 1, keys + [k], prm);
    }
  }

  lemma CommonTable(s: State, slot: Slot)
    ensures CommonPrefixAll(s, slot).0.table == s.table
  {
    hide FanOut;
  }

  lemma DistinctEntries(a: seq<Entry>, b: seq<Entry>)
    requires DistinctSlots(a) && multiset(a) == multiset(b) && forall j :: 0 <= j < |a| ==> Fresh(a[j])
    ensures DistinctSlots(b) && forall j :: 0 <= j < |b| ==> Fresh(b[j])
  {
    SlotsPermute(a, b);
    DistinctMultiset(Slots(a));
    DistinctMultiset(Slots(b));
    forall j | 0 <= j < |b| ensures Fresh(b[j]) {
      assert b[j] in multiset(b);
      var i :| 0 <= i < |a| && a[i] == b[j];
    }
  }

  /** A step keeps the table steady. */
  lemma StepSteady(s: State, running: seq<Entry>, waiting: seq<Entry>, prm: Params)
    requires TableSteady(s) && AllSteady(running) && QueuesOk(running, waiting)
    requires forall j :: 0 <= j < |running| ==> TableGet(s, running[j].slot) == Some(running[j])
    ensures TableSteady(Run(s, running, waiting, prm).state)
  {
    hide Arrange, RunRunning, RunWaiting, Steady, Fresh, TableGet, Epilogue;
    var (s0, queue) := Arrange(s, waiting, prm);
    ArrangeTable(s, waiting, prm);
    TableFrame(s, s0);
    ArrangePermutes(s, waiting, prm);
    DistinctEntries(waiting, queue);
    RunningPicks(running, s0, running, 0, prm.maxTokens, NONE, prm);
    NoneAdmitted(s0, running, prm);
    var l := RunRunning(s0, running, 0, prm.maxTokens, NONE, prm);
    TableFrame(s0, l.state);
    if l.ok {
      WaitingFits(l.state, l.running, queue, 0, l.budget, l.d, prm);
      WaitingNone(l, queue, prm);
      var w := Waiting(l, queue, prm);
      TableFrame(l.state, w.state);
      if w.ok { FinishSteady(s, running, queue, w, prm); }
    }
  }

  lemma WaitingNone(l: Loop, queue: seq<Entry>, prm: Params)
    requires l.d.preempted != [] ==> l.d.admitted == []
    ensures var w := Waiting(l, queue, prm);
      l.d.preempted != [] ==>
        w.running == l.running + queue[..w.taken] && |w.d.admitted| == w.taken && w.state == l.state && w.d == l.d
  {
    assert l.running + queue[..0] == l.running;
  }

  lemma FinishSteady(s: State, all: seq<Entry>, queue: seq<Entry>, w: Wait, prm: Params)
    requires TableSteady(s) && w.state.table == s.table && w.taken <= |queue| && DistinctSlots(all)
    requires DistinctSlots(queue)
    requires forall j :: 0 <= j < |all| ==> TableGet(s, all[j].slot) == Some(all[j]) && Steady(all[j])
    requires forall j :: 0 <= j < |queue| ==> Fresh(queue[j])
    requires Picked(all, |all|, w.d.running) && Fits(queue, w.d.admitted) && |w.d.admitted| == w.taken
    requires exists front :: w.running == front + queue[..w.taken]
    ensures TableSteady(Epilogue(w, queue, prm).state)
  {
    hide Steady, Fresh, TableGet, CommonPrefixAll, MarkPreempted, MarkScheduled, MarkAdmitted, Picked;
    var front :| w.running == front + queue[..w.taken];
    var s1 := if w.running != [] then CommonPrefixAll(w.state, w.running[0].slot).0 else w.state;
    if w.running != [] { CommonTable(w.state, w.running[0].slot); }
    TableFrame(s, s1);
    PreemptedSteady(s1, w.d.preempted);
    var s2 := MarkPreempted(s1, w.d.preempted);
    PickedRoomy(s1, s2, all, w.d.running);
    ScheduledSteady(s2, w.d.running, prm.sampled);
    var s3 := MarkScheduled(s2, w.d.running, prm.sampled);
    var taken := queue[..w.taken];
    assert Slots(taken) == Slots(queue)[..w.taken];
    AdmittedSteady(s3, w.d.admitted, 0, front, taken, prm.sampled);
    assert w.d.admitted[0..] == w.d.admitted;
  }

  lemma {:induction false} LoadKeyed(s: State, slots: seq<Slot>)
    requires TableSteady(s) && Load(s, slots).Some?
    ensures var es := Load(s, slots).value;
      AllSteady(es) && forall j :: 0 <= j < |es| ==> TableGet(s, es[j].slot) == Some(es[j])
  {
    hide Steady, TableGet;
    if slots != [] {
      LoadKeyed(s, slots[1..]);
      assert TableGet(s, slots[0]).value.slot == slots[0];
    }
  }

  /** Resynchronising leaves each marshalled entry under its slot. */
  lemma {:induction false} ResyncSteady(s: State, running: seq<Entry>, k: nat, all: seq<Entry>)
    requires TableSteady(s) && DistinctSlots(all) && k <= |all| && running == all[k..]
    requires forall j :: 0 <= j < |all| ==> Steady(all[j])
    requires forall j :: 0 <= j < k ==> TableGet(s, all[j].slot) == Some(all[j])
    ensures TableSteady(Resync(s, running))
    ensures forall j :: 0 <= j < |all| ==> TableGet(Resync(s, running), all[j].slot) == Some(all[j])
    decreases |all| - k
  {
    hide Steady;
    if k < |all| {
      var r := TableSet(s, all[k].slot, all[k]);
      PutSteady(s, all[k].slot, all[k]);
      assert running[0] == all[k] && running[1..] == all[k + 1..];
      forall j | 0 <= j < k + 1 ensures TableGet(r, all[j].slot) == Some(all[j]) {
        if j < k { assert Slots(all)[j] != Slots(all)[k]; }
      }
      ResyncSteady(r, running[1..], k + 1, all);
    }
  }

  lemma UpdateOne(e: Entry, r: Report)
    requires Steady(e) && r.tokens >= e.tokens
    ensures Steady(Updated(e, r)) && Updated(e, r).slot == e.slot
  {}

  lemma BurstOne(e: Entry, delta: int)
    requires Steady(e)
    ensures Steady(Burst(e, delta)) && Burst(e, delta).slot == e.slot
  {}

  lemma {:induction false} ReportsSteady(s: State, reports: seq<Report>)
    requires TableSteady(s) && ReportsAhead(s, reports)
    ensures TableSteady(UpdateTable(s, reports))
    decreases |reports|
  {
    hide Steady, Updated, TableSet;
    if reports != [] {
      var e := TableGet(s, reports[0].slot);
      if e.Some? {
        UpdateOne(e.value, reports[0]);
        PutSteady(s, reports[0].slot, Updated(e.value, reports[0]));
        ReportsSteady(TableSet(s, reports[0].slot, Updated(e.value, reports[0])), reports[1..]);
      } else {
        ReportsSteady(s, reports[1..]);
      }
    }
  }

  lemma {:induction false} BurstsSteady(s: State, slots: seq<Slot>, delta: int)
    requires TableSteady(s)
    ensures TableSteady(BurstTable(s, slots, delta))
    decreases |slots|
  {
    hide Steady, Burst, TableSet;
    if slots != [] {
      var e := TableGet(s, slots[0]);
      if e.Some? {
        BurstOne(e.value, delta);
        PutSteady(s, slots[0], Burst(e.value, delta));
        BurstsSteady(TableSet(s, slots[0], Burst(e.value, delta)), slots[1..], delta);
      } else {
        BurstsSteady(s, slots[1..], delta);
      }
    }
  }

  /** What else the entry points do leaves the table alone. */
  lemma OthersTable(m: Mutation, s: State)
    requires m.Allocating? || m.Freeing? || m.Hashing? || m.Looking? || m.Starting? || m.Counting? || m.Filing?
             || m.Evicting? || m.Resetting? || m.Skipping? || m.Peeking?
    ensures Apply(m, s).table == s.table
  {
    hide FanOut, EstimateFrom, HitLength, Uncached;
  }

  /** Losing an entry. */
  lemma ClearSteady(s: State, r: State, slot: Slot)
    requires TableSteady(s) && r.table == if slot < |s.table| then s.table[slot := None] else s.table
    ensures TableSteady(r)
  {
    hide Steady;
    forall x: Slot | TableGet(r, x).Some? ensures TableGet(s, x) == TableGet(r, x) {}
  }

  lemma OneSteady(s: State, m: Mutation)
    requires TableSteady(s) && Fair(s, m)
    ensures TableSteady(Apply(m, s)) && EventUnwrapped(m, s)
  {
    hide Steady, Run, TableSteady, Fresh, Unwrapped;
    match m
    case Scheduling(slots, waiting, prm) =>
      if Load(s, slots).Some? {
        LoadKeyed(s, slots);
        SteadyUnwrapped(Load(s, slots).value, waiting);
        StepSteady(s, Load(s, slots).value, waiting, prm);
      }
    case Marshalling(running, waiting, prm) =>
      assert running[0..] == running;
      SteadyUnwrapped(running, waiting);
      ResyncSteady(s, running, 0, running);
      StepSteady(Resync(s, running), running, waiting, prm);
    case Reporting(reports) => ReportsSteady(s, reports);
    case Bursting(slots, delta) => BurstsSteady(s, slots, delta);
    case Putting(slot, e) => PutSteady(s, slot, e);
    case Clearing(slot) => ClearSteady(s, Apply(m, s), slot);
    case Forgetting(slot) => ClearSteady(s, Apply(m, s), slot);
    case _ =>
      OthersTable(m, s);
      TableFrame(s, Apply(m, s));
  }

  /**
   * Over any run of entry points, with bursts of either sign, the unsigned subtraction of every
   * running request is the true difference at every step, and no resident entry ends up with more
   * computed than its tokens and placeholders.
   */
  lemma {:induction false} NeverWraps(ms: seq<Mutation>, s: State)
    requires TableSteady(s) && AllFair(ms, s)
    ensures AllUnwrapped(ms, s) && TableSteady(ApplyAll(ms, s))
    ensures forall slot: Slot :: TableGet(ApplyAll(ms, s), slot).Some? ==>
              Room(TableGet(ApplyAll(ms, s), slot).value) >= 0
    decreases |ms|
  {
    hide Fair, Apply, EventUnwrapped;
    if ms != [] {
      OneSteady(s, ms[0]);
      NeverWraps(ms[1..], Apply(ms[0], s));
    }
  }
}
