/**
 * `ScheduleCore` (sched.rs): the decision loop, run in place over the manager. `Run` is proved to
 * compute `SchedSpec.Run` unless the journal outgrows its cap, in which case it gives up with the
 * manager in good standing; while the journal is armed its undone state never changes.
 */
module ScheduleCores {
  import opened Basics
  import opened PoolSpec
  import opened TypeSpec
  import opened HitSpec
  import opened ManagerSpec
  import opened ManagerInv
  import opened Admission
  import opened Served
  import opened SchedSpec
  import opened StepProps
  import opened RunInv
  import opened Mutations
  import opened Journal
  import opened BlockPools
  import opened TypeManagers
  import opened Managers

  /** The journal's soft cap. */
  const SOFT_CAP: nat := 0x1_0000

  /** How a run ends: decisions made, refused at the door, or abandoned over the cap. */
  datatype Ending = Done | Turned | OverCap

  /** What a run leaves alone. */
  predicate Same(s: State, r: State) {
    r.cfg == s.cfg && r.hashes == s.hashes
  }

  lemma AllocateSame(s: State, c: Call)
    ensures Same(s, ManagerSpec.AllocateSlots(s, c).0) && ManagerSpec.AllocateSlots(s, c).0.table == s.table
  {
    hide FanOut, EstimateFrom;
  }

  /** One waiting request's turn; no tokens means the loop stops here. */
  datatype Turn = Turn(state: State, tokens: nat, computed: nat, ok: bool)

  function TurnOf(s: State, e: Entry, others: bool, budget: nat, prm: Params): Turn {
    var a := AskOf(s, e, prm);
    if !prm.chunked && a.tokens > budget then Turn(a.state, 0, 0, true)
    else if a.tokens == 0 then Turn(a.state, 0, 0, false)
    else
      var n := WaitingTokens(a, e, budget, prm);
      if n == 0 then Turn(a.state, 0, 0, true)
      else
        var (s2, out) := ManagerSpec.AllocateSlots(a.state, WaitingCall(e, n, a.hit, prm, others));
        if out.Granted? then Turn(s2, n, a.computed, true) else Turn(s2, 0, 0, out.Refused?)
  }

  lemma WaitingStep(s: State, running: seq<Entry>, waiting: seq<Entry>, k: nat, budget: nat, d: Decisions, prm: Params)
    requires k < |waiting| && budget > 0 && |running| < prm.maxRunning
    ensures var e := waiting[k];
      var t := TurnOf(s, e, running != [], budget, prm);
      RunWaiting(s, running, waiting, k, budget, d, prm)
        == if t.tokens == 0 then Wait(t.state, running, budget, d, k, t.ok)
           else RunWaiting(t.state, running + [e], waiting, k + 1, Monus(budget, t.tokens),
                           d.(admitted := d.admitted + [Admitted(e.slot, t.tokens, t.computed)]), prm)
  {
    hide AskOf, ManagerSpec.AllocateSlots, WaitingTokens;
    var e := waiting[k];
    var a := AskOf(s, e, prm);
    var n := WaitingTokens(a, e, budget, prm);
    var out := ManagerSpec.AllocateSlots(a.state, WaitingCall(e, n, a.hit, prm, running != [])).1;
    assert out.Granted? || out.Refused? || out.Failed?;
  }

  lemma WaitingEnd(s: State, running: seq<Entry>, waiting: seq<Entry>, k: nat, budget: nat, d: Decisions, prm: Params)
    requires k == |waiting| || (k < |waiting| && (budget == 0 || |running| >= prm.maxRunning))
    ensures RunWaiting(s, running, waiting, k, budget, d, prm) == Wait(s, running, budget, d, k, true)
  {}

  /** On a well-posed queue a turn is never an error, and the rest of the queue stays well-posed. */
  lemma TurnKeeps(s: State, waiting: seq<Entry>, k: nat, others: bool, budget: nat, prm: Params)
    requires StateInv(s) && k < |waiting| && QueueOk(s.tms, waiting, k)
    ensures var t := TurnOf(s, waiting[k], others, budget, prm);
      && StateInv(t.state) && t.ok && Same(s, t.state) && t.state.table == s.table && t.tokens <= budget
      && (t.tokens > 0 ==> QueueOk(t.state.tms, waiting, k + 1))
  {
    hide ManagerSpec.AllocateSlots, AskOf, WaitingTokens, StateInv, CallOk, HitsExist, Blank;
    var e := waiting[k];
    AskKeeps(s, e, prm);
    var a := AskOf(s, e, prm);
    NoHit(s, e, prm);
    AskableTokens(s, e, prm);
    WaitingWithin(a, e, budget, prm);
    var n := WaitingTokens(a, e, budget, prm);
    if n > 0 {
      WaitingCallOk(s, a, e, n, prm, others);
      var c := WaitingCall(e, n, a.hit, prm, others);
      AllOrNothing(a.state, c);
      AllocateSame(a.state, c);
      var (s2, out) := ManagerSpec.AllocateSlots(a.state, c);
      BlankOthers(a.state, s2, waiting, k);
    }
  }

  lemma FreeSame(s: State, slot: Slot)
    ensures Same(s, FreeSlot(s, slot)) && FreeSlot(s, slot).table == s.table
  {
    hide FanOut;
  }

  lemma HashedSame(s: State, r: State, es: seq<Entry>)
    requires AllHashed(s, es) && Same(s, r)
    ensures AllHashed(r, es)
  {
    forall i | 0 <= i < |es| ensures Hashed(r, es[i].slot, es[i].tokens) {
      assert Hashed(s, es[i].slot, es[i].tokens);
    }
  }

  /** The journal is armed and has outgrown its soft cap. */
  predicate Overflowing(kv: Manager)
    reads kv.coord.pool
  {
    kv.coord.pool.journal.Some? && |kv.coord.pool.journal.value| > SOFT_CAP
  }

  class ScheduleCore {
    var decisions: Decisions
    var running: seq<Entry>
    var waiting: seq<Entry>

    constructor ()
      ensures decisions == NONE && running == [] && waiting == []
    {
      decisions, running, waiting := NONE, [], [];
    }

    // ---- running requests -----------------------------------------------------------

    /** The preempt loop: free requests off the tail until the call fits or nobody is left. */
    method PreemptUntilFits(kv: Manager, e: Entry, k: nat, prm: Params) returns (out: Outcome)
      requires kv.Ready() && k > 0 && Hashed(kv.St(), e.slot, e.tokens)
      modifies this`running, this`decisions, kv`hitLen, kv.coord.pool, kv.coord.managers
      ensures kv.Ready() && Same(old(kv.St()), kv.St()) && kv.St().table == old(kv.St()).table && !out.Failed?
      ensures var t := TryAllocate(old(kv.St()), old(running), old(decisions).preempted, e, k, prm);
        && kv.St() == t.state && running == t.running && out == t.outcome
        && decisions == old(decisions).(preempted := t.preempted)
      ensures running <= old(running)
      ensures kv.Recorded()
    {
      hide Manager.St, Manager.Ready, Manager.Base, ManagerSpec.AllocateSlots, FreeSlot, Hashed, CallOk;
      ghost var s, d := kv.St(), decisions;
      while true
        invariant kv.Ready() && Same(s, kv.St()) && kv.St().table == s.table && Hashed(kv.St(), e.slot, e.tokens)
        invariant running <= old(running) && decisions == d.(preempted := decisions.preempted)
        invariant TryAllocate(kv.St(), running, decisions.preempted, e, k, prm)
            == TryAllocate(s, old(running), d.preempted, e, k, prm)
        invariant kv.Recorded()
        decreases |running|
      {
        RunningCallOk(kv.St(), e, k, prm);
        AllocateSame(kv.St(), RunningCall(e, k, prm));
        HashedKept(kv.St(), ManagerSpec.AllocateSlots(kv.St(), RunningCall(e, k, prm)).0, e);
        out := kv.AllocateSlots(RunningCall(e, k, prm));
        if !out.Refused? || running == [] { return; }
        var victim := running[|running| - 1];
        running := running[..|running| - 1];
        FreeSame(kv.St(), victim.slot);
        HashedKept(kv.St(), FreeSlot(kv.St(), victim.slot), e);
        kv.FreeSlot(victim.slot);
        decisions := decisions.(preempted := decisions.preempted + [victim.slot]);
        if victim.slot == e.slot { return; }
      }
    }

    /** Part 1 of `run`: the running queue. */
    method RunningLoop(kv: Manager, prm: Params) returns (budget: nat, end: Ending)
      requires kv.Ready() && AllHashed(kv.St(), running)
      modifies this`running, this`decisions, kv`hitLen, kv.coord.pool, kv.coord.managers
      ensures kv.Ready() && Same(old(kv.St()), kv.St()) && (end.OverCap? ==> Overflowing(kv)) && !end.Turned?
      ensures var l := RunRunning(old(kv.St()), old(running), 0, prm.maxTokens, old(decisions), prm);
        end.Done? ==> l == Loop(kv.St(), running, budget, decisions, true)
      ensures kv.Recorded()
    {
      hide Manager.St, Manager.Ready, Manager.Base, TryAllocate, RunningTokens, Hashed, CallOk;
      ghost var s := kv.St();
      budget, end := prm.maxTokens, Done;
      var i := 0;
      while i < |running| && budget > 0
        invariant kv.Ready() && Same(s, kv.St()) && running <= old(running) && AllHashed(kv.St(), old(running))
        invariant end.Done?
        invariant RunRunning(kv.St(), running, i, budget, decisions, prm)
               == RunRunning(s, old(running), 0, prm.maxTokens, old(decisions), prm)
        invariant kv.Recorded()
        decreases |running| - i
      {
        var e := running[i];
        assert e == old(running)[i];
        RunningWithin(e, budget, prm);
        var k := RunningTokens(e, budget, prm);
        if k == 0 {
          i := i + 1;
        } else {
          ghost var q := kv.St();
          var out := PreemptUntilFits(kv, e, k, prm);
          HashedSame(q, kv.St(), old(running));
          if out.Refused? { return; }
          decisions := Record(decisions, e.slot, k, out.blocks);
          budget := budget - k;
          i := i + 1;
          if Overflowing(kv) {
            end := OverCap;
            return;
          }
        }
      }
    }

    // ---- waiting requests -----------------------------------------------------------

    /** `reorder_waiting`. */
    method ReorderWaiting(kv: Manager, prm: Params)
      requires kv.Ready() && (kv.coord.pool.journal.Some? ==> |waiting| < 2)
      modifies this`waiting, kv.coord`uncached
      ensures kv.Ready() && (kv.St(), waiting) == Reorder(old(kv.St()), old(waiting), prm)
      ensures StablySorted(old(kv.St()), old(waiting), waiting, prm)
      ensures kv.Recorded() && kv.coord.pool.journal == old(kv.coord.pool.journal)
      ensures |old(waiting)| < 2 ==> kv.coord.uncached == old(kv.coord.uncached)
    {
      hide Manager.Ready, Manager.Base, Peek, SortKeys, Pick, StablySorted;
      ReorderSorts(kv.St(), waiting, prm);
      if |waiting| < 2 { return; }
      ghost var s := kv.St();
      var keys := [];
      for i := 0 to |waiting|
        invariant kv.Ready() && kv.coord.pool.journal == old(kv.coord.pool.journal) && kv.Recorded()
        invariant KeysFrom(kv.St(), waiting, i, keys, prm) == KeysFrom(s, waiting, 0, [], prm)
        modifies kv.coord`uncached
      {
        var e := waiting[i];
        var left := Monus(e.prompt, e.computed);
        if e.computed == 0 {
          var hit := kv.PeekCacheHit(e.slot, e.tokens);
          left := Monus(e.prompt, hit);
        }
        kv.Numbers();
        keys := keys + [RKey(if !prm.tight || CDiv(left, prm.cacheBlock) <= kv.coord.pool.numFree then 0 else 1, left,
                             i)];
      }
      waiting := Pick(waiting, SortKeys(keys));
    }

    /** One waiting request: look its hit up, cut its chunk, admit it if it fits. */
    method AdmitOne(kv: Manager, k: nat, budget: nat, prm: Params) returns (tokens: nat, computed: nat)
      requires kv.Ready() && kv.coord.pool.journal.None? && k < |waiting| && budget > 0
      requires QueueOk(kv.St().tms, waiting, k) && AllHashed(kv.St(), waiting)
      modifies kv`hitLen, kv`pending, kv.coord`uncached, kv.coord.pool, kv.coord.managers
      ensures kv.Ready() && kv.coord.pool.journal.None?
      ensures var t := TurnOf(old(kv.St()), waiting[k], running != [], budget, prm);
        kv.St() == t.state && tokens == t.tokens && (tokens > 0 ==> computed == t.computed)
    {
      hide Manager.St, Manager.Ready, Manager.Base, ManagerSpec.AllocateSlots, Hashed, CallOk, HitsExist, Blank,
           StateInv, GetComputed, Split;
      ghost var s := kv.St();
      kv.ReadyInv();
      var e := waiting[k];
      AskKeeps(s, e, prm);
      ghost var a := AskOf(s, e, prm);
      NoHit(s, e, prm);
      AskableTokens(s, e, prm);
      var hit := 0;
      computed := e.computed;
      if e.computed == 0 {
        hit := kv.GetComputedBlocks(e.slot, e.tokens, e.skipCache);
        computed := hit;
      }
      kv.Numbers();
      HashedKept(s, a.state, e);
      var want := LongCap(Sub64(e.tokens, computed), prm);
      if !prm.chunked && want > budget { return 0, 0; }
      tokens := Min(want, budget);
      if prm.aligned {
        tokens := Split(e, tokens, hit, if e.computed == 0 then kv.coord.uncached else 0, prm.cacheBlock);
      }
      assert tokens == WaitingTokens(a, e, budget, prm);
      if tokens == 0 { return; }
      WaitingCallOk(s, a, e, tokens, prm, running != []);
      var out := kv.AllocateSlots(WaitingCall(e, tokens, hit, prm, running != []));
      if out.Refused? { tokens := 0; }
    }

    /** Part 2 of `run`: the waiting queue, only while nothing is being recorded. */
    method WaitingLoop(kv: Manager, budget0: nat, prm: Params) returns (budget: nat, taken: nat)
      requires kv.Ready() && kv.coord.pool.journal.None? && QueueOk(kv.St().tms, waiting, 0)
      requires AllHashed(kv.St(), waiting)
      modifies this`running, this`decisions, kv`hitLen, kv`pending, kv.coord`uncached, kv.coord.pool, kv.coord.managers
      ensures kv.Ready() && Same(old(kv.St()), kv.St()) && kv.coord.pool.journal.None?
      ensures RunWaiting(old(kv.St()), old(running), waiting, 0, budget0, old(decisions), prm)
           == Wait(kv.St(), running, budget, decisions, taken, true)
    {
      hide Manager.St, Manager.Ready, Manager.Base, TurnOf, RunWaiting, Hashed, QueueOk, StateInv;
      ghost var s := kv.St();
      budget, taken := budget0, 0;
      while taken < |waiting| && budget > 0
        invariant kv.Ready() && Same(s, kv.St()) && kv.coord.pool.journal.None? && taken <= |waiting|
        invariant QueueOk(kv.St().tms, waiting, taken) && AllHashed(kv.St(), waiting)
        invariant RunWaiting(kv.St(), running, waiting, taken, budget, decisions, prm)
               == RunWaiting(s, old(running), waiting, 0, budget0, old(decisions), prm)
      {
        if |running| >= prm.maxRunning { break; }
        ghost var q := kv.St();
        kv.ReadyInv();
        WaitingStep(q, running, waiting, taken, budget, decisions, prm);
        TurnKeeps(q, waiting, taken, running != [], budget, prm);
        var k, computed := AdmitOne(kv, taken, budget, prm);
        HashedSame(q, kv.St(), waiting);
        if k == 0 { return; }
        running := running + [waiting[taken]];
        decisions := decisions.(admitted := decisions.admitted + [Admitted(waiting[taken].slot, k, computed)]);
        budget := budget - k;
        taken := taken + 1;
      }
      WaitingEnd(kv.St(), running, waiting, taken, budget, decisions, prm);
    }

    // ---- the epilogue ---------------------------------------------------------------

    /** `table_with`: rewrite a slot's entry if it has one. */
    method CommitPreempted(kv: Manager)
      requires kv.Ready()
      modifies kv`table, kv.coord.pool`journal
      ensures kv.Ready() && kv.St() == MarkPreempted(old(kv.St()), decisions.preempted)
      ensures kv.Recorded()
    {
      hide Manager.St, Manager.Ready, Manager.Base;
      var slots := decisions.preempted;
      assert slots[0..] == slots;
      for i := 0 to |slots|
        invariant kv.Ready() && MarkPreempted(kv.St(), slots[i..]) == MarkPreempted(old(kv.St()), slots)
        invariant kv.Recorded()
      {
        assert slots[i..][0] == slots[i] && slots[i..][1..] == slots[i + 1..];
        kv.TableMatches(slots[i]);
        var e := kv.TableGet(slots[i]);
        if e.Some? { kv.TableSet(slots[i], Preempted(e.value)); }
      }
    }

    method CommitScheduled(kv: Manager, sampled: nat)
      requires kv.Ready()
      modifies kv`table, kv.coord.pool`journal
      ensures kv.Ready() && kv.St() == MarkScheduled(old(kv.St()), decisions.running, sampled)
      ensures kv.Recorded()
    {
      hide Manager.St, Manager.Ready, Manager.Base;
      var run := decisions.running;
      assert run[0..] == run;
      for i := 0 to |run|
        invariant kv.Ready() && MarkScheduled(kv.St(), run[i..], sampled) == MarkScheduled(old(kv.St()), run, sampled)
        invariant kv.Recorded()
      {
        assert run[i..][0] == run[i] && run[i..][1..] == run[i + 1..];
        kv.TableMatches(run[i].slot);
        var e := kv.TableGet(run[i].slot);
        if e.Some? { kv.TableSet(run[i].slot, Advance(e.value, run[i].tokens, sampled)); }
      }
    }

    /** Admitted requests enter the table here; nobody is admitted while the journal is armed. */
    method CommitAdmitted(kv: Manager, sampled: nat)
      requires kv.Ready() && (kv.coord.pool.journal.Some? ==> decisions.admitted == [])
      modifies kv`table, kv.coord.pool`journal
      ensures kv.Ready() && kv.St() == MarkAdmitted(old(kv.St()), decisions.admitted, running, sampled)
      ensures kv.Recorded()
    {
      hide Manager.St, Manager.Ready, Manager.Base, LastOf;
      var adm := decisions.admitted;
      assert adm[0..] == adm;
      for i := 0 to |adm|
        invariant kv.Ready()
        invariant MarkAdmitted(kv.St(), adm[i..], running, sampled) == MarkAdmitted(old(kv.St()), adm, running, sampled)
        invariant kv.Recorded()
      {
        assert adm[i..][0] == adm[i] && adm[i..][1..] == adm[i + 1..];
        var e := LastOf(running, adm[i].slot);
        if e.Some? { kv.TableSet(adm[i].slot, Enter(e.value, adm[i], sampled)); }
      }
    }

    /** Part 3 of `run`: common prefixes, leftovers, then the post-schedule commit. */
    method Finish(kv: Manager, budget: nat, taken: nat, prm: Params, ghost w: Wait)
      requires kv.Ready() && taken <= |waiting| && (kv.coord.pool.journal.Some? ==> decisions.admitted == [])
      requires w == Wait(kv.St(), running, budget, decisions, taken, true)
      modifies this`decisions, kv`table, kv.coord.pool, kv.coord.managers
      ensures kv.Ready() && Epilogue(w, waiting, prm) == Result.Ok(kv.St(), decisions)
      ensures decisions.admitted == old(decisions).admitted
      ensures kv.Recorded()
    {
      hide Manager.St, Manager.Ready, Manager.Base, CommonPrefixAll, MarkPreempted, MarkScheduled, MarkAdmitted;
      var common;
      if running != [] {
        common := kv.CommonPrefixBlocks(running[0].slot);
      } else {
        kv.GroupCount();
        common := Repeat<nat>(0, |kv.coord.managers|);
      }
      decisions := decisions.(commonPrefix := common, budgetLeft := budget, waitingOrder := Slots(waiting[taken..]));
      CommitPreempted(kv);
      CommitScheduled(kv, prm.sampled);
      CommitAdmitted(kv, prm.sampled);
    }

    // ---- the whole step -------------------------------------------------------------

    /** `run` once the queues are arranged. */
    method Go(kv: Manager, prm: Params) returns (end: Ending)
      requires kv.Ready() && QueueOk(kv.St().tms, waiting, 0) && decisions == NONE
      requires forall e, f :: e in running && f in waiting ==> e.slot != f.slot
      requires AllHashed(kv.St(), running) && AllHashed(kv.St(), waiting)
      requires kv.coord.pool.journal.Some? ==> waiting == []
      modifies this`running, this`decisions, kv`hitLen, kv`pending, kv`table, kv.coord`uncached, kv.coord.pool,
               kv.coord.managers
      ensures kv.Ready() && kv.Recorded() && !end.Turned? && (end.OverCap? ==> Overflowing(kv))
      ensures var l := RunRunning(old(kv.St()), old(running), 0, prm.maxTokens, NONE, prm);
        end.Done? ==>
          l.ok && Waiting(l, waiting, prm).ok
          && Epilogue(Waiting(l, waiting, prm), waiting, prm) == Result.Ok(kv.St(), decisions)
      ensures old(kv.coord.pool.journal).Some? ==>
              kv.pending == old(kv.pending) && kv.coord.uncached == old(kv.coord.uncached)
      ensures end.Done? && old(kv.coord.pool.journal).Some? ==> decisions.admitted == []
    {
      hide Manager.St, Manager.Ready, Manager.Base, RunRunning, RunWaiting, Epilogue, StateInv, QueueOk, Hashed,
           Progress;
      ghost var s := kv.St();
      kv.ReadyInv();
      AfterRunning(s, running, waiting, prm);
      NoneAdmitted(s, running, prm);
      ghost var l := RunRunning(s, running, 0, prm.maxTokens, NONE, prm);
      var budget;
      budget, end := RunningLoop(kv, prm);
      if end.OverCap? { return; }
      HashedSame(s, kv.St(), waiting);
      WaitingEnd(kv.St(), running, waiting, |waiting|, budget, decisions, prm);
      var taken := 0;
      if decisions.preempted == [] && waiting != [] {
        budget, taken := WaitingLoop(kv, budget, prm);
      }
      Finish(kv, budget, taken, prm, Waiting(l, waiting, prm));
    }

    /** `run`: an armed run with a waiting queue is refused; an armed run over the cap is abandoned;
        any other run makes exactly the decisions of `SchedSpec.Run`. */
    method Run(kv: Manager, prm: Params) returns (end: Ending)
      requires kv.Ready() && WellPosed(kv.St(), running, waiting) && AllHashed(kv.St(), running)
      requires AllHashed(kv.St(), waiting)
      modifies this, kv`hitLen, kv`pending, kv`table, kv.coord`uncached, kv.coord.pool, kv.coord.managers
      ensures kv.Ready() && kv.Recorded()
      ensures end.Turned? <==> old(kv.coord.pool.journal).Some? && old(waiting) != []
      ensures end.Turned? ==> kv.St() == old(kv.St())
      ensures end.OverCap? ==> Overflowing(kv)
      ensures end.Done? ==>
                SchedSpec.Run(old(kv.St()), old(running), old(waiting), prm) == Result.Ok(kv.St(), decisions)
      ensures old(kv.coord.pool.journal).Some? ==>
              kv.pending == old(kv.pending) && kv.coord.uncached == old(kv.coord.uncached)
      ensures end.Done? && old(kv.coord.pool.journal).Some? ==> decisions.admitted == []
    {
      hide Manager.St, Manager.Ready, Manager.Base, RunRunning, Waiting, Reorder, Epilogue, StartStep, StateInv,
           QueueOk, AllHashed;
      if kv.coord.pool.journal.Some? && waiting != [] { return Turned; }
      ghost var s := kv.St();
      ArrangeReady(s, running, waiting, prm);
      decisions := NONE;
      kv.NewStepStarts();
      if prm.sjf { ReorderWaiting(kv, prm); }
      end := Go(kv, prm);
    }

    /** `schedule_resident`: the running queue read out of the resident table. */
    method ScheduleResident(kv: Manager, slots: seq<Slot>, queue: seq<Entry>, prm: Params) returns (end: Ending)
      requires kv.Ready() && ResidentOk(kv.St(), slots, queue)
      modifies this, kv`hitLen, kv`pending, kv`table, kv.coord`uncached, kv.coord.pool, kv.coord.managers
      ensures kv.Ready() && kv.Recorded()
      ensures end.OverCap? ==> Overflowing(kv)
      ensures end.Done? ==> SchedSpec.ScheduleResident(old(kv.St()), slots, queue, prm) == Result.Ok(kv.St(), decisions)
      ensures end.Turned? ==> kv.St() == old(kv.St())
      ensures end.Turned? <==> Load(old(kv.St()), slots).None? || (old(kv.coord.pool.journal).Some? && queue != [])
      ensures old(kv.coord.pool.journal).Some? ==>
              kv.pending == old(kv.pending) && kv.coord.uncached == old(kv.coord.uncached)
      ensures end.Done? && old(kv.coord.pool.journal).Some? ==> decisions.admitted == []
    {
      hide Manager.St, Manager.Ready, Manager.Base, SchedSpec.Run, WellPosed, AllHashed;
      running := [];
      ghost var all := Load(kv.St(), slots);
      assert slots[0..] == slots;
      for i := 0 to |slots|
        invariant kv.St() == old(kv.St()) && kv.Ready()
        invariant all == Onto(running, Load(kv.St(), slots[i..]))
        invariant kv.Recorded() && kv.coord.pool.journal == old(kv.coord.pool.journal)
        modifies this
      {
        assert slots[i..][0] == slots[i] && slots[i..][1..] == slots[i + 1..]
               && slots[i..] == [slots[i]] + slots[i + 1..];
        kv.TableMatches(slots[i]);
        var e := kv.TableGet(slots[i]);
        if e.None? { return Turned; }
        LoadOne(kv.St(), running, slots[i], slots[i + 1..]);
        running := running + [e.value];
      }
      assert running + [] == running;
      assert all == Some(running);
      waiting := queue;
      end := Run(kv, prm);
    }

    /** `schedule`: the marshalled entry point, which writes the running queue into the table first. */
    method Schedule(kv: Manager, marshalled: seq<Entry>, queue: seq<Entry>, prm: Params) returns (end: Ending)
      requires kv.Ready() && kv.coord.pool.journal.None? && WellPosed(kv.St(), marshalled, queue)
      requires AllHashed(kv.St(), marshalled) && AllHashed(kv.St(), queue)
      modifies this, kv`hitLen, kv`pending, kv`table, kv.coord`uncached, kv.coord.pool, kv.coord.managers
      ensures kv.Ready() && end.Done? && kv.coord.pool.journal.None?
      ensures SchedSpec.Schedule(old(kv.St()), marshalled, queue, prm) == Result.Ok(kv.St(), decisions)
    {
      hide Manager.St, Manager.Ready, Manager.Base, SchedSpec.Run, WellPosed, AllHashed;
      ghost var s := kv.St();
      running := marshalled;
      assert running[0..] == running;
      for i := 0 to |marshalled|
        invariant kv.Ready() && kv.coord.pool.journal.None? && running == marshalled
        invariant Resync(kv.St(), marshalled[i..]) == Resync(s, marshalled)
        invariant WellPosed(kv.St(), marshalled, queue) && AllHashed(kv.St(), marshalled) && AllHashed(kv.St(), queue)
        modifies kv`table, kv.coord.pool`journal
      {
        assert marshalled[i..][0] == marshalled[i] && marshalled[i..][1..] == marshalled[i + 1..];
        TableSetPosed(kv.St(), marshalled[i].slot, marshalled[i], marshalled, queue);
        kv.TableSet(marshalled[i].slot, marshalled[i]);
      }
      waiting := queue;
      end := Run(kv, prm);
    }
  }

  function Onto(front: seq<Entry>, rest: Option<seq<Entry>>): (r: Option<seq<Entry>>)
    ensures front == [] ==> r == rest
  {
    assert rest.Some? && front == [] ==> front + rest.value == rest.value;
    if rest.Some? then Some(front + rest.value) else None
  }

  lemma LoadOne(s: State, front: seq<Entry>, slot: Slot, slots: seq<Slot>)
    requires ManagerSpec.TableGet(s, slot).Some?
    ensures Onto(front, Load(s, [slot] + slots)) == Onto(front + [ManagerSpec.TableGet(s, slot).value], Load(s, slots))
  {
    assert ([slot] + slots)[1..] == slots;
    var v, rest := ManagerSpec.TableGet(s, slot).value, Load(s, slots);
    if rest.Some? { assert front + ([v] + rest.value) == front + [v] + rest.value; }
  }

  lemma TableSetPosed(s: State, slot: Slot, e: Entry, running: seq<Entry>, queue: seq<Entry>)
    requires WellPosed(s, running, queue) && AllHashed(s, running) && AllHashed(s, queue)
    ensures var r := ManagerSpec.TableSet(s, slot, e);
      WellPosed(r, running, queue) && AllHashed(r, running) && AllHashed(r, queue)
  {
    hide StateInv, QueueOk;
    var r := ManagerSpec.TableSet(s, slot, e);
    TableOnly(s, r);
    HashedSame(s, r, running);
    HashedSame(s, r, queue);
  }

  lemma HashedPermutes(s: State, a: seq<Entry>, b: seq<Entry>)
    requires AllHashed(s, a) && multiset(a) == multiset(b)
    ensures AllHashed(s, b)
  {
    forall i | 0 <= i < |b| ensures Hashed(s, b[i].slot, b[i].tokens) {
      assert b[i] in multiset(b);
      var j :| 0 <= j < |a| && a[j] == b[i];
      assert Hashed(s, a[j].slot, a[j].tokens);
    }
  }

  lemma ArrangeSame(s: State, waiting: seq<Entry>, prm: Params)
    ensures Same(s, Arrange(s, waiting, prm).0) && Same(s, StartStep(s))
  {
    hide FanOut, SortKeys, Pick, KeyOf;
    if prm.sjf && |waiting| >= 2 { KeysFromKeeps(StartStep(s), waiting, 0, [], prm); }
  }

  /** Arranging keeps what the loops need. */
  lemma ArrangeReady(s: State, running: seq<Entry>, waiting: seq<Entry>, prm: Params)
    requires WellPosed(s, running, waiting) && AllHashed(s, running) && AllHashed(s, waiting)
    ensures var (r, queue) := Arrange(s, waiting, prm);
      && QueueOk(r.tms, queue, 0) && AllHashed(r, running) && AllHashed(r, queue)
      && (forall e, f :: e in running && f in queue ==> e.slot != f.slot)
      && (|waiting| < 2 ==> queue == waiting)
  {
    hide Arrange, StateInv, QueueOk, AllHashed;
    var (r, queue) := Arrange(s, waiting, prm);
    ArrangeKeeps(s, waiting, prm);
    ArrangePermutes(s, waiting, prm);
    HashedPermutes(s, waiting, queue);
    ArrangeSame(s, waiting, prm);
    HashedSame(s, r, running);
    HashedSame(s, r, queue);
    forall e, f | e in running && f in queue ensures e.slot != f.slot {
      assert f in multiset(queue);
      assert f in multiset(waiting);
    }
    ArrangeFew(s, waiting, prm);
  }

  lemma ArrangeFew(s: State, waiting: seq<Entry>, prm: Params)
    ensures |waiting| < 2 ==> Arrange(s, waiting, prm).1 == waiting
  {}

  /** The waiting queue is still well-posed once the running queue has been served. */
  lemma AfterRunning(s: State, running: seq<Entry>, waiting: seq<Entry>, prm: Params)
    requires StateInv(s) && QueueOk(s.tms, waiting, 0)
    requires forall e, f :: e in running && f in waiting ==> e.slot != f.slot
    ensures var l := RunRunning(s, running, 0, prm.maxTokens, NONE, prm);
      l.ok && StateInv(l.state) && QueueOk(l.state.tms, waiting, 0)
  {
    hide RunRunning, StateInv, QueueOk, Progress;
    RunningKeeps(s, running, 0, prm.maxTokens, NONE, prm, SlotSet(running));
    var l := RunRunning(s, running, 0, prm.maxTokens, NONE, prm);
    ProgressInv(s, l.state, SlotSet(running));
    ProgressQueue(s, l.state, SlotSet(running), waiting);
  }

  lemma HashedKept(s: State, r: State, e: Entry)
    requires Hashed(s, e.slot, e.tokens) && Same(s, r)
    ensures Hashed(r, e.slot, e.tokens)
  {}
}
