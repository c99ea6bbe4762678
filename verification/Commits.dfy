/**
 * What a step, a burst and a report leave in the resident table, entry by entry: which counters move
 * and by how much, and that nothing else does. A burst continues the token the step scheduled, and
 * what it gives back it takes back from both counters.
 */
module Commits {
  import opened Basics
  import opened ManagerSpec
  import opened SchedSpec
  import opened StepProps
  import opened RunInv
  import opened TableSpec
  import opened TokenCounts
  import opened Mutations
  import opened Amounts

  // ---- one entry --------------------------------------------------------------------

  /** `n` more tokens are computed; once the request has caught up, `m` more outputs are in flight. */
  predicate Moved(e: Entry, f: Entry, n: nat, m: nat) {
    && f.computed == e.computed + n
    && f.prefillChunk == (e.computed + n < e.tokens + e.placeholders)
    && f.placeholders == (if f.prefillChunk then e.placeholders else e.placeholders + m)
    && f == e.(computed := f.computed, prefillChunk := f.prefillChunk, placeholders := f.placeholders)
  }

  /** At most one token is left to compute. */
  predicate CaughtUp(e: Entry) { e.tokens + e.placeholders <= e.computed + 1 }

  /** `n` tokens ahead of `e` on both counters, whatever the chunk flag. */
  predicate Ahead(e: Entry, f: Entry, n: int) {
    && f == e.(computed := f.computed, placeholders := f.placeholders, prefillChunk := f.prefillChunk)
    && f.computed == e.computed + n && f.placeholders == e.placeholders + n
  }

  /** The token a step schedules and the burst behind it are one run of `n + 1` tokens... */
  lemma BurstContinues(e: Entry, n: nat)
    requires CaughtUp(e)
    ensures var f := Burst(Advance(e, 1, 1), n); Ahead(e, f, n + 1) && (n > 0 ==> !f.prefillChunk)
  {}

  /** ...of which any part can be given back, from both counters; all of it leaves the one token. The
      flag is taken anew, after the counters: a request that had one token left to compute shows it again. */
  lemma BurstGivesBack(e: Entry, n: nat, back: int)
    requires CaughtUp(e) && 0 <= back <= n
    ensures var f := Burst(Burst(Advance(e, 1, 1), n), -back);
      Ahead(e, f, n - back + 1) && (f.prefillChunk <==> e.tokens + e.placeholders == e.computed + 1)
  {}

  /** Given back whole, a burst restores both counters exactly when the request had caught up with it,
      or there was nothing to restore. */
  lemma BurstUndone(e: Entry, n: int)
    requires n >= 0
    ensures var f := Burst(Burst(e, n), -n);
      && f.computed == e.computed && f.tokens == e.tokens
      && (f.placeholders == e.placeholders
          <==> n == 0 || e.placeholders == 0 || e.computed + n >= e.tokens + e.placeholders)
  {}

  /** A report puts the accepted tokens where the outputs in flight were: a decode that scheduled one
      token, ran `n` more and had all of them accepted is one token from caught up again. */
  lemma DecodeRound(e: Entry, n: nat, r: Report)
    requires e.tokens + e.placeholders == e.computed + 1 && r.tokens == e.tokens && r.accepted == n + 1
    ensures var f := Updated(Burst(Advance(e, 1, 1), n), r);
      && f.tokens == e.tokens + n + 1 && f.placeholders == e.placeholders && f.computed == e.computed + n + 1
      && f.tokens + f.placeholders == f.computed + 1
      && f.tokensWithSpec - f.tokens == e.tokensWithSpec - e.tokens
  {}

  /** Whatever the table had, a report leaves the reported count and the accepted tokens, as many
      drafts, if that many fit, and so many outputs fewer in flight. */
  lemma ReportSyncs(e: Entry, r: Report)
    ensures var f := Updated(e, r);
      && f.tokens == r.tokens + r.accepted
      && (f.tokensWithSpec - f.tokens == e.tokensWithSpec - e.tokens
          || (f.tokensWithSpec == 0 && e.tokensWithSpec + f.tokens < e.tokens))
      && (f.placeholders + r.accepted == e.placeholders || (f.placeholders == 0 && r.accepted > e.placeholders))
      && f == e.(tokens := f.tokens, tokensWithSpec := f.tokensWithSpec, placeholders := f.placeholders)
  {}

  // ---- lists of slots ---------------------------------------------------------------

  lemma SetOther(s: State, slot: Slot, e: Entry, x: Slot)
    ensures TableGet(TableSet(s, slot, e), x) == if x == slot then Some(e) else TableGet(s, x)
  {}

  lemma {:induction false} PreemptedOther(s: State, slots: seq<Slot>, x: Slot)
    requires x !in slots
    ensures TableGet(MarkPreempted(s, slots), x) == TableGet(s, x)
    decreases |slots|
  {
    hide TableGet, TableSet;
    if slots != [] {
      var e := TableGet(s, slots[0]);
      if e.Some? { SetOther(s, slots[0], Preempted(e.value), x); }
      PreemptedOther(if e.Some? then TableSet(s, slots[0], Preempted(e.value)) else s, slots[1..], x);
    }
  }

  lemma {:induction false} ScheduledOther(s: State, run: seq<Scheduled>, sampled: nat, x: Slot)
    requires forall k :: 0 <= k < |run| ==> run[k].slot != x
    ensures TableGet(MarkScheduled(s, run, sampled), x) == TableGet(s, x)
    decreases |run|
  {
    hide TableGet, TableSet, Advance;
    if run != [] {
      var e := TableGet(s, run[0].slot);
      if e.Some? { SetOther(s, run[0].slot, Advance(e.value, run[0].tokens, sampled), x); }
      ScheduledOther(if e.Some? then TableSet(s, run[0].slot, Advance(e.value, run[0].tokens, sampled)) else s,
                     run[1..], sampled, x);
    }
  }

  predicate DistinctRun(run: seq<Scheduled>) {
    forall k, l :: 0 <= k < l < |run| ==> run[k].slot != run[l].slot
  }

  lemma {:induction false} ScheduledAt(s: State, run: seq<Scheduled>, sampled: nat, k: nat)
    requires DistinctRun(run) && k < |run| && TableGet(s, run[k].slot).Some?
    ensures TableGet(MarkScheduled(s, run, sampled), run[k].slot)
         == Some(Advance(TableGet(s, run[k].slot).value, run[k].tokens, sampled))
    decreases |run|
  {
    hide TableGet, TableSet, Advance;
    var e := TableGet(s, run[0].slot);
    var r := if e.Some? then TableSet(s, run[0].slot, Advance(e.value, run[0].tokens, sampled)) else s;
    if e.Some? { SetOther(s, run[0].slot, Advance(e.value, run[0].tokens, sampled), run[k].slot); }
    if k == 0 {
      ScheduledOther(r, run[1..], sampled, run[0].slot);
    } else {
      assert run[0].slot != run[k].slot && run[1..][k - 1] == run[k];
      ScheduledAt(r, run[1..], sampled, k - 1);
    }
  }

  lemma {:induction false} AdmittedOther(s: State, adm: seq<Admitted>, running: seq<Entry>, sampled: nat, x: Slot)
    requires forall k :: 0 <= k < |adm| ==> adm[k].slot != x
    ensures TableGet(MarkAdmitted(s, adm, running, sampled), x) == TableGet(s, x)
    decreases |adm|
  {
    hide TableGet, TableSet, Enter, LastOf;
    if adm != [] {
      var e := LastOf(running, adm[0].slot);
      if e.Some? { SetOther(s, adm[0].slot, Enter(e.value, adm[0], sampled), x); }
      AdmittedOther(if e.Some? then TableSet(s, adm[0].slot, Enter(e.value, adm[0], sampled)) else s, adm[1..], running,
                    sampled, x);
    }
  }

  lemma {:induction false} AdmittedAt(s: State, adm: seq<Admitted>, running: seq<Entry>, sampled: nat, k: nat, e: Entry)
    requires k < |adm| && LastOf(running, adm[k].slot) == Some(e)
    requires forall j, l :: 0 <= j < l < |adm| ==> adm[j].slot != adm[l].slot
    ensures TableGet(MarkAdmitted(s, adm, running, sampled), adm[k].slot) == Some(Enter(e, adm[k], sampled))
    decreases |adm|
  {
    hide TableGet, TableSet, Enter, LastOf;
    var f := LastOf(running, adm[0].slot);
    var r := if f.Some? then TableSet(s, adm[0].slot, Enter(f.value, adm[0], sampled)) else s;
    if k == 0 {
      SetOther(s, adm[0].slot, Enter(e, adm[0], sampled), adm[0].slot);
      AdmittedOther(r, adm[1..], running, sampled, adm[0].slot);
    } else {
      assert adm[1..][k - 1] == adm[k];
      AdmittedAt(r, adm[1..], running, sampled, k - 1, e);
    }
  }

  lemma {:induction false} PreemptedAt(s: State, slots: seq<Slot>, k: nat)
    requires Distinct(slots) && k < |slots| && TableGet(s, slots[k]).Some?
    ensures TableGet(MarkPreempted(s, slots), slots[k]) == Some(Preempted(TableGet(s, slots[k]).value))
    decreases |slots|
  {
    hide TableGet, TableSet, Preempted;
    var e := TableGet(s, slots[0]);
    var r := if e.Some? then TableSet(s, slots[0], Preempted(e.value)) else s;
    if e.Some? { SetOther(s, slots[0], Preempted(e.value), slots[k]); }
    if k == 0 {
      PreemptedOther(r, slots[1..], slots[0]);
    } else {
      PreemptedAt(r, slots[1..], k - 1);
    }
  }

  /** `table_burst` on distinct slots: each named entry moves, every other stays. */
  lemma {:induction false} BurstAt(s: State, slots: seq<Slot>, delta: int, x: Slot)
    requires Distinct(slots)
    ensures var e := TableGet(s, x);
      TableGet(BurstTable(s, slots, delta), x)
      == if e.Some? && x in slots then Some(Burst(e.value, delta)) else e
    decreases |slots|
  {
    hide TableGet, TableSet, Burst;
    if slots != [] {
      var e := TableGet(s, slots[0]);
      if e.Some? { SetOther(s, slots[0], Burst(e.value, delta), x); }
      BurstAt(if e.Some? then TableSet(s, slots[0], Burst(e.value, delta)) else s, slots[1..], delta, x);
    }
  }

  /**
   * A burst of `n` behind a step of one token, and any part of it given back: on the slots named both
   * counters are that far ahead of where the step found them, and the rest of the state is untouched.
   */
  lemma BurstsAfterStep(s: State, r: State, slots: seq<Slot>, n: nat, back: int)
    requires Distinct(slots) && 0 <= back <= n
    requires forall x :: x in slots && TableGet(s, x).Some? ==> CaughtUp(TableGet(s, x).value)
    requires forall x: Slot :: TableGet(r, x) == if x in slots && TableGet(s, x).Some?
                                                 then Some(Advance(TableGet(s, x).value, 1, 1)) else TableGet(s, x)
    ensures var t := BurstTable(BurstTable(r, slots, n), slots, -back);
      && t == r.(table := t.table)
      && forall x: Slot :: if x in slots && TableGet(s, x).Some?
           then TableGet(t, x).Some? && Ahead(TableGet(s, x).value, TableGet(t, x).value, n - back + 1)
           else TableGet(t, x) == TableGet(s, x)
  {
    hide TableGet, Burst, Advance, Ahead;
    BurstTableOnly(r, slots, n);
    BurstTableOnly(BurstTable(r, slots, n), slots, -back);
    var t := BurstTable(BurstTable(r, slots, n), slots, -back);
    forall x: Slot
      ensures if x in slots && TableGet(s, x).Some?
        then TableGet(t, x).Some? && Ahead(TableGet(s, x).value, TableGet(t, x).value, n - back + 1)
        else TableGet(t, x) == TableGet(s, x)
    {
      BurstAt(r, slots, n, x);
      BurstAt(BurstTable(r, slots, n), slots, -back, x);
      if x in slots && TableGet(s, x).Some? { BurstGivesBack(TableGet(s, x).value, n, back); }
    }
  }

  // ---- the step ---------------------------------------------------------------------

  lemma {:induction false} RunningTable(s: State, running: seq<Entry>, i: nat, budget: nat, d: Decisions, prm: Params)
    ensures RunRunning(s, running, i, budget, d, prm).state.table == s.table
    decreases |running| - i
  {
    hide TryAllocate, RunningTokens;
    if i < |running| && budget > 0 {
      var n := RunningTokens(running[i], budget, prm);
      if n == 0 {
        RunningTable(s, running, i + 1, budget, d, prm);
      } else {
        TryPrefix(s, running, d.preempted, running[i], n, prm);
        var t := TryAllocate(s, running, d.preempted, running[i], n, prm);
        if t.outcome.Granted? {
          RunningTable(t.state, t.running, i + 1, Monus(budget, n),
                       Record(d.(preempted := t.preempted), running[i].slot, n, t.outcome.blocks), prm);
        }
      }
    }
  }

  lemma AskTable(s: State, e: Entry, prm: Params)
    ensures AskOf(s, e, prm).state.table == s.table
  {
    hide HitTable, HitLength, Uncached;
  }

  lemma {:induction false} WaitingTable(s: State, running: seq<Entry>, waiting: seq<Entry>, k: nat, budget: nat,
                                        d: Decisions, prm: Params)
    requires k <= |waiting|
    ensures var w := RunWaiting(s, running, waiting, k, budget, d, prm);
      w.state.table == s.table && w.running == running + waiting[k..w.taken]
    decreases |waiting| - k
  {
    hide AllocateSlots, AskOf, WaitingTokens, WaitingCall;
    assert running + waiting[k..k] == running;
    if k < |waiting| && budget > 0 && |running| < prm.maxRunning {
      var e := waiting[k];
      var a := AskOf(s, e, prm);
      AskTable(s, e, prm);
      var n := WaitingTokens(a, e, budget, prm);
      AllocTable(a.state, WaitingCall(e, n, a.hit, prm, running != []));
      var (s2, out) := AllocateSlots(a.state, WaitingCall(e, n, a.hit, prm, running != []));
      if !((!prm.chunked && a.tokens > budget) || a.tokens == 0 || n == 0) && out.Granted? {
        var d1 := d.(admitted := d.admitted + [Admitted(e.slot, n, a.computed)]);
        WaitingTable(s2, running + [e], waiting, k + 1, Monus(budget, n), d1, prm);
        var w := RunWaiting(s, running, waiting, k, budget, d, prm);
        assert waiting[k..w.taken] == [e] + waiting[k + 1..w.taken];
      }
    }
  }

  /** The entry of a waiting request as it starts to run from `computed`. */
  function Entering(e: Entry, computed: nat): Entry { e.(status := RUNNING, computed := computed) }

  ghost predicate Preempts(s: State, r: State, slots: seq<Slot>) {
    forall k :: 0 <= k < |slots| && TableGet(s, slots[k]).Some? ==>
      var e := TableGet(s, slots[k]).value;
      TableGet(r, slots[k]) == Some(e.(status := PREEMPTED, computed := 0, preemptions := e.preemptions + 1))
  }

  ghost predicate Runs(s: State, r: State, run: seq<Scheduled>, sampled: nat) {
    forall k :: 0 <= k < |run| && TableGet(s, run[k].slot).Some? ==>
      var f := TableGet(r, run[k].slot);
      f.Some? && Moved(TableGet(s, run[k].slot).value, f.value, run[k].tokens, sampled)
  }

  ghost predicate Takes(queue: seq<Entry>, r: State, adm: seq<Admitted>, sampled: nat) {
    |adm| <= |queue| && forall k :: 0 <= k < |adm| ==>
      var f := TableGet(r, adm[k].slot);
      && adm[k].slot == queue[k].slot
      && f.Some? && Moved(Entering(queue[k], adm[k].computed), f.value, adm[k].tokens, sampled)
  }

  /** The slot is in none of the decisions. */
  predicate Unnamed(d: Decisions, x: Slot) {
    && x !in d.preempted
    && (forall k :: 0 <= k < |d.running| ==> d.running[k].slot != x)
    && (forall k :: 0 <= k < |d.admitted| ==> d.admitted[k].slot != x)
  }

  /** The lists of a step's decisions name every slot at most once. */
  ghost predicate Apart(d: Decisions) {
    && Distinct(d.preempted) && DistinctRun(d.running)
    && (forall k, l :: 0 <= k < l < |d.admitted| ==> d.admitted[k].slot != d.admitted[l].slot)
    && (forall k :: 0 <= k < |d.running| ==> d.running[k].slot !in d.preempted)
    && (forall k :: 0 <= k < |d.admitted| ==> d.admitted[k].slot !in d.preempted)
    && (forall k, l :: 0 <= k < |d.admitted| && 0 <= l < |d.running| ==> d.admitted[k].slot != d.running[l].slot)
  }

  lemma AdvanceMoves(e: Entry, n: nat, sampled: nat)
    ensures Moved(e, Advance(e, n, sampled), n, sampled)
  {}

  lemma {:induction false} LastOfFront(front: seq<Entry>, queue: seq<Entry>, n: nat, k: nat)
    requires k < n <= |queue| && DistinctSlots(queue)
    ensures LastOf(front + queue[..n], queue[k].slot) == Some(queue[k])
  {
    assert Slots(queue[..n]) == Slots(queue)[..n];
    LastOfQueue(front, queue[..n], k);
  }

  /** The three passes of the commit, each on the slots it names. */
  lemma CommitMoves(s: State, d: Decisions, front: seq<Entry>, queue: seq<Entry>, prm: Params)
    requires Apart(d) && |d.admitted| <= |queue| && DistinctSlots(queue)
    requires forall k :: 0 <= k < |d.admitted| ==> d.admitted[k].slot == queue[k].slot
    ensures var r := Commit(s, d, front + queue[..|d.admitted|], prm);
      && Preempts(s, r, d.preempted) && Runs(s, r, d.running, prm.sampled)
      && Takes(queue, r, d.admitted, prm.sampled)
      && forall x: Slot :: Unnamed(d, x) ==> TableGet(r, x) == TableGet(s, x)
  {
    hide TableGet, TableSet, MarkPreempted, MarkScheduled, MarkAdmitted, Advance, LastOf, Moved;
    var n, running := |d.admitted|, front + queue[..|d.admitted|];
    var s2 := MarkPreempted(s, d.preempted);
    var s3 := MarkScheduled(s2, d.running, prm.sampled);
    var r := Commit(s, d, running, prm);
    forall k | 0 <= k < |d.preempted| && TableGet(s, d.preempted[k]).Some?
      ensures TableGet(r, d.preempted[k]) == Some(Preempted(TableGet(s, d.preempted[k]).value))
    {
      PreemptedAt(s, d.preempted, k);
      ScheduledOther(s2, d.running, prm.sampled, d.preempted[k]);
      AdmittedOther(s3, d.admitted, running, prm.sampled, d.preempted[k]);
    }
    forall k | 0 <= k < |d.running| && TableGet(s, d.running[k].slot).Some?
      ensures TableGet(r, d.running[k].slot).Some?
      ensures Moved(TableGet(s, d.running[k].slot).value, TableGet(r, d.running[k].slot).value, d.running[k].tokens,
                    prm.sampled)
    {
      PreemptedOther(s, d.preempted, d.running[k].slot);
      ScheduledAt(s2, d.running, prm.sampled, k);
      AdmittedOther(s3, d.admitted, running, prm.sampled, d.running[k].slot);
      AdvanceMoves(TableGet(s, d.running[k].slot).value, d.running[k].tokens, prm.sampled);
    }
    forall k | 0 <= k < n
      ensures TableGet(r, d.admitted[k].slot).Some?
      ensures Moved(Entering(queue[k], d.admitted[k].computed), TableGet(r, d.admitted[k].slot).value,
                    d.admitted[k].tokens,
                    prm.sampled)
    {
      LastOfFront(front, queue, n, k);
      AdmittedAt(s3, d.admitted, running, prm.sampled, k, queue[k]);
      AdvanceMoves(Entering(queue[k], d.admitted[k].computed), d.admitted[k].tokens, prm.sampled);
    }
    forall x: Slot | Unnamed(d, x) ensures TableGet(r, x) == TableGet(s, x) {
      PreemptedOther(s, d.preempted, x);
      ScheduledOther(s2, d.running, prm.sampled, x);
      AdmittedOther(s3, d.admitted, running, prm.sampled, x);
    }
  }

  lemma {:induction false} RunningApart(all: seq<Entry>, s: State, running: seq<Entry>, i: nat, budget: nat,
                                        d: Decisions, prm: Params)
    requires DistinctSlots(all) && running <= all && i <= |running|
    requires DistinctRun(d.running) && FromPrefix(all, i, d.running)
    ensures var l := RunRunning(s, running, i, budget, d, prm);
      DistinctRun(l.d.running) && forall k :: 0 <= k < |l.d.running| ==> l.d.running[k].slot in Slots(all)
    decreases |running| - i
  {
    hide TryAllocate, RunningTokens;
    WholePrefix(all, i, |all|, d.running);
    assert all[..|all|] == all;
    if i < |running| && budget > 0 {
      assert running[i] == all[i];
      var n := RunningTokens(running[i], budget, prm);
      PrefixGrows(all, i, d.running, n);
      if n == 0 {
        RunningApart(all, s, running, i + 1, budget, d, prm);
      } else {
        NotPassed(all, i, d.running);
        var t := TryAllocate(s, running, d.preempted, running[i], n, prm);
        GrantStays(s, running, d.preempted, i, n, prm);
        if t.outcome.Granted? {
          RunningApart(all, t.state, t.running, i + 1, Monus(budget, n),
                       Record(d.(preempted := t.preempted), running[i].slot, n, t.outcome.blocks), prm);
        }
      }
    }
  }

  /** A request the loop has not passed is not scheduled yet. */
  lemma NotPassed(all: seq<Entry>, i: nat, run: seq<Scheduled>)
    requires DistinctSlots(all) && FromPrefix(all, i, run) && i < |all|
    ensures forall k :: 0 <= k < |run| ==> run[k].slot != all[i].slot
  {
    forall k | 0 <= k < |run| ensures run[k].slot != all[i].slot {
      var j :| 0 <= j < |Slots(all[..i])| && Slots(all[..i])[j] == run[k].slot;
      assert Slots(all)[j] != Slots(all)[i];
    }
  }

  lemma TailDistinct(all: seq<Entry>, kept: seq<Entry>, preempted: seq<Slot>)
    requires DistinctSlots(all) && Tail(all, kept, preempted)
    ensures Distinct(preempted) && forall v :: v in preempted ==> v in Slots(all)
  {
    var n := |preempted|;
    forall k | 0 <= k < n ensures preempted[k] == Slots(all)[|kept| + (n - 1 - k)] {
      assert Slots(all)[|kept| + (n - 1 - k)] == Reverse(preempted)[n - 1 - k];
    }
  }

  /** No slot is decided upon twice. */
  lemma DecisionsApart(s: State, running: seq<Entry>, queue: seq<Entry>, prm: Params)
    requires DistinctSlots(running) && DistinctSlots(queue)
    requires forall j :: 0 <= j < |queue| ==> queue[j].slot !in Slots(running)
    ensures var w := Waiting(RunRunning(s, running, 0, prm.maxTokens, NONE, prm), queue, prm);
      && Apart(w.d) && |w.d.admitted| <= |queue|
      && forall k :: 0 <= k < |w.d.admitted| ==> w.d.admitted[k].slot == queue[k].slot
  {
    hide RunRunning, RunWaiting, DistinctSlots;
    StepBooks(s, running, queue, prm);
    assert running[..0] == [];
    RunningApart(running, s, running, 0, prm.maxTokens, NONE, prm);
    var l := RunRunning(s, running, 0, prm.maxTokens, NONE, prm);
    var d := Waiting(l, queue, prm).d;
    TailDistinct(running, l.running, l.d.preempted);
    forall k | 0 <= k < |d.admitted| ensures k < |queue| && d.admitted[k].slot == queue[k].slot {
      assert AdmittedSlots(d.admitted)[k] == Slots(queue)[k];
    }
    assert |d.admitted| <= |queue| by { assert |AdmittedSlots(d.admitted)| <= |Slots(queue)|; }
    SlotsApart(queue, d.admitted);
  }

  lemma SlotsApart(queue: seq<Entry>, adm: seq<Admitted>)
    requires DistinctSlots(queue) && |adm| <= |queue| && forall k :: 0 <= k < |adm| ==> adm[k].slot == queue[k].slot
    ensures forall k, l :: 0 <= k < l < |adm| ==> adm[k].slot != adm[l].slot
  {
    forall k, l | 0 <= k < l < |adm| ensures adm[k].slot != adm[l].slot { assert Slots(queue)[k] != Slots(queue)[l]; }
  }

  /** The arranged queue has the waiting queue's slots. */
  lemma QueueApart(s: State, running: seq<Entry>, waiting: seq<Entry>, prm: Params)
    requires DistinctSlots(waiting) && forall j :: 0 <= j < |waiting| ==> waiting[j].slot !in Slots(running)
    ensures var queue := Arrange(s, waiting, prm).1;
      DistinctSlots(queue) && forall j :: 0 <= j < |queue| ==> queue[j].slot !in Slots(running)
  {
    hide Arrange;
    var queue := Arrange(s, waiting, prm).1;
    ArrangePermutes(s, waiting, prm);
    SlotsPermute(waiting, queue);
    DistinctMultiset(Slots(waiting));
    DistinctMultiset(Slots(queue));
    forall j | 0 <= j < |queue| ensures queue[j].slot !in Slots(running) {
      assert queue[j] in multiset(waiting);
    }
  }

  /** The two loops leave the table alone; whoever was admitted stands behind those that run. */
  lemma LoopsTable(s: State, running: seq<Entry>, queue: seq<Entry>, prm: Params)
    requires DistinctSlots(running)
    ensures var l := RunRunning(s, running, 0, prm.maxTokens, NONE, prm);
      var w := Waiting(l, queue, prm);
      && w.state.table == s.table && w.taken == |w.d.admitted| <= |queue|
      && w.running == l.running + queue[..|w.d.admitted|]
  {
    hide RunRunning, RunWaiting, DistinctSlots;
    var l := RunRunning(s, running, 0, prm.maxTokens, NONE, prm);
    RunningTable(s, running, 0, prm.maxTokens, NONE, prm);
    WaitingTable(l.state, l.running, queue, 0, l.budget, l.d, prm);
    StepBooks(s, running, queue, prm);
    var w := Waiting(l, queue, prm);
    assert |AdmittedSlots(w.d.admitted)| + |Slots(queue[w.taken..])| == |Slots(queue)|;
    assert l.running + queue[..0] == l.running;
  }

  /**
   * What a completed step leaves in the resident table: a preempted entry starts over, a scheduled
   * one has moved by its tokens, an admitted one is its waiting entry set running and moved by its
   * tokens, and every other is as it was.
   */
  lemma StepCommits(s: State, running: seq<Entry>, waiting: seq<Entry>, prm: Params)
    requires Run(s, running, waiting, prm).Ok? && DistinctSlots(running) && DistinctSlots(waiting)
    requires forall j :: 0 <= j < |waiting| ==> waiting[j].slot !in Slots(running)
    ensures var r, d := Run(s, running, waiting, prm).state, Run(s, running, waiting, prm).decisions;
      && Preempts(s, r, d.preempted) && Runs(s, r, d.running, prm.sampled)
      && Takes(Arrange(s, waiting, prm).1, r, d.admitted, prm.sampled)
      && forall x: Slot :: Unnamed(d, x) ==> TableGet(r, x) == TableGet(s, x)
  {
    hide Arrange, RunRunning, Waiting, CommonPrefixAll, Commit, Preempts, Runs, Takes, Apart, TableGet, DistinctSlots,
         Slots, Unnamed;
    var (s0, queue) := Arrange(s, waiting, prm);
    ArrangeTable(s, waiting, prm);
    QueueApart(s, running, waiting, prm);
    DecisionsApart(s0, running, queue, prm);
    LoopsTable(s0, running, queue, prm);
    var l := RunRunning(s0, running, 0, prm.maxTokens, NONE, prm);
    var w := Waiting(l, queue, prm);
    var q := if w.running != [] then CommonPrefixAll(w.state, w.running[0].slot).0 else w.state;
    if w.running != [] { CommonTable(w.state, w.running[0].slot); }
    SameApart(w.d, Run(s, running, waiting, prm).decisions);
    CommitFrom(s, q, Run(s, running, waiting, prm).decisions, l.running, queue, prm);
  }

  lemma SameApart(d: Decisions, e: Decisions)
    requires Apart(d) && e.preempted == d.preempted && e.running == d.running && e.admitted == d.admitted
    ensures Apart(e)
  {}

  lemma CommitFrom(s: State, q: State, d: Decisions, front: seq<Entry>, queue: seq<Entry>, prm: Params)
    requires q.table == s.table && Apart(d) && |d.admitted| <= |queue| && DistinctSlots(queue)
    requires forall k :: 0 <= k < |d.admitted| ==> d.admitted[k].slot == queue[k].slot
    ensures var r := Commit(q, d, front + queue[..|d.admitted|], prm);
      && Preempts(s, r, d.preempted) && Runs(s, r, d.running, prm.sampled)
      && Takes(queue, r, d.admitted, prm.sampled)
      && forall x: Slot :: Unnamed(d, x) ==> TableGet(r, x) == TableGet(s, x)
  {
    hide MarkPreempted, MarkScheduled, MarkAdmitted, Moved;
    CommitMoves(q, d, front, queue, prm);
    assert forall x: Slot :: TableGet(q, x) == TableGet(s, x);
  }
}
