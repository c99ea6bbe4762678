/**
 * How many tokens a request is given. The aligned split goes as far as it may, the stop rule skips a
 * request exactly when its output in flight already reaches the limit, and over a whole step every
 * request that keeps running gets exactly what is due to it out of the budget left by those before it.
 */
module Amounts {
  import opened Basics
  import opened TypeSpec
  import opened ManagerSpec
  import opened SchedSpec
  import opened StepProps
  import opened TokenCounts
  import opened Boundaries
  import H = HitLookup

  // ---- the aligned split ------------------------------------------------------------

  /** Prompt and all but the last token are computed. */
  predicate Past(e: Entry, c: nat) { c >= e.prompt && c + 1 >= e.tokens }

  /** `m` tokens from `c` end on a block boundary the request can still cache. */
  predicate Lands(c: nat, m: nat, tokens: nat, bs: Pos) { (c + m) % bs == 0 && c + m <= tokens }

  /** What a chunk of at most `n` tokens from `c` is cut to: all of it once no boundary is left to
      reach; from a boundary, as far as the last boundary within it; from inside a block, up to the
      last cacheable position, or a whole number of blocks that does not get there. */
  ghost predicate Aligned(e: Entry, c: nat, n: nat, bs: Pos, m: nat) {
    if Past(e, c) || c >= e.tokens / bs * bs then m == n
    else if c % bs == 0 then
      m <= n && Lands(c, m, e.tokens, bs) && forall k: nat :: k <= n && Lands(c, k, e.tokens, bs) ==> k <= m
    else if c + n >= e.tokens / bs * bs then c + m == e.tokens / bs * bs
    else m % bs == 0 && m <= n < m + bs
  }

  /** An uncached common prefix of a block or more ends the chunk at its last whole block. */
  ghost predicate Admissioned(n: nat, uncached: nat, bs: Pos, m: nat) {
    if uncached >= bs && n > uncached then m % bs == 0 && m <= uncached < m + bs else m == n
  }

  lemma FloorMost(x: nat, bs: Pos)
    ensures x / bs * bs % bs == 0 && x / bs * bs <= x < x / bs * bs + bs
  {
    FloorBounds(x, bs);
    H.Whole(x / bs, bs);
  }

  /** No boundary between the last one and where the chunk may end. */
  lemma LastLanding(c: nat, k: nat, m: nat, n: nat, bs: Pos)
    requires (c + m) % bs == 0 && (c + k) % bs == 0 && k <= n < m + bs
    ensures k <= m
  {
    var x, y := (c + m) / bs, (c + k) / bs;
    H.Exact(c + m, bs);
    H.Exact(c + k, bs);
    assert (x + 1) * bs == x * bs + bs;
    MulOrder(y, x + 1, bs);
    MulOrder(x, y, bs);
  }

  /** Without a common prefix to wait for, the split is exactly that. */
  lemma SplitExact(e: Entry, n: nat, local: nat, uncached: nat, bs: Pos)
    requires uncached < bs
    ensures Aligned(e, e.computed + local, n, bs, Split(e, n, local, uncached, bs))
  {
    var c, last := e.computed + local, e.tokens / bs * bs;
    var m := Split(e, n, local, uncached, bs);
    LastWhole(e.tokens, bs);
    FloorMost(e.tokens, bs);
    FloorMost(n, bs);
    if !Past(e, c) && c < last && c % bs == 0 {
      if c + n < last {
        WholeSum(c, n, bs);
        forall k: nat | k <= n && Lands(c, k, e.tokens, bs) ensures k <= m { LastLanding(c, k, m, n, bs); }
      } else {
        forall k: nat | k <= n && Lands(c, k, e.tokens, bs) ensures k <= m {
          LastLanding(0, c + k, last, e.tokens, bs);
        }
      }
    }
  }

  /** With one, it cuts what would have been the chunk. */
  lemma SplitUncached(e: Entry, n: nat, local: nat, uncached: nat, bs: Pos)
    requires !Past(e, e.computed + local)
    ensures Admissioned(Split(e, n, local, 0, bs), uncached, bs, Split(e, n, local, uncached, bs))
  {
    FloorMost(uncached, bs);
  }

  /** The split makes progress: with the next boundary in reach, or none left, it is not empty. */
  lemma SplitProgress(e: Entry, n: nat, local: nat, uncached: nat, bs: Pos)
    requires var c := e.computed + local;
      n > 0 && (c % bs == 0 ==> n >= bs || c + n > e.tokens / bs * bs) && (c % bs != 0 ==> c + n >= e.tokens / bs * bs)
    ensures Split(e, n, local, uncached, bs) > 0
  {
    var c, last := e.computed + local, e.tokens / bs * bs;
    LastWhole(e.tokens, bs);
    FloorMost(n, bs);
    FloorMost(uncached, bs);
  }

  // ---- what is due to a running request ---------------------------------------------

  /** The machine's counters do not overflow, and no more is computed than there is. */
  predicate Sound(e: Entry) {
    && e.computed <= e.tokensWithSpec + e.placeholders < WORD
    && e.computed + 2 < WORD && e.placeholders < WORD
  }

  /** Output is in flight, and what is computed with it reaches the limit; the machine subtracts
      modulo its word. */
  predicate Stopped(e: Entry) {
    && e.placeholders > 0
    && e.prompt + e.maxTokens
       <= e.computed + 2 - e.placeholders + (if e.placeholders > e.computed + 2 then WORD else 0)
  }

  /** Within what is left of the request, the threshold, the budget and the model length. */
  predicate Allowance(e: Entry, budget: nat, prm: Params, n: nat) {
    && e.computed + n <= e.tokensWithSpec + e.placeholders && n <= budget
    && (prm.longPrefill > 0 ==> n <= prm.longPrefill)
    && (n > 0 ==> e.computed + prm.sampled + n <= prm.maxModelLen)
  }

  ghost predicate Most(e: Entry, budget: nat, prm: Params, n: nat) {
    Allowance(e, budget, prm, n) && forall k: nat :: Allowance(e, budget, prm, k) ==> k <= n
  }

  /** What the running loop owes the request: nothing if it is stopped, else the most it may have,
      split where prefills are aligned. */
  ghost predicate Due(e: Entry, budget: nat, prm: Params, n: nat) {
    if Stopped(e) then n == 0
    else exists m: nat ::
      Most(e, budget, prm, m) && if prm.aligned then Aligned(e, e.computed, m, prm.cacheBlock, n) else n == m
  }

  lemma StoppedIs(e: Entry)
    requires Sound(e)
    ensures AtMax(e) <==> Stopped(e)
  {}

  lemma RunningIsDue(e: Entry, budget: nat, prm: Params)
    requires Sound(e)
    ensures Due(e, budget, prm, RunningTokens(e, budget, prm))
  {
    hide AtMax, Split, Stopped, Aligned;
    StoppedIs(e);
    if !AtMax(e) {
      assert Sub64(e.tokensWithSpec + e.placeholders, e.computed) == e.tokensWithSpec + e.placeholders - e.computed;
      var n := Min(LongCap(Sub64(e.tokensWithSpec + e.placeholders, e.computed), prm), budget);
      var m := Min(n, Monus(prm.maxModelLen, e.computed + prm.sampled));
      assert Most(e, budget, prm, m);
      SplitExact(e, m, 0, 0, prm.cacheBlock);
    }
  }

  /** With a block's worth within what it may have, a request that is not stopped gets something. */
  lemma DueProgress(e: Entry, budget: nat, prm: Params, n: nat)
    requires Due(e, budget, prm, n) && !Stopped(e) && Allowance(e, budget, prm, prm.cacheBlock)
    ensures n > 0
  {
    hide Allowance, Stopped, Past, Lands;
    var bs := prm.cacheBlock;
    var m: nat :| Most(e, budget, prm, m) && if prm.aligned then Aligned(e, e.computed, m, bs, n) else n == m;
    assert bs <= m;
    if e.computed < e.tokens / bs * bs && e.computed % bs == 0 { NextLanding(e.computed, e.tokens, bs); }
  }

  /** From a boundary before the last cacheable position, the next one can be cached. */
  lemma NextLanding(c: nat, tokens: nat, bs: Pos)
    requires c < tokens / bs * bs && c % bs == 0
    ensures Lands(c, bs, tokens, bs)
  {
    FloorMost(tokens, bs);
    H.Exact(c, bs);
    H.Whole(c / bs + 1, bs);
    assert (c / bs + 1) * bs == c / bs * bs + bs;
    MulOrder(c / bs, tokens / bs, bs);
    MulOrder(c / bs + 1, tokens / bs, bs);
  }

  /** What is due is one number. */
  lemma DueOnly(e: Entry, budget: nat, prm: Params, n: nat, k: nat)
    requires Due(e, budget, prm, n) && Due(e, budget, prm, k)
    ensures n == k
  {
    hide Stopped, Past, Lands, Allowance;
    if !Stopped(e) {
      var bs := prm.cacheBlock;
      var x: nat :| Most(e, budget, prm, x) && if prm.aligned then Aligned(e, e.computed, x, bs, n) else n == x;
      var y: nat :| Most(e, budget, prm, y) && if prm.aligned then Aligned(e, e.computed, y, bs, k) else k == y;
      assert x == y;
      if prm.aligned && n % bs == 0 && k % bs == 0 && n <= x < n + bs && k <= x < k + bs {
        LastLanding(0, n, k, x, bs);
        LastLanding(0, k, n, x, bs);
      }
    }
  }

  // ---- preemption -------------------------------------------------------------------

  /** Without blocks even after freeing everybody behind it, the request has been freed itself. */
  lemma {:induction false} RefusedGoes(s: State, running: seq<Entry>, preempted: seq<Slot>, i: nat, n: nat, prm: Params)
    requires DistinctSlots(running) && i < |running|
    ensures var t := TryAllocate(s, running, preempted, running[i], n, prm);
      t.outcome.Refused? ==> t.running == running[..i]
    decreases |running|
  {
    hide AllocateSlots, FreeSlot;
    var (s1, out) := AllocateSlots(s, RunningCall(running[i], n, prm));
    if out.Refused? {
      var rest := running[..|running| - 1];
      assert Slots(rest) == Slots(running)[..|running| - 1];
      if i < |running| - 1 {
        assert Slots(running)[i] != Slots(running)[|running| - 1];
        var victim := running[|running| - 1].slot;
        RefusedGoes(FreeSlot(s1, victim), rest, preempted + [victim], i, n, prm);
      }
    }
  }

  /** The call a running request makes for `n` tokens. */
  function CallFor(e: Entry, n: nat, prm: Params): Call {
    Call(e.slot, n, 0, false, prm.lookahead, e.computed, e.tokens, e.status, true)
  }

  /** Nobody is preempted without need: the `k`-th victim goes only after the call was refused with
      the first `k` gone, and a grant is that of the first call that is not refused. */
  lemma {:induction false} VictimsNeeded(s: State, running: seq<Entry>, preempted: seq<Slot>, e: Entry, n: nat,
                                         prm: Params) returns (ss: seq<State>)
    ensures var t := TryAllocate(s, running, preempted, e, n, prm);
      var k := |running| - |t.running|;
      && |ss| == k + 1 && ss[0] == s
      && (forall j :: 0 <= j < k ==>
            AllocateSlots(ss[j], CallFor(e, n, prm)).1.Refused?
            && ss[j + 1] == FreeSlot(AllocateSlots(ss[j], CallFor(e, n, prm)).0, running[|running| - 1 - j].slot))
      && (t.outcome.Granted? ==> AllocateSlots(ss[k], CallFor(e, n, prm)) == (t.state, t.outcome))
    decreases |running|
  {
    hide AllocateSlots, FreeSlot;
    var (s1, out) := AllocateSlots(s, CallFor(e, n, prm));
    if !out.Refused? || running == [] {
      ss := [s];
    } else {
      var victim := running[|running| - 1];
      var s2 := FreeSlot(s1, victim.slot);
      if victim.slot == e.slot {
        ss := [s, s2];
      } else {
        var rest := VictimsNeeded(s2, running[..|running| - 1], preempted + [victim.slot], e, n, prm);
        ss := [s] + rest;
      }
    }
  }

  // ---- the running loop -------------------------------------------------------------

  /** What the decisions give a slot. */
  function Given(run: seq<Scheduled>, x: Slot): nat {
    if run == [] then 0
    else Given(run[..|run| - 1], x) + if run[|run| - 1].slot == x then run[|run| - 1].tokens else 0
  }

  /** And a queue. */
  function Spent(run: seq<Scheduled>, es: seq<Entry>): nat {
    if es == [] then 0 else Spent(run, es[..|es| - 1]) + Given(run, es[|es| - 1].slot)
  }

  /** The first `i` get what is due to each out of the budget left by those before it, the others nothing. */
  ghost predicate Dealt(all: seq<Entry>, i: nat, total: nat, run: seq<Scheduled>, prm: Params) {
    && i <= |all|
    && (forall j :: 0 <= j < i ==>
          Due(all[j], Monus(total, Spent(run, all[..j])), prm, Given(run, all[j].slot)))
    && (forall j :: i <= j < |all| ==> Given(run, all[j].slot) == 0)
  }

  lemma {:induction false} SpentSame(run: seq<Scheduled>, more: seq<Scheduled>, es: seq<Entry>)
    requires forall j :: 0 <= j < |es| ==> Given(more, es[j].slot) == Given(run, es[j].slot)
    ensures Spent(more, es) == Spent(run, es)
  {
    if es != [] { SpentSame(run, more, es[..|es| - 1]); }
  }

  lemma DealtNext(all: seq<Entry>, i: nat, total: nat, run: seq<Scheduled>, n: nat, prm: Params)
    requires Dealt(all, i, total, run, prm) && i < |all| && DistinctSlots(all)
    requires Due(all[i], Monus(total, Spent(run, all[..i])), prm, n)
    ensures n == 0 ==> Dealt(all, i + 1, total, run, prm)
    ensures Dealt(all, i + 1, total, run + [Scheduled(all[i].slot, n)], prm)
    ensures Spent(run + [Scheduled(all[i].slot, n)], all[..i + 1]) == Spent(run, all[..i]) + n
    ensures Spent(run, all[..i + 1]) == Spent(run, all[..i])
  {
    hide Due;
    var more := run + [Scheduled(all[i].slot, n)];
    assert more[..|more| - 1] == run;
    forall j | 0 <= j < |all| ensures Given(more, all[j].slot) == Given(run, all[j].slot) + if j == i then n else 0 {
      if j != i { assert Slots(all)[j] != Slots(all)[i]; }
    }
    forall j | 0 <= j <= i ensures Spent(more, all[..j]) == Spent(run, all[..j]) { SpentSame(run, more, all[..j]); }
    assert all[..i + 1][..i] == all[..i];
  }

  /** Once the budget is spent, nothing is due. */
  lemma {:induction false} DealtRest(all: seq<Entry>, i: nat, j: nat, total: nat, run: seq<Scheduled>, prm: Params)
    requires Dealt(all, i, total, run, prm) && i <= j <= |all| && DistinctSlots(all)
    requires Monus(total, Spent(run, all[..i])) == 0 && forall k :: 0 <= k < |all| ==> Sound(all[k])
    ensures Dealt(all, j, total, run, prm)
    decreases j - i
  {
    hide Due, RunningTokens, Sound;
    if i < j {
      RunningIsDue(all[i], 0, prm);
      RunningWithin(all[i], 0, prm);
      DealtNext(all, i, total, run, 0, prm);
      DealtRest(all, i + 1, j, total, run, prm);
    }
  }

  lemma {:induction false} RunningDeals(all: seq<Entry>, s: State, running: seq<Entry>, i: nat, budget: nat,
                                        d: Decisions, prm: Params, total: nat)
    requires DistinctSlots(all) && running <= all && i <= |running| && forall k :: 0 <= k < |all| ==> Sound(all[k])
    requires Dealt(all, i, total, d.running, prm) && Spent(d.running, all[..i]) + budget == total
    ensures var l := RunRunning(s, running, i, budget, d, prm);
      l.ok ==> l.running <= all && Dealt(all, |l.running|, total, l.d.running, prm)
    decreases |running| - i
  {
    hide TryAllocate, RunningTokens, Dealt, Due, Sound, Spent, DistinctSlots, Slots, Lens, Flatten;
    if i >= |running| {
    } else if budget == 0 {
      DealtRest(all, i, |running|, total, d.running, prm);
    } else {
      assert running[i] == all[i];
      var n := RunningTokens(running[i], budget, prm);
      RunningIsDue(all[i], budget, prm);
      RunningWithin(all[i], budget, prm);
      DealtNext(all, i, total, d.running, n, prm);
      if n == 0 {
        RunningDeals(all, s, running, i + 1, budget, d, prm, total);
      } else {
        PrefixDistinct(all, running);
        RefusedGoes(s, running, d.preempted, i, n, prm);
        GrantStays(s, running, d.preempted, i, n, prm);
        var t := TryAllocate(s, running, d.preempted, running[i], n, prm);
        if t.outcome.Granted? {
          RunningDeals(all, t.state, t.running, i + 1, budget - n,
                       Record(d.(preempted := t.preempted), running[i].slot, n, t.outcome.blocks), prm, total);
        }
      }
    }
  }

  lemma PrefixDistinct(all: seq<Entry>, es: seq<Entry>)
    requires DistinctSlots(all) && es <= all
    ensures DistinctSlots(es)
  {
    assert forall j :: 0 <= j < |es| ==> Slots(es)[j] == Slots(all)[j];
  }

  /** A request that is granted its blocks keeps its place. */
  lemma {:induction false} GrantStays(s: State, running: seq<Entry>, preempted: seq<Slot>, i: nat, n: nat, prm: Params)
    requires i < |running|
    ensures var t := TryAllocate(s, running, preempted, running[i], n, prm);
      t.outcome.Granted? ==> i < |t.running|
    decreases |running|
  {
    hide AllocateSlots, FreeSlot;
    var (s1, out) := AllocateSlots(s, RunningCall(running[i], n, prm));
    if out.Refused? && i < |running| - 1 {
      var victim := running[|running| - 1];
      GrantStays(FreeSlot(s1, victim.slot), running[..|running| - 1], preempted + [victim.slot], i, n, prm);
    }
  }

  /** The running half of a step gives every request that is left what is due to it, and has
      preempted all the others. */
  lemma RunningHalf(s: State, running: seq<Entry>, prm: Params)
    requires DistinctSlots(running) && forall j :: 0 <= j < |running| ==> Sound(running[j])
    requires RunRunning(s, running, 0, prm.maxTokens, NONE, prm).ok
    ensures var l := RunRunning(s, running, 0, prm.maxTokens, NONE, prm);
      && |l.running| + |l.d.preempted| == |running|
      && Dealt(running, |running| - |l.d.preempted|, prm.maxTokens, l.d.running, prm)
  {
    hide RunRunning, Sound;
    assert running[..0] == [];
    RunningDeals(running, s, running, 0, prm.maxTokens, NONE, prm, prm.maxTokens);
    assert Tail(running, running, []) by { assert Slots(running) + Reverse([]) == Slots(running); }
    RunningOk(running, s, running, 0, prm.maxTokens, NONE, prm, prm.maxTokens);
    var l := RunRunning(s, running, 0, prm.maxTokens, NONE, prm);
    assert |Slots(running)| == |Slots(l.running)| + |Reverse(l.d.preempted)|;
  }

  // ---- what is due to a waiting request ---------------------------------------------

  /** The lookup a waiting request with nothing computed makes: its hit, and the uncached common
      prefix behind it. One that kept computed tokens looks nothing up. */
  function Looked(s: State, e: Entry): (State, nat, nat) {
    if e.computed == 0 then
      var (q, hit) := GetComputed(s, e.slot, e.tokens, e.skipCache); (q, hit, q.uncached)
    else (s, 0, 0)
  }

  function Start(s: State, e: Entry): nat { if e.computed == 0 then Looked(s, e).1 else e.computed }

  /** The most the request asks for from `c`, before the budget. */
  ghost predicate Wants(e: Entry, c: nat, prm: Params, m: nat) {
    && c + m <= e.tokens && (prm.longPrefill > 0 ==> m <= prm.longPrefill)
    && (c + m < e.tokens ==> m == prm.longPrefill > 0)
  }

  /** The aligned cut of `m` tokens from `c`, and the common prefix's after it. */
  ghost predicate CutTwice(e: Entry, c: nat, m: nat, uncached: nat, bs: Pos, n: nat) {
    exists k: nat :: Aligned(e, c, m, bs, k) && if Past(e, c) then n == k else Admissioned(k, uncached, bs, n)
  }

  /** What the waiting loop owes the request out of the budget. */
  ghost predicate WaitingDue(e: Entry, c: nat, uncached: nat, budget: nat, prm: Params, n: nat) {
    exists m: nat :: Wants(e, c, prm, m)
      && if prm.aligned then CutTwice(e, c, Min(m, budget), uncached, prm.cacheBlock, n) else n == Min(m, budget)
  }

  function Offer(s: State, e: Entry, n: nat, others: bool, prm: Params): (State, Outcome) {
    AllocateSlots(Looked(s, e).0, Call(e.slot, n, Looked(s, e).1, e.computed == 0, prm.lookahead, e.computed, e.tokens,
                                       e.status, others))
  }

  /** The request is admitted from where it starts, with what is due to it; without chunking it
      fits the budget whole. */
  ghost predicate Enters(s: State, e: Entry, budget: nat, others: bool, prm: Params, a: Admitted) {
    && a.slot == e.slot && a.computed == Start(s, e) && a.tokens > 0
    && WaitingDue(e, a.computed, Looked(s, e).2, budget, prm, a.tokens)
    && (!prm.chunked ==> exists m: nat :: m <= budget && Wants(e, a.computed, prm, m))
    && Offer(s, e, a.tokens, others, prm).1.Granted?
  }

  /** Why the next request stays: it does not fit the budget whole and must, nothing is due to it,
      or there are no blocks for what is. */
  ghost predicate Stays(s: State, e: Entry, budget: nat, others: bool, prm: Params) {
    || (!prm.chunked && exists m: nat :: m > budget && Wants(e, Start(s, e), prm, m))
    || exists n: nat :: WaitingDue(e, Start(s, e), Looked(s, e).2, budget, prm, n)
                        && (n == 0 || Offer(s, e, n, others, prm).1.Refused?)
  }

  /** The waiting requests enter in order, each with what is due to it, until the queue, the budget
      or the places are used up, or the next one has to stay. */
  ghost predicate EnterInTurn(s: State, waiting: seq<Entry>, held: nat, budget: nat, adm: seq<Admitted>, prm: Params)
    decreases |adm|
  {
    if adm == [] then
      waiting == [] || budget == 0 || held >= prm.maxRunning || Stays(s, waiting[0], budget, held > 0, prm)
    else
      && waiting != [] && held < prm.maxRunning && 0 < adm[0].tokens <= budget
      && Enters(s, waiting[0], budget, held > 0, prm, adm[0])
      && EnterInTurn(Offer(s, waiting[0], adm[0].tokens, held > 0, prm).0, waiting[1..], held + 1,
                     budget - adm[0].tokens, adm[1..], prm)
  }

  lemma AskIs(s: State, e: Entry, prm: Params)
    requires e.computed <= e.tokens < WORD
    ensures var a := AskOf(s, e, prm);
      && a.state == Looked(s, e).0 && a.hit == Looked(s, e).1 && a.computed == Start(s, e) == e.computed + a.hit
      && Wants(e, a.computed, prm, a.tokens)
  {
    hide HitTable, Uncached, HitLength;
    var a := AskOf(s, e, prm);
    HitBound(s, e.slot, Monus(e.tokens, 1));
    assert Sub64(e.tokens, a.computed) == e.tokens - a.computed;
  }

  lemma WaitingIsDue(s: State, e: Entry, budget: nat, prm: Params)
    requires e.computed <= e.tokens < WORD
    ensures WaitingDue(e, Start(s, e), Looked(s, e).2, budget, prm, WaitingTokens(AskOf(s, e, prm), e, budget, prm))
  {
    hide GetComputed, Split, Aligned, Admissioned, Past, Wants;
    AskIs(s, e, prm);
    var a, u, bs := AskOf(s, e, prm), Looked(s, e).2, prm.cacheBlock;
    var m := Min(a.tokens, budget);
    if prm.aligned {
      SplitExact(e, m, a.hit, 0, bs);
      if Past(e, a.computed) { SplitPast(e, m, a.hit, u, bs); } else { SplitUncached(e, m, a.hit, u, bs); }
      assert CutTwice(e, a.computed, m, u, bs, Split(e, m, a.hit, u, bs));
    }
  }

  lemma SplitPast(e: Entry, n: nat, local: nat, uncached: nat, bs: Pos)
    requires Past(e, e.computed + local)
    ensures Split(e, n, local, uncached, bs) == n == Split(e, n, local, 0, bs)
  {}

  /** The call of the waiting loop is the offer. */
  lemma OfferIs(s: State, e: Entry, n: nat, held: nat, prm: Params)
    requires e.computed <= e.tokens < WORD
    ensures var a := AskOf(s, e, prm);
      Offer(s, e, n, held > 0, prm) == AllocateSlots(a.state, WaitingCall(e, n, a.hit, prm, held > 0))
  {
    hide AllocateSlots, AskOf, Looked;
    AskIs(s, e, prm);
  }

  lemma StaysFor(s: State, e: Entry, a: Ask, n: nat, budget: nat, others: bool, prm: Params)
    requires a.computed == Start(s, e) && Wants(e, a.computed, prm, a.tokens)
    requires WaitingDue(e, a.computed, Looked(s, e).2, budget, prm, n)
    ensures !prm.chunked && a.tokens > budget ==> Stays(s, e, budget, others, prm)
    ensures n == 0 || Offer(s, e, n, others, prm).1.Refused? ==> Stays(s, e, budget, others, prm)
  {
    hide WaitingDue, Wants, Offer, Looked, Start;
  }

  lemma EntersAs(s: State, e: Entry, a: Ask, n: nat, budget: nat, others: bool, prm: Params)
    requires a.computed == Start(s, e) && Wants(e, a.computed, prm, a.tokens) && (prm.chunked || a.tokens <= budget)
    requires WaitingDue(e, a.computed, Looked(s, e).2, budget, prm, n) && n > 0
    requires Offer(s, e, n, others, prm).1.Granted?
    ensures Enters(s, e, budget, others, prm, Admitted(e.slot, n, a.computed))
  {
    hide WaitingDue, Wants, Offer, Looked, Start;
  }

  lemma {:induction false} WaitingEnters(s: State, running: seq<Entry>, waiting: seq<Entry>, k: nat, budget: nat,
                                         d: Decisions, prm: Params)
    requires k <= |waiting| && forall j :: 0 <= j < |waiting| ==> waiting[j].computed <= waiting[j].tokens < WORD
    ensures var w := RunWaiting(s, running, waiting, k, budget, d, prm);
      w.ok ==> d.admitted <= w.d.admitted
               && EnterInTurn(s, waiting[k..], |running|, budget, w.d.admitted[|d.admitted|..], prm)
    decreases |waiting| - k
  {
    hide AllocateSlots, AskOf, WaitingTokens, WaitingCall, Looked, Start, WaitingDue, Wants, Offer, Enters, Stays;
    if k < |waiting| && budget > 0 && |running| < prm.maxRunning {
      var e := waiting[k];
      var a := AskOf(s, e, prm);
      AskIs(s, e, prm);
      WaitingIsDue(s, e, budget, prm);
      WaitingWithin(a, e, budget, prm);
      var n := WaitingTokens(a, e, budget, prm);
      OfferIs(s, e, n, |running|, prm);
      StaysFor(s, e, a, n, budget, |running| > 0, prm);
      assert waiting[k..][0] == e && waiting[k..][1..] == waiting[k + 1..];
      if !(!prm.chunked && a.tokens > budget) && a.tokens > 0 && n > 0 {
        var (s2, out) := AllocateSlots(a.state, WaitingCall(e, n, a.hit, prm, running != []));
        if out.Granted? {
          var one := Admitted(e.slot, n, a.computed);
          EntersAs(s, e, a, n, budget, |running| > 0, prm);
          WaitingEnters(s2, running + [e], waiting, k + 1, budget - n, d.(admitted := d.admitted + [one]), prm);
          var w := RunWaiting(s, running, waiting, k, budget, d, prm);
          if w.ok {
            var adm := w.d.admitted[|d.admitted|..];
            assert adm[0] == w.d.admitted[|d.admitted|] == (d.admitted + [one])[|d.admitted|] == one;
            assert adm[1..] == w.d.admitted[|d.admitted| + 1..];
          }
        }
      }
    }
  }

  // ---- the whole step ---------------------------------------------------------------

  /**
   * A step that completes has preempted a tail of the running queue; every other running request is
   * given exactly what is due to it out of the budget left by those before it. Unless somebody was
   * preempted, the waiting requests then enter in turn out of what is left.
   */
  lemma StepDeals(s: State, running: seq<Entry>, waiting: seq<Entry>, prm: Params)
    requires Run(s, running, waiting, prm).Ok? && DistinctSlots(running)
    requires forall j :: 0 <= j < |running| ==> Sound(running[j])
    requires forall j :: 0 <= j < |waiting| ==> waiting[j].computed <= waiting[j].tokens < WORD
    ensures var d := Run(s, running, waiting, prm).decisions;
      var (s0, queue) := Arrange(s, waiting, prm);
      && |d.preempted| <= |running|
      && Dealt(running, |running| - |d.preempted|, prm.maxTokens, d.running, prm)
      && (d.preempted == [] ==>
            EnterInTurn(RunRunning(s0, running, 0, prm.maxTokens, NONE, prm).state, queue, |running|,
                        Monus(prm.maxTokens, SumRunning(d.running)), d.admitted, prm))
      && (d.preempted != [] ==> d.admitted == [])
  {
    hide Arrange, RunRunning, RunWaiting, Dealt, EnterInTurn, Sound, CommonPrefixAll, Commit;
    var (s0, queue) := Arrange(s, waiting, prm);
    ArrangePermutes(s, waiting, prm);
    RunningHalf(s0, running, prm);
    StepBooks(s0, running, queue, prm);
    NoneAdmitted(s0, running, prm);
    var l := RunRunning(s0, running, 0, prm.maxTokens, NONE, prm);
    forall j | 0 <= j < |queue| ensures queue[j].computed <= queue[j].tokens < WORD {
      assert queue[j] in multiset(waiting);
    }
    WaitingEnters(l.state, l.running, queue, 0, l.budget, l.d, prm);
    BudgetAfter(s0, running, prm);
    assert queue[0..] == queue;
    var w := Waiting(l, queue, prm);
    assert w.d.admitted[0..] == w.d.admitted;
  }

  lemma BudgetAfter(s: State, running: seq<Entry>, prm: Params)
    ensures var l := RunRunning(s, running, 0, prm.maxTokens, NONE, prm);
      SumRunning(l.d.running) + l.budget == prm.maxTokens
  {
    hide RunRunning;
    assert Tail(running, running, []) by { assert Slots(running) + Reverse([]) == Slots(running); }
    RunningOk(running, s, running, 0, prm.maxTokens, NONE, prm, prm.maxTokens);
  }
}
