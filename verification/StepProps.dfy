/** What one scheduling step accounts for, whatever the queues: budget, preemption, admission. */
module StepProps {
  import opened Basics
  import opened ManagerSpec
  import opened SchedSpec

  function SumRunning(run: seq<Scheduled>): nat {
    if run == [] then 0 else SumRunning(run[..|run| - 1]) + run[|run| - 1].tokens
  }

  function SumAdmitted(adm: seq<Admitted>): nat {
    if adm == [] then 0 else SumAdmitted(adm[..|adm| - 1]) + adm[|adm| - 1].tokens
  }

  function AdmittedSlots(adm: seq<Admitted>): seq<Slot> {
    seq(|adm|, i requires 0 <= i < |adm| => adm[i].slot)
  }

  /** The aligned split only shortens a chunk. */
  lemma SplitShortens(e: Entry, n: nat, local: nat, uncached: nat, bs: Pos)
    ensures Split(e, n, local, uncached, bs) <= n
  {
    assert n / bs * bs <= n by { assert n == n / bs * bs + n % bs; }
    assert uncached / bs * bs <= uncached by { assert uncached == uncached / bs * bs + uncached % bs; }
  }

  lemma RunningWithin(e: Entry, budget: nat, prm: Params)
    ensures RunningTokens(e, budget, prm) <= budget
  {
    if !AtMax(e) {
      var n := Min(LongCap(Sub64(e.tokensWithSpec + e.placeholders, e.computed), prm), budget);
      SplitShortens(e, Min(n, Monus(prm.maxModelLen, e.computed + prm.sampled)), 0, 0, prm.cacheBlock);
    }
  }

  /** The slots of `running`, last first, once `kept` are left. */
  ghost predicate Tail(running: seq<Entry>, kept: seq<Entry>, preempted: seq<Slot>) {
    kept <= running && Slots(running) == Slots(kept) + Reverse(preempted)
  }

  lemma TailPop(running: seq<Entry>, kept: seq<Entry>, preempted: seq<Slot>)
    requires Tail(running, kept, preempted) && kept != []
    ensures Tail(running, kept[..|kept| - 1], preempted + [kept[|kept| - 1].slot])
  {
    var rest := kept[..|kept| - 1];
    var v := kept[|kept| - 1].slot;
    assert Slots(kept) == Slots(rest) + [v];
    assert Reverse(preempted + [v]) == [v] + Reverse(preempted);
    assert Slots(running) == Slots(rest) + ([v] + Reverse(preempted));
  }

  /** Victims come off the tail one by one; the request itself is freed last, if at all. */
  lemma {:induction false} TryTail(all: seq<Entry>, s: State, running: seq<Entry>, preempted: seq<Slot>, i: nat,
                                   n: nat, prm: Params)
    requires Tail(all, running, preempted) && i < |running|
    ensures var t := TryAllocate(s, running, preempted, all[i], n, prm);
      Tail(all, t.running, t.preempted) && |t.running| >= i && (t.outcome.Granted? ==> i < |t.running|)
      && preempted <= t.preempted
    decreases |running|
  {
    assert running[i] == all[i];
    var (s1, out) := AllocateSlots(s, RunningCall(all[i], n, prm));
    if out.Refused? {
      TailPop(all, running, preempted);
      var victim := running[|running| - 1];
      if victim.slot != all[i].slot {
        TryTail(all, FreeSlot(s1, victim.slot), running[..|running| - 1], preempted + [victim.slot], i, n, prm);
      }
    }
  }

  /** Each scheduled entry is a distinct element of the part of the queue already passed. */
  ghost predicate FromPrefix(all: seq<Entry>, i: nat, run: seq<Scheduled>) {
    i <= |all| && forall k :: 0 <= k < |run| ==> run[k].slot in Slots(all[..i])
  }

  lemma PrefixGrows(all: seq<Entry>, i: nat, run: seq<Scheduled>, n: nat)
    requires FromPrefix(all, i, run) && i < |all|
    ensures FromPrefix(all, i + 1, run) && FromPrefix(all, i + 1, run + [Scheduled(all[i].slot, n)])
  {
    assert Slots(all[..i + 1]) == Slots(all[..i]) + [all[i].slot];
  }

  /** The running loop's books: who is left, who was scheduled, and where the budget went. */
  ghost predicate Books(all: seq<Entry>, running: seq<Entry>, i: nat, budget: nat, d: Decisions, total: nat) {
    && Tail(all, running, d.preempted) && i <= |running| && FromPrefix(all, i, d.running)
    && SumRunning(d.running) + budget == total
  }

  lemma BooksRecord(all: seq<Entry>, running: seq<Entry>, i: nat, budget: nat, d: Decisions, total: nat, n: nat,
                    kept: seq<Entry>, preempted: seq<Slot>, blocks: seq<seq<Id>>)
    requires Books(all, running, i, budget, d, total) && Tail(all, kept, preempted) && i < |kept| && n <= budget
    requires i < |running|
    ensures Books(all, kept, i + 1, budget - n, Record(d.(preempted := preempted), all[i].slot, n, blocks), total)
  {
    var d2 := Record(d.(preempted := preempted), all[i].slot, n, blocks);
    assert d2.running[..|d2.running| - 1] == d.running;
    PrefixGrows(all, i, d.running, n);
  }

  lemma BooksDone(all: seq<Entry>, running: seq<Entry>, i: nat, budget: nat, d: Decisions, total: nat,
                  kept: seq<Entry>, preempted: seq<Slot>)
    requires Books(all, running, i, budget, d, total) && Tail(all, kept, preempted) && i <= |kept|
    ensures Books(all, kept, |kept|, budget, d.(preempted := preempted), total)
  {
    WholePrefix(all, i, |kept|, d.running);
  }

  lemma {:induction false} RunningOk(all: seq<Entry>, s: State, running: seq<Entry>, i: nat, budget: nat, d: Decisions,
                                     prm: Params, total: nat)
    requires Books(all, running, i, budget, d, total)
    ensures var l := RunRunning(s, running, i, budget, d, prm);
      Books(all, l.running, |l.running|, l.budget, l.d, total) && l.d.admitted == d.admitted
    decreases |running| - i
  {
    hide TryAllocate, RunningTokens;
    if i >= |running| || budget == 0 {
      BooksDone(all, running, i, budget, d, total, running, d.preempted);
    } else {
      assert running[i] == all[i];
      var n := RunningTokens(running[i], budget, prm);
      RunningWithin(running[i], budget, prm);
      PrefixGrows(all, i, d.running, n);
      if n == 0 {
        RunningOk(all, s, running, i + 1, budget, d, prm, total);
      } else {
        TryTail(all, s, running, d.preempted, i, n, prm);
        var t := TryAllocate(s, running, d.preempted, running[i], n, prm);
        BooksDone(all, running, i, budget, d, total, t.running, t.preempted);
        if t.outcome.Granted? {
          BooksRecord(all, running, i, budget, d, total, n, t.running, t.preempted, t.outcome.blocks);
          RunningOk(all, t.state, t.running, i + 1, budget - n,
                    Record(d.(preempted := t.preempted), running[i].slot, n, t.outcome.blocks), prm, total);
        }
      }
    }
  }

  /** The running queue admits nobody. */
  lemma NoneAdmitted(s: State, running: seq<Entry>, prm: Params)
    ensures RunRunning(s, running, 0, prm.maxTokens, NONE, prm).d.admitted == []
  {
    assert Tail(running, running, []) by { assert Slots(running) + Reverse([]) == Slots(running); }
    RunningOk(running, s, running, 0, prm.maxTokens, NONE, prm, prm.maxTokens);
  }

  lemma WholePrefix(all: seq<Entry>, i: nat, j: nat, run: seq<Scheduled>)
    requires FromPrefix(all, i, run) && i <= j <= |all|
    ensures FromPrefix(all, j, run)
  {
    assert Slots(all[..j]) == Slots(all[..i]) + Slots(all[i..j]);
  }

  /** The waiting loop's books: the admitted are the front of the queue. */
  ghost predicate Front(waiting: seq<Entry>, k: nat, budget: nat, d: Decisions, total: nat) {
    k <= |waiting| && AdmittedSlots(d.admitted) == Slots(waiting[..k]) && SumAdmitted(d.admitted) + budget == total
  }

  lemma FrontGrows(waiting: seq<Entry>, k: nat, budget: nat, d: Decisions, total: nat, n: nat, computed: nat)
    requires Front(waiting, k, budget, d, total) && k < |waiting| && n <= budget
    ensures Front(waiting, k + 1, budget - n, d.(admitted := d.admitted + [Admitted(waiting[k].slot, n, computed)]),
                  total)
  {
    var d1 := d.(admitted := d.admitted + [Admitted(waiting[k].slot, n, computed)]);
    assert d1.admitted[..|d1.admitted| - 1] == d.admitted;
    assert Slots(waiting[..k + 1]) == Slots(waiting[..k]) + [waiting[k].slot];
  }

  lemma WaitingWithin(a: Ask, e: Entry, budget: nat, prm: Params)
    ensures WaitingTokens(a, e, budget, prm) <= budget
  {
    SplitShortens(e, Min(a.tokens, budget), a.hit, if e.computed == 0 then a.state.uncached else 0, prm.cacheBlock);
  }

  lemma {:induction false} WaitingOk(s: State, running: seq<Entry>, waiting: seq<Entry>, k: nat, budget: nat,
                                     d: Decisions, prm: Params, total: nat)
    requires Front(waiting, k, budget, d, total)
    ensures var w := RunWaiting(s, running, waiting, k, budget, d, prm);
      && Front(waiting, w.taken, w.budget, w.d, total) && w.d == d.(admitted := w.d.admitted)
      && |w.running| == |running| + w.taken - k && |w.running| <= Max(|running|, prm.maxRunning)
    decreases |waiting| - k
  {
    hide AllocateSlots, AskOf, WaitingTokens, WaitingCall;
    if k == |waiting| || budget == 0 || |running| >= prm.maxRunning {
    } else {
      var e := waiting[k];
      var a := AskOf(s, e, prm);
      var n := WaitingTokens(a, e, budget, prm);
      WaitingWithin(a, e, budget, prm);
      if (!prm.chunked && a.tokens > budget) || a.tokens == 0 || n == 0 {
      } else {
        var (s2, out) := AllocateSlots(a.state, WaitingCall(e, n, a.hit, prm, running != []));
        if out.Granted? {
          FrontGrows(waiting, k, budget, d, total, n, a.computed);
          WaitingOk(s2, running + [e], waiting, k + 1, budget - n,
                    d.(admitted := d.admitted + [Admitted(e.slot, n, a.computed)]), prm, total);
        }
      }
    }
  }

  // ---- reordering is a permutation --------------------------------------------------

  predicate SortedKeys(ks: seq<RKey>) {
    forall i, j :: 0 <= i < j < |ks| ==> Before(ks[i], ks[j])
  }

  lemma BeforeVia(a: RKey, b: RKey, c: RKey)
    requires Before(a, b) && Before(b, c)
    ensures Before(a, c)
  {}

  lemma BeforeEither(a: RKey, b: RKey)
    ensures Before(a, b) || Before(b, a)
  {}

  lemma {:induction false} InsertKeyOk(k: RKey, ks: seq<RKey>)
    requires SortedKeys(ks)
    ensures SortedKeys(InsertKey(k, ks)) && multiset(InsertKey(k, ks)) == multiset(ks) + multiset{k}
  {
    hide Before;
    if ks == [] || Before(k, ks[0]) {
      assert multiset([k] + ks) == multiset{k} + multiset(ks);
      forall j | 0 <= j < |ks| ensures Before(k, ks[j]) {
        if j > 0 { BeforeVia(k, ks[0], ks[j]); }
      }
    } else {
      InsertKeyOk(k, ks[1..]);
      var r := InsertKey(k, ks[1..]);
      assert ks == [ks[0]] + ks[1..];
      BeforeEither(k, ks[0]);
      forall j | 0 <= j < |r| ensures Before(ks[0], r[j]) {
        assert r[j] in multiset(r);
        assert r[j] == k || r[j] in ks[1..];
      }
    }
  }

  lemma {:induction false} SortKeysOk(ks: seq<RKey>)
    ensures SortedKeys(SortKeys(ks)) && multiset(SortKeys(ks)) == multiset(ks)
  {
    if ks == [] {
    } else {
      SortKeysOk(ks[1..]);
      InsertKeyOk(ks[0], SortKeys(ks[1..]));
      assert ks == [ks[0]] + ks[1..];
    }
  }

  lemma {:induction false} KeysFromOk(s: State, waiting: seq<Entry>, i: nat, keys: seq<RKey>, prm: Params)
    requires i <= |waiting| && |keys| == i && forall j :: 0 <= j < i ==> keys[j].index == j
    ensures var ks := KeysFrom(s, waiting, i, keys, prm).1;
      |ks| == |waiting| && forall j :: 0 <= j < |ks| ==> ks[j].index == j
    decreases |waiting| - i
  {
    if i < |waiting| {
      var (s1, k) := KeyOf(s, waiting[i], i, prm);
      KeysFromOk(s1, waiting, i + 1, keys + [k], prm);
    }
  }

  /** The entries that a bag of keys stands for. */
  lemma {:induction false} PickInsert(waiting: seq<Entry>, k: RKey, ks: seq<RKey>)
    requires k.index < |waiting|
    ensures multiset(Pick(waiting, InsertKey(k, ks))) == multiset(Pick(waiting, ks)) + multiset{waiting[k.index]}
  {
    if ks == [] || Before(k, ks[0]) {
      assert ([k] + ks)[1..] == ks;
    } else {
      PickInsert(waiting, k, ks[1..]);
      assert ([ks[0]] + InsertKey(k, ks[1..]))[1..] == InsertKey(k, ks[1..]);
    }
  }

  lemma {:induction false} PickSorted(waiting: seq<Entry>, ks: seq<RKey>)
    requires forall j :: 0 <= j < |ks| ==> ks[j].index < |waiting|
    ensures multiset(Pick(waiting, SortKeys(ks))) == multiset(Pick(waiting, ks))
  {
    if ks == [] {
    } else {
      PickSorted(waiting, ks[1..]);
      PickInsert(waiting, ks[0], SortKeys(ks[1..]));
    }
  }

  lemma {:induction false} PickInOrder(waiting: seq<Entry>, ks: seq<RKey>, k: nat)
    requires k <= |waiting| && |ks| == |waiting| - k && forall j :: 0 <= j < |ks| ==> ks[j].index == k + j
    ensures Pick(waiting, ks) == waiting[k..]
    decreases |ks|
  {
    if ks != [] {
      PickInOrder(waiting, ks[1..], k + 1);
      assert waiting[k..] == [waiting[k]] + waiting[k + 1..];
    }
  }

  /** Reordering loses and invents nobody. */
  lemma ArrangePermutes(s: State, waiting: seq<Entry>, prm: Params)
    ensures multiset(Arrange(s, waiting, prm).1) == multiset(waiting)
  {
    hide KeyOf, Peek, StartStep, SortKeys, Pick;
    if prm.sjf && |waiting| >= 2 {
      var keys := KeysFrom(StartStep(s), waiting, 0, [], prm).1;
      KeysFromOk(StartStep(s), waiting, 0, [], prm);
      PickSorted(waiting, keys);
      PickInOrder(waiting, keys, 0);
      assert waiting[0..] == waiting;
    }
  }

  // ---- reordering is the stable order by remaining prefill -----------------------------

  /** Prompt tokens still to compute, cached prefix taken off. */
  function Remaining(s: State, e: Entry): nat {
    Monus(e.prompt, if e.computed > 0 then e.computed else HitLength(s, e.slot, Monus(e.tokens, 1)))
  }

  /** Memory is tight and the request would need more blocks than are free. */
  predicate Demoted(s: State, e: Entry, prm: Params) {
    prm.tight && CDiv(Remaining(s, e), prm.cacheBlock) > |s.pool.free|
  }

  /** The `i`-th waiting request goes before the `j`-th: what fits first, then the shorter
      remaining prefill, then who waited longer. */
  predicate Sooner(s: State, waiting: seq<Entry>, i: nat, j: nat, prm: Params)
    requires i < |waiting| && j < |waiting|
  {
    var a, b := waiting[i], waiting[j];
    if Demoted(s, a, prm) != Demoted(s, b, prm) then !Demoted(s, a, prm)
    else Remaining(s, a) < Remaining(s, b) || (Remaining(s, a) == Remaining(s, b) && i < j)
  }

  /** `order` lists each waiting request once, sooner ones first, and the queue follows it. */
  ghost predicate Orders(s: State, waiting: seq<Entry>, queue: seq<Entry>, order: seq<nat>, prm: Params) {
    && |order| == |queue| == |waiting| && Distinct(order)
    && (forall i :: 0 <= i < |order| ==> order[i] < |waiting| && queue[i] == waiting[order[i]])
    && (forall i, j :: 0 <= i < j < |order| ==> Sooner(s, waiting, order[i], order[j], prm))
  }

  ghost predicate StablySorted(s: State, waiting: seq<Entry>, queue: seq<Entry>, prm: Params) {
    exists order :: Orders(s, waiting, queue, order, prm)
  }

  /** The key of the `i`-th waiting request; looking hits up for other keys does not change it. */
  function KeyFor(s: State, e: Entry, i: nat, prm: Params): RKey {
    RKey(if Demoted(s, e, prm) then 1 else 0, Remaining(s, e), i)
  }

  lemma KeyIs(s: State, r: State, e: Entry, i: nat, prm: Params)
    requires r == s.(uncached := r.uncached)
    ensures KeyOf(r, e, i, prm).1 == KeyFor(s, e, i, prm)
    ensures KeyOf(r, e, i, prm).0 == s.(uncached := KeyOf(r, e, i, prm).0.uncached)
  {
    hide Uncached, CDiv;
    assert HitLength(r, e.slot, Monus(e.tokens, 1)) == HitLength(s, e.slot, Monus(e.tokens, 1));
  }

  lemma {:induction false} KeysAre(s: State, r: State, waiting: seq<Entry>, i: nat, keys: seq<RKey>, prm: Params)
    requires i <= |waiting| && |keys| == i && r == s.(uncached := r.uncached)
    requires forall j :: 0 <= j < i ==> keys[j] == KeyFor(s, waiting[j], j, prm)
    ensures var ks := KeysFrom(r, waiting, i, keys, prm).1;
      |ks| == |waiting| && forall j :: 0 <= j < |ks| ==> ks[j] == KeyFor(s, waiting[j], j, prm)
    decreases |waiting| - i
  {
    hide KeyOf, KeyFor;
    if i < |waiting| {
      KeyIs(s, r, waiting[i], i, prm);
      var (s1, k) := KeyOf(r, waiting[i], i, prm);
      KeysAre(s, s1, waiting, i + 1, keys + [k], prm);
    }
  }

  lemma {:induction false} PickAt(waiting: seq<Entry>, ks: seq<RKey>, i: nat)
    requires i < |ks| && forall j :: 0 <= j < |ks| ==> ks[j].index < |waiting|
    ensures |Pick(waiting, ks)| == |ks| && Pick(waiting, ks)[i] == waiting[ks[i].index]
  {
    if |ks| > 1 { PickAt(waiting, ks[1..], if i > 0 then i - 1 else 0); }
  }

  /** Sorted keys are the keys of distinct requests. */
  lemma KeysPermuted(s: State, waiting: seq<Entry>, keys: seq<RKey>, ks: seq<RKey>, prm: Params)
    requires |keys| == |waiting| && forall j :: 0 <= j < |keys| ==> keys[j] == KeyFor(s, waiting[j], j, prm)
    requires multiset(ks) == multiset(keys)
    ensures |ks| == |waiting|
    ensures forall i :: 0 <= i < |ks| ==>
            ks[i].index < |waiting| && ks[i] == KeyFor(s, waiting[ks[i].index], ks[i].index, prm)
    ensures forall i, j :: 0 <= i < j < |ks| ==> ks[i].index != ks[j].index
  {
    hide Demoted, Remaining;
    assert |ks| == |multiset(ks)| == |multiset(keys)| == |keys|;
    forall i | 0 <= i < |ks|
      ensures ks[i].index < |waiting| && ks[i] == KeyFor(s, waiting[ks[i].index], ks[i].index, prm)
    {
      assert ks[i] in multiset(keys);
      assert ks[i] in keys;
    }
    forall i, j | 0 <= i < j < |keys| ensures keys[i] != keys[j] { assert keys[i].index == i && keys[j].index == j; }
    DistinctMultiset(keys);
    DistinctMultiset(ks);
  }

  lemma BeforeSooner(s: State, waiting: seq<Entry>, i: nat, j: nat, prm: Params)
    requires i < |waiting| && j < |waiting| && i != j
    requires Before(KeyFor(s, waiting[i], i, prm), KeyFor(s, waiting[j], j, prm))
    ensures Sooner(s, waiting, i, j, prm)
  {
    hide Demoted, Remaining;
  }

  /** The reordered queue is the waiting queue in the stable order by remaining prefill. */
  lemma ReorderSorts(s: State, waiting: seq<Entry>, prm: Params)
    ensures StablySorted(s, waiting, Reorder(s, waiting, prm).1, prm)
  {
    hide KeysFrom, SortKeys, Pick, Sooner, KeyFor, Before;
    if |waiting| < 2 {
      var order: seq<nat> := if waiting == [] then [] else [0];
      assert Orders(s, waiting, waiting, order, prm);
    } else {
      var keys := KeysFrom(s, waiting, 0, [], prm).1;
      var ks := SortKeys(keys);
      KeysAre(s, s, waiting, 0, [], prm);
      SortKeysOk(keys);
      KeysPermuted(s, waiting, keys, ks, prm);
      var queue := Pick(waiting, ks);
      var order: seq<nat> := seq(|ks|, i requires 0 <= i < |ks| => ks[i].index);
      PickAt(waiting, ks, 0);
      forall i | 0 <= i < |ks| ensures queue[i] == waiting[order[i]] { PickAt(waiting, ks, i); }
      forall i, j | 0 <= i < j < |ks| ensures Sooner(s, waiting, order[i], order[j], prm)
      {
        BeforeSooner(s, waiting, order[i], order[j], prm);
      }
      assert Orders(s, waiting, queue, order, prm);
    }
  }

  // ---- the step ---------------------------------------------------------------------

  /** Distinct slots in a queue. */
  predicate DistinctSlots(es: seq<Entry>) { Distinct(Slots(es)) }

  lemma TailDisjoint(all: seq<Entry>, kept: seq<Entry>, preempted: seq<Slot>, run: seq<Scheduled>)
    requires DistinctSlots(all) && Tail(all, kept, preempted) && FromPrefix(all, |kept|, run)
    ensures forall k, v :: 0 <= k < |run| && v in preempted ==> run[k].slot != v
  {
    forall k, v | 0 <= k < |run| && v in preempted ensures run[k].slot != v {
      assert kept == all[..|kept|];
      assert run[k].slot in Slots(kept);
      var a :| 0 <= a < |kept| && Slots(kept)[a] == run[k].slot;
      var b :| 0 <= b < |preempted| && preempted[b] == v;
      assert Slots(all)[a] == run[k].slot;
      assert Slots(all)[|kept| + (|preempted| - 1 - b)] == Reverse(preempted)[|preempted| - 1 - b] == v;
    }
  }

  /**
   * One step, for any queues with distinct running slots: scheduled tokens and the leftover
   * make up the budget; the preempted are the running queue's tail, last first, and none of
   * them is scheduled; a preempting step admits nobody; the admitted followed by those left
   * waiting are the reordered waiting queue; and the running cap holds.
   */
  lemma StepAccounts(s: State, running: seq<Entry>, waiting: seq<Entry>, prm: Params)
    requires Run(s, running, waiting, prm).Ok? && DistinctSlots(running)
    ensures var d := Run(s, running, waiting, prm).decisions;
      && SumRunning(d.running) + SumAdmitted(d.admitted) + d.budgetLeft == prm.maxTokens
      && (exists kept :: Tail(running, kept, d.preempted) && |kept| + |d.admitted| <= Max(|running|, prm.maxRunning))
      && (forall k, v :: 0 <= k < |d.running| && v in d.preempted ==> d.running[k].slot != v)
      && (d.preempted != [] ==> d.admitted == [])
      && AdmittedSlots(d.admitted) + d.waitingOrder == Slots(Arrange(s, waiting, prm).1)
      && multiset(Arrange(s, waiting, prm).1) == multiset(waiting)
  {
    var (s0, queue) := Arrange(s, waiting, prm);
    ArrangePermutes(s, waiting, prm);
    StepBooks(s0, running, queue, prm);
    var l := RunRunning(s0, running, 0, prm.maxTokens, NONE, prm);
    var w := Waiting(l, queue, prm);
    assert Tail(running, l.running, w.d.preempted);
  }

  lemma StepBooks(s: State, running: seq<Entry>, queue: seq<Entry>, prm: Params)
    requires DistinctSlots(running)
    ensures var l := RunRunning(s, running, 0, prm.maxTokens, NONE, prm);
      var w := Waiting(l, queue, prm);
      && w.d == l.d.(admitted := w.d.admitted)
      && Tail(running, l.running, l.d.preempted)
      && SumRunning(l.d.running) + SumAdmitted(w.d.admitted) + w.budget == prm.maxTokens
      && |l.running| + |w.d.admitted| <= Max(|running|, prm.maxRunning)
      && (forall k, v :: 0 <= k < |l.d.running| && v in l.d.preempted ==> l.d.running[k].slot != v)
      && (l.d.preempted != [] ==> w.d.admitted == [])
      && AdmittedSlots(w.d.admitted) + Slots(queue[w.taken..]) == Slots(queue)
  {
    assert Tail(running, running, []) by { assert Slots(running) + Reverse([]) == Slots(running); }
    RunningOk(running, s, running, 0, prm.maxTokens, NONE, prm, prm.maxTokens);
    var l := RunRunning(s, running, 0, prm.maxTokens, NONE, prm);
    TailDisjoint(running, l.running, l.d.preempted, l.d.running);
    assert Front(queue, 0, l.budget, l.d, l.budget);
    if l.d.preempted == [] {
      WaitingOk(l.state, l.running, queue, 0, l.budget, l.d, prm, l.budget);
    }
    var w := Waiting(l, queue, prm);
    FrontSplit(queue, w.taken, w.budget, w.d, l.budget);
  }

  lemma FrontSplit(waiting: seq<Entry>, k: nat, budget: nat, d: Decisions, total: nat)
    requires Front(waiting, k, budget, d, total)
    ensures |d.admitted| == k && AdmittedSlots(d.admitted) + Slots(waiting[k..]) == Slots(waiting)
  {
    assert |AdmittedSlots(d.admitted)| == k;
    assert Slots(waiting) == Slots(waiting[..k]) + Slots(waiting[k..]);
  }
}
