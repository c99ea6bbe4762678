/**
 * One scheduling step as a value: the decision loop of `sched.rs` over the manager's state.
 * `ScheduleCore` (ScheduleCore.dfy) is the imperative loop proved against it.
 */
module SchedSpec {
  import opened Basics
  import opened PoolSpec
  import opened TypeSpec
  import opened ManagerSpec

  datatype Params = Params(
    maxTokens: nat,
    maxRunning: nat,
    maxModelLen: nat,
    sampled: nat,
    longPrefill: nat,
    chunked: bool,
    aligned: bool,
    cacheBlock: Pos,
    lookahead: nat,
    sjf: bool,
    tight: bool)

  datatype Scheduled = Scheduled(slot: Slot, tokens: nat)

  datatype Admitted = Admitted(slot: Slot, tokens: nat, computed: nat)

  datatype Decisions = Decisions(
    running: seq<Scheduled>,
    newBlocks: seq<Id>,
    newLens: seq<nat>,
    admitted: seq<Admitted>,
    preempted: seq<Slot>,
    waitingOrder: seq<Slot>,
    commonPrefix: seq<nat>,
    budgetLeft: nat)

  const NONE: Decisions := Decisions([], [], [], [], [], [], [], 0)

  // ---- chunk lengths ----------------------------------------------------------------

  /** `_mamba_block_aligned_split`. */
  function Split(e: Entry, n: nat, local: nat, uncached: nat, bs: Pos): nat {
    var computed := e.computed + local;
    if computed >= Max(e.prompt, Monus(e.tokens, 1)) then n
    else
      var last := e.tokens - e.tokens % bs;
      var m := if computed + n < last then n / bs * bs
               else if computed < last && last < computed + n then last - computed
               else n;
      if uncached >= bs && m > uncached then uncached / bs * bs else m
  }

  /** The previous step already reached `max_tokens`. */
  predicate AtMax(e: Entry) {
    e.placeholders > 0 && Sub64(e.computed + 2, e.placeholders) >= e.prompt + e.maxTokens
  }

  function LongCap(n: nat, prm: Params): nat {
    if 0 < prm.longPrefill < n then prm.longPrefill else n
  }

  /** Tokens a running request asks for; zero skips it. */
  function RunningTokens(e: Entry, budget: nat, prm: Params): nat {
    if AtMax(e) then 0
    else
      var n := Min(LongCap(Sub64(e.tokensWithSpec + e.placeholders, e.computed), prm), budget);
      var m := Min(n, Monus(prm.maxModelLen, e.computed + prm.sampled));
      if prm.aligned then Split(e, m, 0, 0, prm.cacheBlock) else m
  }

  // ---- running requests -------------------------------------------------------------

  function RunningCall(e: Entry, n: nat, prm: Params): Call {
    Call(e.slot, n, 0, false, prm.lookahead, e.computed, e.tokens, e.status, true)
  }

  datatype Try = Try(state: State, running: seq<Entry>, preempted: seq<Slot>, outcome: Outcome)

  /** Allocate, freeing requests off the tail of the queue until it fits or nobody is left to free. */
  function TryAllocate(s: State, running: seq<Entry>, preempted: seq<Slot>, e: Entry, n: nat, prm: Params): (t: Try)
    ensures t.running <= running
    decreases |running|
  {
    var (s1, out) := AllocateSlots(s, RunningCall(e, n, prm));
    if !out.Refused? || running == [] then Try(s1, running, preempted, out)
    else
      var victim := running[|running| - 1];
      var s2 := FreeSlot(s1, victim.slot);
      if victim.slot == e.slot then Try(s2, running[..|running| - 1], preempted + [victim.slot], Refused)
      else TryAllocate(s2, running[..|running| - 1], preempted + [victim.slot], e, n, prm)
  }

  function Flatten(bs: seq<seq<Id>>): seq<Id> {
    if bs == [] then [] else bs[0] + Flatten(bs[1..])
  }

  function Lens(bs: seq<seq<Id>>): seq<nat> {
    seq(|bs|, i requires 0 <= i < |bs| => |bs[i]|)
  }

  datatype Loop = Loop(state: State, running: seq<Entry>, budget: nat, d: Decisions, ok: bool)

  function Record(d: Decisions, slot: Slot, n: nat, blocks: seq<seq<Id>>): Decisions {
    d.(running := d.running + [Scheduled(slot, n)], newLens := d.newLens + Lens(blocks),
       newBlocks := d.newBlocks + Flatten(blocks))
  }

  function RunRunning(s: State, running: seq<Entry>, i: nat, budget: nat, d: Decisions, prm: Params): Loop
    decreases |running| - i
  {
    if i >= |running| || budget == 0 then Loop(s, running, budget, d, true)
    else
      var e := running[i];
      var n := RunningTokens(e, budget, prm);
      if n == 0 then RunRunning(s, running, i + 1, budget, d, prm)
      else
        var t := TryAllocate(s, running, d.preempted, e, n, prm);
        var d1 := d.(preempted := t.preempted);
        if t.outcome.Failed? then Loop(t.state, t.running, budget, d1, false)
        else if t.outcome.Refused? then Loop(t.state, t.running, budget, d1, true)
        else RunRunning(t.state, t.running, i + 1, Monus(budget, n), Record(d1, e.slot, n, t.outcome.blocks), prm)
  }

  // ---- waiting requests -------------------------------------------------------------

  datatype Wait = Wait(state: State, running: seq<Entry>, budget: nat, d: Decisions, taken: nat, ok: bool)

  /** What one waiting request asks for: its hit, and the tokens before the aligned split. */
  datatype Ask = Ask(state: State, hit: nat, computed: nat, tokens: nat)

  function AskOf(s: State, e: Entry, prm: Params): Ask {
    var (s1, hit) := if e.computed == 0 then GetComputed(s, e.slot, e.tokens, e.skipCache) else (s, 0);
    var computed := if e.computed == 0 then hit else e.computed;
    Ask(s1, hit, computed, LongCap(Sub64(e.tokens, computed), prm))
  }

  function WaitingTokens(a: Ask, e: Entry, budget: nat, prm: Params): nat {
    var n := Min(a.tokens, budget);
    if prm.aligned then Split(e, n, a.hit, if e.computed == 0 then a.state.uncached else 0, prm.cacheBlock) else n
  }

  function WaitingCall(e: Entry, n: nat, hit: nat, prm: Params, others: bool): Call {
    Call(e.slot, n, hit, e.computed == 0, prm.lookahead, e.computed, e.tokens, e.status, others)
  }

  function RunWaiting(s: State, running: seq<Entry>, waiting: seq<Entry>, k: nat, budget: nat, d: Decisions,
                      prm: Params): (w: Wait)
    requires k <= |waiting|
    ensures k <= w.taken <= |waiting|
    decreases |waiting| - k
  {
    if k == |waiting| || budget == 0 || |running| >= prm.maxRunning then Wait(s, running, budget, d, k, true)
    else
      var e := waiting[k];
      var a := AskOf(s, e, prm);
      if !prm.chunked && a.tokens > budget then Wait(a.state, running, budget, d, k, true)
      else if a.tokens == 0 then Wait(a.state, running, budget, d, k, false)
      else
        var n := WaitingTokens(a, e, budget, prm);
        if n == 0 then Wait(a.state, running, budget, d, k, true)
        else
          var (s2, out) := AllocateSlots(a.state, WaitingCall(e, n, a.hit, prm, running != []));
          if out.Failed? then Wait(s2, running, budget, d, k, false)
          else if out.Refused? then Wait(s2, running, budget, d, k, true)
          else RunWaiting(s2, running + [e], waiting, k + 1, Monus(budget, n),
                          d.(admitted := d.admitted + [Admitted(e.slot, n, a.computed)]), prm)
  }

  // ---- reordering the waiting queue -------------------------------------------------

  datatype RKey = RKey(fits: nat, remaining: nat, index: nat)

  predicate Before(a: RKey, b: RKey) {
    || a.fits < b.fits
    || (a.fits == b.fits && (a.remaining < b.remaining || (a.remaining == b.remaining && a.index <= b.index)))
  }

  function InsertKey(k: RKey, ks: seq<RKey>): seq<RKey> {
    if ks == [] || Before(k, ks[0]) then [k] + ks else [ks[0]] + InsertKey(k, ks[1..])
  }

  /** The library sort: keys are distinct, so the order is unique. */
  function SortKeys(ks: seq<RKey>): seq<RKey> {
    if ks == [] then [] else InsertKey(ks[0], SortKeys(ks[1..]))
  }

  function KeyOf(s: State, e: Entry, i: nat, prm: Params): (State, RKey) {
    var (s1, left) := if e.computed > 0 then (s, Monus(e.prompt, e.computed))
                      else var (q, hit) := Peek(s, e.slot, e.tokens); (q, Monus(e.prompt, hit));
    (s1, RKey(if !prm.tight || CDiv(left, prm.cacheBlock) <= |s.pool.free| then 0 else 1, left, i))
  }

  function KeysFrom(s: State, waiting: seq<Entry>, i: nat, keys: seq<RKey>, prm: Params): (State, seq<RKey>)
    requires i <= |waiting|
    decreases |waiting| - i
  {
    if i == |waiting| then (s, keys)
    else
      var (s1, k) := KeyOf(s, waiting[i], i, prm);
      KeysFrom(s1, waiting, i + 1, keys + [k], prm)
  }

  function Pick(waiting: seq<Entry>, keys: seq<RKey>): seq<Entry> {
    if keys == [] then []
    else (if keys[0].index < |waiting| then [waiting[keys[0].index]] else []) + Pick(waiting, keys[1..])
  }

  /** `_reorder_waiting`: shortest remaining prefill first, what cannot fit last. */
  function Reorder(s: State, waiting: seq<Entry>, prm: Params): (State, seq<Entry>) {
    if |waiting| < 2 then (s, waiting)
    else
      var (s1, keys) := KeysFrom(s, waiting, 0, [], prm);
      (s1, Pick(waiting, SortKeys(keys)))
  }

  // ---- the post-schedule commit -----------------------------------------------------

  /** `_update_after_schedule`, both scheduler layers: the chunk flag is taken before the bump. */
  function Advance(e: Entry, n: nat, sampled: nat): Entry {
    var computed := e.computed + n;
    var chunk := computed < e.tokens + e.placeholders;
    e.(computed := computed, prefillChunk := chunk,
       placeholders := if chunk then e.placeholders else e.placeholders + sampled)
  }

  function Preempted(e: Entry): Entry {
    e.(status := PREEMPTED, computed := 0, preemptions := e.preemptions + 1)
  }

  function MarkPreempted(s: State, slots: seq<Slot>): State
    decreases |slots|
  {
    if slots == [] then s
    else
      var e := TableGet(s, slots[0]);
      MarkPreempted(if e.Some? then TableSet(s, slots[0], Preempted(e.value)) else s, slots[1..])
  }

  function MarkScheduled(s: State, run: seq<Scheduled>, sampled: nat): State
    decreases |run|
  {
    if run == [] then s
    else
      var e := TableGet(s, run[0].slot);
      MarkScheduled(if e.Some? then TableSet(s, run[0].slot, Advance(e.value, run[0].tokens, sampled)) else s,
                    run[1..], sampled)
  }

  /** The latest queue entry of a slot. */
  function LastOf(running: seq<Entry>, slot: Slot): Option<Entry> {
    if running == [] then None
    else if running[|running| - 1].slot == slot then Some(running[|running| - 1])
    else LastOf(running[..|running| - 1], slot)
  }

  function Enter(e: Entry, a: Admitted, sampled: nat): Entry {
    Advance(e.(status := RUNNING, computed := a.computed), a.tokens, sampled)
  }

  function MarkAdmitted(s: State, adm: seq<Admitted>, running: seq<Entry>, sampled: nat): State
    decreases |adm|
  {
    if adm == [] then s
    else
      var e := LastOf(running, adm[0].slot);
      MarkAdmitted(if e.Some? then TableSet(s, adm[0].slot, Enter(e.value, adm[0], sampled)) else s, adm[1..],
                   running, sampled)
  }

  function Commit(s: State, d: Decisions, running: seq<Entry>, prm: Params): State {
    MarkAdmitted(MarkScheduled(MarkPreempted(s, d.preempted), d.running, prm.sampled), d.admitted, running, prm.sampled)
  }

  // ---- the whole step ---------------------------------------------------------------

  function Slots(es: seq<Entry>): seq<Slot> {
    seq(|es|, i requires 0 <= i < |es| => es[i].slot)
  }

  datatype Result = Ok(state: State, decisions: Decisions) | Err(state: State)

  function Arrange(s: State, waiting: seq<Entry>, prm: Params): (State, seq<Entry>) {
    if prm.sjf then Reorder(StartStep(s), waiting, prm) else (StartStep(s), waiting)
  }

  /** The waiting half runs only if nobody was preempted. */
  function Waiting(l: Loop, waiting: seq<Entry>, prm: Params): (w: Wait)
    ensures w.taken <= |waiting|
  {
    if l.d.preempted == [] then RunWaiting(l.state, l.running, waiting, 0, l.budget, l.d, prm)
    else Wait(l.state, l.running, l.budget, l.d, 0, true)
  }

  function Epilogue(w: Wait, waiting: seq<Entry>, prm: Params): Result
    requires w.taken <= |waiting|
  {
    var (s, common) := if w.running != [] then CommonPrefixAll(w.state, w.running[0].slot)
                       else (w.state, Repeat<nat>(0, |w.state.tms|));
    var d := w.d.(commonPrefix := common, budgetLeft := w.budget, waitingOrder := Slots(waiting[w.taken..]));
    Ok(Commit(s, d, w.running, prm), d)
  }

  /** `ScheduleCore::run`. */
  function Run(s: State, running: seq<Entry>, waiting: seq<Entry>, prm: Params): Result {
    var (s0, queue) := Arrange(s, waiting, prm);
    var l := RunRunning(s0, running, 0, prm.maxTokens, NONE, prm);
    if !l.ok then Err(l.state)
    else
      var w := Waiting(l, queue, prm);
      if !w.ok then Err(w.state) else Epilogue(w, queue, prm)
  }

  /** The running queue as the resident table has it; none if a slot has no entry. */
  function Load(s: State, slots: seq<Slot>): Option<seq<Entry>> {
    if slots == [] then Some([])
    else
      var e := TableGet(s, slots[0]);
      var rest := Load(s, slots[1..]);
      if e.Some? && rest.Some? then Some([e.value] + rest.value) else None
  }

  /** `schedule_resident`. */
  function ScheduleResident(s: State, slots: seq<Slot>, waiting: seq<Entry>, prm: Params): Result {
    var running := Load(s, slots);
    if running.None? then Err(s) else Run(s, running.value, waiting, prm)
  }

  function Resync(s: State, running: seq<Entry>): State
    decreases |running|
  {
    if running == [] then s else Resync(TableSet(s, running[0].slot, running[0]), running[1..])
  }

  /** `schedule`: the marshalled entry point, which also resynchronises the table. */
  function Schedule(s: State, running: seq<Entry>, waiting: seq<Entry>, prm: Params): Result {
    Run(Resync(s, running), running, waiting, prm)
  }
}
