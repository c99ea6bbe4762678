/**
 * The entry points that change the manager, as one type, and the invariant every run of them
 * keeps: counts equal table occurrences, the queue is exactly the unheld blocks, and the index
 * agrees with the block fields.
 */
module Mutations {
  import opened Basics
  import opened PoolSpec
  import opened PoolInv
  import opened TypeSpec
  import opened HitSpec
  import opened ManagerSpec
  import opened ManagerInv
  import opened Admission
  import opened Served
  import opened CacheReset
  import opened SchedSpec
  import opened RunInv
  import opened TableSpec

  datatype Mutation =
    | Allocating(call: Call)
    | Freeing(slot: Slot)
    | Putting(slot: Slot, entry: Entry)
    | Hashing(slot: Slot, digests: seq<Digest>)
    | Reporting(reports: seq<Report>)
    | Bursting(slots: seq<Slot>, delta: int)
    | Looking(slot: Slot, tokens: nat, skip: bool)
    | Starting
    | Counting(slot: Slot)
    | Filing(slot: Slot, tokens: nat)
    | Skipping(slot: Slot, total: nat)
    | Peeking(slot: Slot, tokens: nat)
    | Evicting(ids: seq<Id>)
    | Resetting
    | Clearing(slot: Slot)
    | Forgetting(slot: Slot)
    | Scheduling(slots: seq<Slot>, queue: seq<Entry>, params: Params)
    | Marshalling(marshalled: seq<Entry>, queue: seq<Entry>, params: Params)

  function Apply(m: Mutation, s: State): State {
    match m
    case Allocating(c) => AllocateSlots(s, c).0
    case Freeing(slot) => FreeSlot(s, slot)
    case Putting(slot, e) => TableSet(s, slot, e)
    case Hashing(slot, ds) => PushHashes(s, slot, ds)
    case Reporting(reports) => UpdateTable(s, reports)
    case Bursting(slots, delta) => BurstTable(s, slots, delta)
    case Looking(slot, tokens, skip) => GetComputed(s, slot, tokens, skip).0
    case Starting => StartStep(s)
    case Counting(slot) => CommonPrefixAll(s, slot).0
    case Filing(slot, tokens) => CacheAll(s, slot, tokens)
    case Skipping(slot, total) => SkipSlot(s, slot, total)
    case Peeking(slot, tokens) => Peek(s, slot, tokens).0
    case Evicting(ids) => EvictIds(s, ids)
    case Resetting => ResetAll(s)
    case Clearing(slot) => TableClear(s, slot)
    case Forgetting(slot) => Forget(s, slot)
    case Scheduling(slots, queue, prm) => ScheduleResident(s, slots, queue, prm).state
    case Marshalling(marshalled, queue, prm) => Schedule(s, marshalled, queue, prm).state
  }

  /** Every request's full blocks have been hashed. */
  predicate AllHashed(s: State, es: seq<Entry>) {
    forall i :: 0 <= i < |es| ==> Hashed(s, es[i].slot, es[i].tokens)
  }

  /** What a resident step demands: if every slot has an entry, the queues are well-posed and hashed. */
  ghost predicate ResidentOk(s: State, slots: seq<Slot>, queue: seq<Entry>) {
    var running := Load(s, slots);
    running.Some? ==> WellPosed(s, running.value, queue) && AllHashed(s, running.value) && AllHashed(s, queue)
  }

  /** What each entry point demands of its caller. */
  ghost predicate Allowed(m: Mutation, s: State) {
    match m
    case Allocating(c) => CallOk(s, c) && Hashed(s, c.slot, c.reqTokens)
    case Filing(slot, tokens) => CanFile(s, slot, tokens)
    case Evicting(ids) => InRange(s.pool, ids)
    case Scheduling(slots, queue, prm) => ResidentOk(s, slots, queue)
    case Marshalling(marshalled, queue, prm) => WellPosed(s, marshalled, queue) && AllHashed(s, marshalled)
      && AllHashed(s, queue)
    case _ => true
  }

  /** The decisions of a step, if the entry point is one. */
  function StepOf(m: Mutation, s: State): Option<Decisions> {
    var r := if m.Scheduling? then ScheduleResident(s, m.slots, m.queue, m.params)
             else if m.Marshalling? then Schedule(s, m.marshalled, m.queue, m.params)
             else Err(s);
    if r.Ok? then Some(r.decisions) else None
  }

  lemma NoStep(m: Mutation, s: State)
    requires !m.Scheduling? && !m.Marshalling?
    ensures StepOf(m, s).None?
  {}

  function ApplyAll(ms: seq<Mutation>, s: State): State
    decreases |ms|
  {
    if ms == [] then s else ApplyAll(ms[1..], Apply(ms[0], s))
  }

  ghost predicate AllAllowed(ms: seq<Mutation>, s: State)
    decreases |ms|
  {
    ms == [] || (Allowed(ms[0], s) && AllAllowed(ms[1..], Apply(ms[0], s)))
  }

  // ---- what touches the table only --------------------------------------------------

  lemma {:induction false} UpdateTableOnly(s: State, reports: seq<Report>)
    ensures UpdateTable(s, reports) == s.(table := UpdateTable(s, reports).table)
    decreases |reports|
  {
    hide Updated;
    if reports != [] {
      var e := TableGet(s, reports[0].slot);
      UpdateTableOnly(if e.Some? then TableSet(s, reports[0].slot, Updated(e.value, reports[0])) else s, reports[1..]);
    }
  }

  lemma {:induction false} BurstTableOnly(s: State, slots: seq<Slot>, delta: int)
    ensures BurstTable(s, slots, delta) == s.(table := BurstTable(s, slots, delta).table)
    decreases |slots|
  {
    hide Burst;
    if slots != [] {
      var e := TableGet(s, slots[0]);
      BurstTableOnly(if e.Some? then TableSet(s, slots[0], Burst(e.value, delta)) else s, slots[1..], delta);
    }
  }

  lemma {:induction false} ResyncOnly(s: State, running: seq<Entry>)
    ensures Resync(s, running) == s.(table := Resync(s, running).table)
    decreases |running|
  {
    if running != [] { ResyncOnly(TableSet(s, running[0].slot, running[0]), running[1..]); }
  }

  // ---- every run --------------------------------------------------------------------

  lemma HashesOnly(s: State, slot: Slot, ds: seq<Digest>)
    requires StateInv(s)
    ensures StateInv(PushHashes(s, slot, ds))
  {}

  lemma LookingKeeps(s: State, slot: Slot, tokens: nat, skip: bool)
    requires StateInv(s)
    ensures StateInv(GetComputed(s, slot, tokens, skip).0)
  {
    hide GInv, HitLength, Uncached;
    if s.cfg.caching && !skip { HitTableExists(s, slot, HitLength(s, slot, Monus(tokens, 1))); }
  }

  lemma ResyncPosed(s: State, running: seq<Entry>, queue: seq<Entry>)
    requires WellPosed(s, running, queue)
    ensures WellPosed(Resync(s, running), running, queue)
  {
    hide StateInv, QueueOk;
    ResyncOnly(s, running);
    TableOnly(s, Resync(s, running));
  }

  /** Every entry point keeps the invariant, and no allocation or step it makes can fail. */
  lemma ApplyKeeps(m: Mutation, s: State)
    requires StateInv(s) && Allowed(m, s)
    ensures StateInv(Apply(m, s))
    ensures m.Marshalling? ==> Schedule(s, m.marshalled, m.queue, m.params).Ok?
    ensures m.Scheduling? && Load(s, m.slots).Some? ==> ScheduleResident(s, m.slots, m.queue, m.params).Ok?
    ensures m.Allocating? && m.call.newTokens > 0 ==> !AllocateSlots(s, m.call).1.Failed?
  {
    hide StateInv, AllocateSlots, FreeSlot, TableSet, PushHashes, UpdateTable, BurstTable, GetComputed, StartStep,
         CommonPrefixAll,
         Run, Resync, Load, QueueOk, CallOk, Hashed, CanFile, CacheAll, EvictIds, ResetAll, TableClear, Forget,
         SkipSlot, Uncached, HitLength;
    match m
    case Allocating(c) => if c.newTokens > 0 { AllOrNothing(s, c); } else { NothingAsked(s, c); }
    case Freeing(slot) => FreeSlotKeeps(s, slot);
    case Putting(slot, e) => PutKeeps(s, slot, e);
    case Hashing(slot, ds) => HashesOnly(s, slot, ds);
    case Reporting(reports) => UpdateTableOnly(s, reports); TableOnly(s, UpdateTable(s, reports));
    case Bursting(slots, delta) => BurstTableOnly(s, slots, delta); TableOnly(s, BurstTable(s, slots, delta));
    case Looking(slot, tokens, skip) => LookingKeeps(s, slot, tokens, skip);
    case Starting => StartStepKeeps(s);
    case Counting(slot) => CommonPrefixKeeps(s, slot);
    case Filing(slot, tokens) => CacheAllOk(s, slot, tokens);
    case Skipping(slot, total) => SkipSlotKeeps(s, slot, total);
    case Peeking(slot, tokens) => UncachedOnly(s, Peek(s, slot, tokens).0);
    case Evicting(ids) => EvictIdsKeeps(s, ids);
    case Resetting => ResetAllKeeps(s);
    case Clearing(slot) => ForgetKeeps(s, slot);
    case Forgetting(slot) => ForgetKeeps(s, slot);
    case Scheduling(slots, queue, prm) => if Load(s, slots).Some? { StepKeeps(s, Load(s, slots).value, queue, prm); }
    case Marshalling(marshalled, queue, prm) =>
      ResyncPosed(s, marshalled, queue);
      StepKeeps(Resync(s, marshalled), marshalled, queue, prm);
  }

  lemma NothingAsked(s: State, c: Call)
    requires c.newTokens == 0
    ensures AllocateSlots(s, c) == (s, Failed)
  {}

  lemma PutKeeps(s: State, slot: Slot, e: Entry)
    requires StateInv(s)
    ensures StateInv(TableSet(s, slot, e))
  {
    TableOnly(s, TableSet(s, slot, e));
  }

  lemma InitKeeps(c: Config, n: nat)
    requires ConfigOk(c) && n > 0
    ensures StateInv(State(c, InitPool(c.caching, n),
                           seq(|c.groups|, i requires 0 <= i < |c.groups| => InitTm(c.groups[i])),
                           map[], [], map[], seq(|c.groups|, _ => []), 0))
  {
    InitGroups(InitPool(c.caching, n), seq(|c.groups|, i requires 0 <= i < |c.groups| => InitTm(c.groups[i])), c, n);
  }

  /** From a new manager, any run of entry points within their contracts keeps the invariant. */
  lemma {:induction false} EveryRunKeeps(ms: seq<Mutation>, s: State)
    requires StateInv(s) && AllAllowed(ms, s)
    ensures StateInv(ApplyAll(ms, s))
    decreases |ms|
  {
    hide StateInv, Allowed, Apply;
    if ms != [] {
      ApplyKeeps(ms[0], s);
      EveryRunKeeps(ms[1..], Apply(ms[0], s));
    }
  }

  /**
   * What that says of the state any run reaches: a non-null block's count is its number of table
   * entries over all groups; the queue lists each unheld non-null block once; a key maps to a
   * block exactly when it is the block's own hash or alias; and the null block is never mapped.
   */
  lemma EveryRunAgrees(ms: seq<Mutation>, s: State)
    requires StateInv(s) && AllAllowed(ms, s)
    ensures var p := ApplyAll(ms, s).pool; var held := HeldAll(ApplyAll(ms, s).tms);
      && (forall b: Id :: 0 < b < |p.meta| ==> p.meta[b].ref == held[b])
      && (forall b: Id :: b in p.free <==> 0 < b < |p.meta| && held[b] == 0) && Distinct(p.free)
      && (forall k, b: Id :: Contain(p.cached, k, b) <==> At(p, b).hash == Some(k) || k in AliasesOf(p, b))
      && (forall k :: !Contain(p.cached, k, NULL))
  {
    hide AllAllowed, ApplyAll, ConfigOk, TablesOk, HeldAll;
    EveryRunKeeps(ms, s);
    var p := ApplyAll(ms, s).pool;
    DistinctMultiset(p.free);
    forall b: Id ensures b in p.free <==> Idle(p, b) { assert multiset(p.free)[b] == if Idle(p, b) then 1 else 0; }
    forall k, b: Id
      ensures Contain(p.cached, k, b) <==> At(p, b).hash == Some(k) || k in AliasesOf(p, b)
    {
      KeyLookup(p, k, b);
    }
    forall k ensures !Contain(p.cached, k, NULL) { KeyLookup(p, k, NULL); NullUnmapped(p, k); }
  }

  lemma NullUnmapped(p: Pool, k: HashKey)
    requires AliasesOk(p)
    ensures !Owns(p, k, NULL)
  {
    assert |AliasesOf(p, NULL)| <= |KeysOf(p, NULL)| == 0;
  }
}
