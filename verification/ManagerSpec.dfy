/**
 * The manager as a value: what `coordinator.rs` and `manager.rs` compute over the pool, the
 * per-group tables and the resident request table.
 */
module ManagerSpec {
  import opened Basics
  import opened PoolSpec
  import opened TypeSpec
  import opened HitSpec

  const WAITING: nat := 0
  const RUNNING: nat := 1
  const PREEMPTED: nat := 2

  /** The fields of a request that the scheduling loop reads. */
  datatype Entry = Entry(
    slot: Slot,
    tokens: nat,
    tokensWithSpec: nat,
    computed: nat,
    placeholders: nat,
    prompt: nat,
    maxTokens: nat,
    status: nat,
    preemptions: nat,
    prefillChunk: bool,
    skipCache: bool)

  datatype Config = Config(
    caching: bool,
    hashBlock: Pos,
    schedBlock: Pos,
    maxModelLen: nat,
    watermark: nat,
    groups: seq<Group>,
    specs: seq<SpecGroup>)

  predicate Grouped(c: Config, g: nat) {
    exists j :: 0 <= j < |c.specs| && g in c.specs[j].gids
  }

  /** What `Config::validate` and the grouping of specs establish at construction; at most one
      spec is full attention and it comes first. */
  predicate ConfigOk(c: Config) {
    && c.groups != [] && c.specs != []
    && c.schedBlock % c.hashBlock == 0
    && (forall i :: 0 <= i < |c.groups| ==>
          c.groups[i].id == i && c.schedBlock % c.groups[i].blockSize == 0 && c.groups[i].blockSize % c.hashBlock == 0)
    && (forall j, g: nat :: 0 <= j < |c.specs| && g in c.specs[j].gids ==> g < |c.groups|)
    && (forall j, g: nat :: 0 <= j < |c.specs| && g in c.specs[j].gids ==>
          c.groups[g].kind == c.specs[j].kind && c.groups[g].blockSize == c.specs[j].blockSize)
    && (forall j :: 0 <= j < |c.specs| ==> c.specs[j].gids != [] && Distinct(c.specs[j].gids))
    && (forall i, j, g: nat :: 0 <= i < j < |c.specs| && g in c.specs[i].gids ==> g !in c.specs[j].gids)
    && (forall g :: 0 <= g < |c.groups| ==> Grouped(c, g))
    && (forall j :: 0 < j < |c.specs| ==> c.specs[j].kind.Mamba?)
  }

  datatype State = State(
    cfg: Config,
    pool: Pool,
    tms: seq<Tm>,
    hashes: map<Slot, seq<Digest>>,
    table: seq<Option<Entry>>,
    hitLen: map<Slot, nat>,
    pending: seq<seq<Id>>,
    uncached: nat)

  function Hashes(s: State, slot: Slot): seq<Digest> {
    if slot in s.hashes then s.hashes[slot] else []
  }

  predicate Hybrid(c: Config) { |c.groups| > 1 }

  // ---- fan-out over the groups ------------------------------------------------------

  /** What the coordinator asks of each group in turn. */
  datatype Op =
    | Skip(slot: Slot, total: nat)
    | Release(slot: Slot)
    | Add(slot: Slot, hits: seq<seq<Id>>, computed: nat)
    | Grow(slot: Slot, tokens: nat, main: nat)
    | File(slot: Slot, hashes: seq<Digest>, hashBlock: Pos, tokens: nat)
    | Prefix(slot: Slot)
    | StepStart

  function HitOf(hits: seq<seq<Id>>, g: nat): seq<Id> { if g < |hits| then hits[g] else [] }

  function Do(op: Op, p: Pool, t: Tm): Step {
    match op
    case Skip(slot, total) => var (q, u) := RemoveSkipped(p, t, slot, total); Step(q, u, true, [])
    case Release(slot) => var (q, u) := Free(p, t, slot); Step(q, u, true, [])
    case Add(slot, hits, computed) => AddLocal(p, t, slot, HitOf(hits, t.group.id), computed)
    case Grow(slot, tokens, main) => Alloc(p, t, slot, tokens, main)
    case File(slot, hashes, hb, tokens) =>
      var (q, u) := CacheBlocks(p, t, slot, hashes, t.group.blockSize / hb, tokens); Step(q, u, true, [])
    case Prefix(slot) => Step(p, CommonEntry(t, slot), true, [CommonPrefix(p, t, slot)])
    case StepStart => Step(p, NewStep(t), true, [])
  }

  datatype Fan = Fan(pool: Pool, tms: seq<Tm>, ok: bool, outs: seq<seq<nat>>)

  /** The groups `i..` in order, stopping at the first error. */
  function FanOut(op: Op, p: Pool, ts: seq<Tm>, i: nat, outs: seq<seq<nat>>): Fan
    requires i <= |ts|
    decreases |ts| - i
  {
    if i == |ts| then Fan(p, ts, true, outs)
    else
      var s := Do(op, p, ts[i]);
      if !s.ok then Fan(s.pool, ts[i := s.tm], false, outs)
      else FanOut(op, s.pool, ts[i := s.tm], i + 1, outs + [s.out])
  }

  function All(op: Op, p: Pool, ts: seq<Tm>): Fan { FanOut(op, p, ts, 0, []) }

  // ---- KVCacheManager ---------------------------------------------------------------

  /** The estimates of the groups `i..`. */
  function EstimateFrom(p: Pool, ts: seq<Tm>, slot: Slot, tokens: nat, hits: seq<seq<Id>>, main: nat, i: nat): nat
    requires i <= |ts|
    decreases |ts| - i
  {
    if i == |ts| then 0
    else Estimate(p, ts[i], slot, tokens, HitOf(hits, ts[i].group.id), main)
         + EstimateFrom(p, ts, slot, tokens, hits, main, i + 1)
  }

  predicate AnyCached(ts: seq<Tm>, slot: Slot) {
    exists i :: 0 <= i < |ts| && slot in ts[i].numCached
  }

  predicate HasHit(hits: seq<seq<Id>>) {
    exists i :: 0 <= i < |hits| && hits[i] != []
  }

  /** The `allocate_slots` call of one request. */
  datatype Call = Call(
    slot: Slot,
    newTokens: nat,
    newComputed: nat,
    usePending: bool,
    lookahead: nat,
    computed: nat,
    reqTokens: nat,
    status: nat,
    others: bool)

  /** Granted with the blocks appended for each group, refused for lack of blocks, or an error. */
  datatype Outcome = Granted(blocks: seq<seq<Id>>) | Refused | Failed

  function CallHits(s: State, c: Call): seq<seq<Id>> {
    if c.usePending && HasHit(s.pending) then s.pending else []
  }

  function Total(s: State, c: Call): nat { Min(c.computed + c.newComputed, s.cfg.maxModelLen) }

  function MainTokens(s: State, c: Call): nat { Total(s, c) + c.newTokens }

  function NeedTokens(s: State, c: Call): nat { Min(MainTokens(s, c) + c.lookahead, s.cfg.maxModelLen) }

  function Watermark(s: State, c: Call): nat {
    if c.others && (c.status == WAITING || c.status == PREEMPTED) then s.cfg.watermark else 0
  }

  /** Hold the hit in every group, unless some group already tracks the request. */
  function AddAll(p: Pool, ts: seq<Tm>, c: Call, hits: seq<seq<Id>>): Fan {
    if hits == [] || AnyCached(ts, c.slot) then Fan(p, ts, true, [])
    else All(Add(c.slot, hits, c.computed + c.newComputed), p, ts)
  }

  /** Only whole scheduler blocks are cached when several groups must agree. */
  function Cacheable(c: Config, tokens: nat): nat {
    if Hybrid(c) then tokens / c.schedBlock * c.schedBlock else tokens
  }

  function CacheAll(s: State, slot: Slot, tokens: nat): State {
    if !s.cfg.caching then s
    else
      var f := All(File(slot, Hashes(s, slot), s.cfg.hashBlock, Cacheable(s.cfg, tokens)), s.pool, s.tms);
      s.(pool := f.pool, tms := f.tms)
  }

  /** The admission test, once skipped blocks have been given back. */
  predicate Admits(s: State, c: Call, f: Fan) {
    EstimateFrom(f.pool, f.tms, c.slot, NeedTokens(s, c), CallHits(s, c), MainTokens(s, c), 0) + Watermark(s, c)
    <= |f.pool.free|
  }

  /** `allocate_slots`. */
  function AllocateSlots(s: State, c: Call): (State, Outcome) {
    if c.newTokens == 0 then (s, Failed)
    else
      var f1 := All(Skip(c.slot, Total(s, c)), s.pool, s.tms);
      if !Admits(s, c, f1) then (s.(pool := f1.pool, tms := f1.tms), Refused)
      else
        var f2 := AddAll(f1.pool, f1.tms, c, CallHits(s, c));
        if !f2.ok then (s.(pool := f2.pool, tms := f2.tms), Failed)
        else
          var f3 := All(Grow(c.slot, NeedTokens(s, c), MainTokens(s, c)), f2.pool, f2.tms);
          var s3 := s.(pool := f3.pool, tms := f3.tms);
          if !f3.ok then (s3, Failed)
          else (CacheAll(s3, c.slot, Min(MainTokens(s, c), c.reqTokens)), Granted(f3.outs))
  }

  /** `remove_skipped_blocks`. */
  function SkipSlot(s: State, slot: Slot, total: nat): State {
    var f := All(Skip(slot, total), s.pool, s.tms);
    s.(pool := f.pool, tms := f.tms)
  }

  /** `free`: preemption and request death alike; the resident entry survives. */
  function FreeSlot(s: State, slot: Slot): State {
    var f := All(Release(slot), s.pool, s.tms);
    s.(pool := f.pool, tms := f.tms, hitLen := s.hitLen - {slot})
  }

  // ---- prefix hits ------------------------------------------------------------------

  function LookupOf(s: State, slot: Slot): Lookup { Lookup(s.pool.cached, Hashes(s, slot), s.cfg.hashBlock) }

  /** A single group aligns to its own block size, several to the scheduler's. */
  function Align(c: Config): Pos {
    if !Hybrid(c) && c.specs != [] then c.specs[0].blockSize else c.schedBlock
  }

  function HitIn(c: Config, l: Lookup, cap: nat): nat {
    if !c.caching then 0 else Longest(l, c.specs, Align(c), cap)
  }

  /** The uncached common prefix left behind by a hybrid lookup: how far the first spec alone
      could have resumed beyond the agreed hit. */
  function UncachedIn(c: Config, l: Lookup, cap: nat, before: nat): nat {
    if !c.caching || !Hybrid(c) || c.specs == [] then before
    else Monus(Longest(l, [c.specs[0]], Align(c), cap), HitIn(c, l, cap))
  }

  function HitTableIn(c: Config, l: Lookup, len: nat): seq<seq<Id>> {
    seq(|c.groups|, g requires 0 <= g < |c.groups| =>
      if !c.caching then [] else HitBlocks(l, c.groups[g].kind, c.groups[g].blockSize, g, len))
  }

  function HitLength(s: State, slot: Slot, cap: nat): nat { HitIn(s.cfg, LookupOf(s, slot), cap) }

  function Uncached(s: State, slot: Slot, cap: nat): nat { UncachedIn(s.cfg, LookupOf(s, slot), cap, s.uncached) }

  function HitTable(s: State, slot: Slot, len: nat): seq<seq<Id>> { HitTableIn(s.cfg, LookupOf(s, slot), len) }

  /** `get_computed_blocks`: at least one token is left to compute. */
  function GetComputed(s: State, slot: Slot, tokens: nat, skip: bool): (State, nat) {
    if !s.cfg.caching || skip then
      (s.(pending := seq(|s.pending|, _ => []), hitLen := s.hitLen[slot := 0]), 0)
    else
      var cap := Monus(tokens, 1);
      var hit := HitLength(s, slot, cap);
      (s.(pending := HitTable(s, slot, hit), uncached := Uncached(s, slot, cap), hitLen := s.hitLen[slot := hit]), hit)
  }

  /** `peek_cache_hit`. */
  function Peek(s: State, slot: Slot, tokens: nat): (State, nat) {
    if !s.cfg.caching then (s, 0)
    else (s.(uncached := Uncached(s, slot, Monus(tokens, 1))), HitLength(s, slot, Monus(tokens, 1)))
  }

  // ---- the resident table -----------------------------------------------------------

  function TableGet(s: State, slot: Slot): Option<Entry> {
    if slot < |s.table| then s.table[slot] else None
  }

  function TableSet(s: State, slot: Slot, e: Entry): State {
    var t := if slot < |s.table| then s.table else s.table + Repeat(None, slot + 1 - |s.table|);
    s.(table := t[slot := Some(e)])
  }

  /** `new_step_starts`. */
  function StartStep(s: State): State {
    var f := All(StepStart, s.pool, s.tms);
    s.(pool := f.pool, tms := f.tms)
  }

  /** `get_num_common_prefix_blocks`: one count per group. */
  function CommonPrefixAll(s: State, slot: Slot): (State, seq<nat>) {
    if !s.cfg.caching then (s, Repeat<nat>(0, |s.tms|))
    else
      var f := All(Prefix(slot), s.pool, s.tms);
      (s.(pool := f.pool, tms := f.tms),
       seq(|f.outs|, i requires 0 <= i < |f.outs| => if f.outs[i] == [] then 0 else f.outs[i][0]))
  }
}
