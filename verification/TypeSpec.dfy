/**
 * One KV-cache group's block tables as a value: what `single_type.rs` computes for full
 * attention (append-only tables) and align-mode mamba (tables that null out and recycle
 * their own entries). `TypeManager` (TypeManager.dfy) is proved against these functions.
 */
module TypeSpec {
  import opened Basics
  import opened PoolSpec

  datatype Kind = FullAttention | Mamba

  datatype Group = Group(kind: Kind, blockSize: Pos, id: nat, numSpec: nat)

  datatype Tm = Tm(
    group: Group,
    reqBlocks: map<Slot, seq<Id>>,
    numCached: map<Slot, nat>,
    newIds: seq<Id>,
    cachedThisStep: set<HashKey>,
    lastState: map<Slot, nat>,
    allocatedReqs: set<Slot>)

  /** A pool and a group's tables after an operation; `ok` is false on an error return. */
  datatype Step = Step(pool: Pool, tm: Tm, ok: bool, out: seq<Id>)

  function Bs(t: Tm): Pos { t.group.blockSize }

  function Blocks(t: Tm, slot: Slot): seq<Id> {
    if slot in t.reqBlocks then t.reqBlocks[slot] else []
  }

  /** The table entry is created on first read. */
  function TouchEntry(t: Tm, slot: Slot): Tm {
    if slot in t.reqBlocks then t else t.(reqBlocks := t.reqBlocks[slot := []])
  }

  function SetBlocks(t: Tm, slot: Slot, v: seq<Id>): Tm {
    t.(reqBlocks := t.reqBlocks[slot := v])
  }

  // ---- releasing blocks -------------------------------------------------------------

  /** Lowest index of the run of live entries that ends just below `last`, not below `first`. */
  function RunStart(v: seq<Id>, first: nat, last: nat): (r: nat)
    requires last <= |v|
    ensures r <= Max(first, last)
    ensures r >= Min(first, last)
    ensures forall i :: r <= i < last ==> v[i] != NULL
    ensures r > first ==> r == last || v[r] != NULL
    ensures first < r <= last ==> v[r - 1] == NULL
  {
    if last <= first then last
    else if v[last - 1] == NULL then last
    else RunStart(v, first, last - 1)
  }

  function NullRange(v: seq<Id>, first: nat, last: nat): (r: seq<Id>)
    requires first <= last <= |v|
    ensures |r| == |v|
  {
    v[..first] + Repeat<Id>(NULL, last - first) + v[last..]
  }

  /** `_remove_blocks_in_range`: walk down from `last` until a null entry, nulling and freeing. */
  function RemoveRange(p: Pool, t: Tm, slot: Slot, first: nat, last: nat): (Pool, Tm) {
    if slot !in t.reqBlocks || first >= last then (p, t)
    else
      var v := t.reqBlocks[slot];
      var hi := Min(last, |v|);
      if hi <= first then (p, t)
      else
        var lo := RunStart(v, first, hi);
        (FreeBlocks(p, Reverse(v[lo..hi])), SetBlocks(t, slot, NullRange(v, lo, hi)))
  }

  /** The align-mode tail of `remove_skipped_blocks`: release the state before the last one. */
  function DropLastState(p: Pool, t: Tm, slot: Slot, computed: nat): (Pool, Tm) {
    if slot in t.lastState && t.lastState[slot] < CDiv(computed, Bs(t)) - 1
       && t.lastState[slot] < |Blocks(t, slot)| && Blocks(t, slot)[t.lastState[slot]] != NULL
    then
      var i := t.lastState[slot];
      (FreeBlocks(p, [Blocks(t, slot)[i]]), SetBlocks(t, slot, Blocks(t, slot)[i := NULL]))
    else (p, t)
  }

  /** `remove_skipped_blocks`: full attention skips nothing; mamba skips all but the last token. */
  function RemoveSkipped(p: Pool, t: Tm, slot: Slot, total: nat): (Pool, Tm) {
    if t.group.kind.FullAttention? then (p, t)
    else
      var computed := Monus(total, t.group.numSpec);
      var (q, u) :=
        if computed > 1 then
          var t1 := TouchEntry(t, slot);
          RemoveRange(p, t1, slot, 0, Min((computed - 1) / Bs(t), |Blocks(t1, slot)|))
        else (p, t);
      DropLastState(q, u, slot, computed)
  }

  /** `free`: the whole table, tail first, and every per-request map entry. */
  function Free(p: Pool, t: Tm, slot: Slot): (Pool, Tm) {
    var u := if t.group.kind.Mamba?
             then t.(allocatedReqs := t.allocatedReqs - {slot}, lastState := t.lastState - {slot})
             else t;
    (FreeBlocks(p, Reverse(Blocks(t, slot))),
     u.(reqBlocks := u.reqBlocks - {slot}, numCached := u.numCached - {slot}))
  }

  // ---- allocating blocks ------------------------------------------------------------

  /** Blocks of a prefix hit that precede the only state mamba keeps. */
  function SkippedBlocks(t: Tm, computed: nat): nat {
    if t.group.kind.Mamba? && computed > 0 then (computed - 1) / Bs(t) else 0
  }

  function Kept(t: Tm, hit: seq<Id>, computed: nat): seq<Id> {
    var n := SkippedBlocks(t, computed);
    if n >= |hit| then [] else hit[n..]
  }

  /** `add_local_computed_blocks`: hold the hit, padded with nulls for what is skipped. */
  function AddLocal(p: Pool, t: Tm, slot: Slot, hit: seq<Id>, computed: nat): Step {
    var kept := Kept(t, hit, computed);
    var (q, ok) := if p.caching then Touch(p, kept) else (p, true);
    if !ok then Step(q, t, false, [])
    else
      var v := Blocks(t, slot) + Repeat<Id>(NULL, SkippedBlocks(t, computed)) + kept;
      Step(q, SetBlocks(t, slot, v).(numCached := t.numCached[slot := |v|]), true, [])
  }

  function AllocFull(p: Pool, t: Tm, slot: Slot, tokens: nat): Step {
    var t1 := TouchEntry(t, slot);
    var need := CDiv(tokens, Bs(t));
    var have := |Blocks(t1, slot)|;
    if need <= have then Step(p, t1, true, [])
    else if need - have > |p.free| then Step(p, t1, false, [])
    else
      var ids := p.free[..need - have];
      Step(GetNew(p, need - have).0, SetBlocks(t1, slot, Blocks(t1, slot) + ids).(newIds := t1.newIds + ids), true, ids)
  }

  /** The recycling loop: entries `i..end` below `skipped` move to the end of the table. */
  function Recycle(v: seq<Id>, i: nat, end: nat, skipped: nat): (r: seq<Id>)
    requires end <= |v|
    ensures |r| == |v| + Monus(Min(end, skipped), i)
    decreases Monus(end, i)
  {
    if i < end && i < skipped then Recycle((v + [v[i]])[i := NULL], i + 1, end, skipped) else v
  }

  /** The table just before new blocks are taken, when `need` entries are wanted in the end. */
  function MambaTable(t: Tm, slot: Slot, need: nat): (r: seq<Id>)
  {
    var v := Blocks(t, slot);
    var skipped := Monus(need, t.group.numSpec + 1);
    var padded := v + Repeat<Id>(NULL, Monus(skipped, |v|));
    if slot in t.allocatedReqs then Recycle(padded, Monus(|v|, t.group.numSpec), |v|, skipped) else padded
  }

  function MambaLastState(t: Tm, slot: Slot): map<Slot, nat> {
    var n := |Blocks(t, slot)|;
    if slot in t.allocatedReqs then t.lastState[slot := Monus(n, 1 + t.group.numSpec)]
    else if n > 0 then t.lastState[slot := n - 1]
    else t.lastState
  }

  /** The tables just before new blocks are taken. */
  function MambaGrown(t: Tm, slot: Slot, need: nat): Tm {
    SetBlocks(t, slot, MambaTable(t, slot, need)).(lastState := MambaLastState(t, slot))
  }

  /** The tables once `ids` have been taken. */
  function MambaFilled(t: Tm, slot: Slot, ids: seq<Id>): Tm {
    SetBlocks(t, slot, Blocks(t, slot) + ids).(allocatedReqs := t.allocatedReqs + {slot})
  }

  /** `mamba_align_allocate`. */
  function AllocMamba(p: Pool, t: Tm, slot: Slot, main: nat): Step {
    var need := CDiv(main, Bs(t)) + t.group.numSpec;
    var prev := |Blocks(t, slot)|;
    if need <= prev then Step(p, TouchEntry(t, slot), true, [])
    else
      var u := MambaGrown(t, slot, need);
      var n := Monus(need, |Blocks(u, slot)|);
      if n > |p.free| then Step(p, u, false, [])
      else
        var w := MambaFilled(u, slot, p.free[..n]);
        Step(GetNew(p, n).0, w, true, Slice(Blocks(w, slot), prev, |Blocks(w, slot)|))
  }

  /** `allocate_new_blocks`. */
  function Alloc(p: Pool, t: Tm, slot: Slot, tokens: nat, main: nat): Step {
    if t.group.kind.Mamba? then AllocMamba(p, t, slot, main) else AllocFull(p, t, slot, tokens)
  }

  /** How many blocks `Alloc` takes from the queue. */
  function Wanted(t: Tm, slot: Slot, tokens: nat, main: nat): nat {
    var n := |Blocks(t, slot)|;
    if t.group.kind.FullAttention? then Monus(CDiv(tokens, Bs(t)), n)
    else
      var need := CDiv(main, Bs(t)) + t.group.numSpec;
      if need <= n then 0 else Monus(need, |MambaTable(t, slot, need)|)
  }

  // ---- the admission estimate -------------------------------------------------------

  /** `get_num_blocks_to_allocate`, with the align-mode branch of mamba. */
  function Estimate(p: Pool, t: Tm, slot: Slot, tokens: nat, hit: seq<Id>, main: nat): nat {
    var have := |Blocks(t, slot)|;
    if t.group.kind.Mamba? then
      if hit != [] && At(p, hit[|hit| - 1]).hash.Some? && At(p, hit[|hit| - 1]).hash.value in t.cachedThisStep
      then |p.meta| + 1
      else
        var need := CDiv(main, Bs(t)) + t.group.numSpec - |hit| - have;
        (if need > 0 then (if slot in t.allocatedReqs then 1 else 1 + t.group.numSpec) else 0) + NumEvictable(p, hit)
    else if slot in t.numCached then Monus(CDiv(tokens, Bs(t)), have)
    else Monus(CDiv(tokens, Bs(t)), |hit| + have) + NumEvictable(p, hit)
  }

  // ---- caching ----------------------------------------------------------------------

  function NumCached(t: Tm, slot: Slot): nat {
    if slot in t.numCached then t.numCached[slot] else 0
  }

  /** The keys mamba remembers so that nobody reuses a state cached in the same step. */
  function StepKeys(p: Pool, v: seq<Id>): set<HashKey> {
    set b | b in v && !At(p, b).isNull && At(p, b).hash.Some? :: At(p, b).hash.value
  }

  function Slice(v: seq<Id>, from: nat, to: nat): seq<Id> {
    var hi := Min(to, |v|);
    if from <= hi then v[from..hi] else []
  }

  /** `cache_blocks`. */
  function CacheBlocks(p: Pool, t: Tm, slot: Slot, hashes: seq<Digest>, stride: nat, tokens: nat): (Pool, Tm) {
    var from := NumCached(t, slot);
    var to := tokens / Bs(t);
    if from >= to then (p, t)
    else
      var t1 := TouchEntry(t, slot);
      var v := Blocks(t1, slot);
      var q := CacheFull(p, v, hashes, stride, from, to, t.group.blockSize, t.group.id);
      var u := t1.(numCached := t1.numCached[slot := to]);
      (q, if t.group.kind.Mamba? then u.(cachedThisStep := u.cachedThisStep + StepKeys(q, Slice(v, from, to))) else u)
  }

  // ---- per-step bookkeeping ---------------------------------------------------------

  function NewStep(t: Tm): Tm {
    if t.group.kind.Mamba? then t.(cachedThisStep := {}) else t
  }

  /** Leading blocks of a table that every request of the group holds. */
  function SharedPrefix(p: Pool, v: seq<Id>, reqs: nat): nat {
    if v == [] || At(p, v[0]).ref != reqs then 0 else 1 + SharedPrefix(p, v[1..], reqs)
  }

  /** `get_num_common_prefix_blocks`: reading the table may create the entry. */
  function CommonEntry(t: Tm, slot: Slot): Tm {
    if t.group.kind.Mamba? then t else TouchEntry(t, slot)
  }

  function CommonPrefix(p: Pool, t: Tm, slot: Slot): nat {
    if t.group.kind.Mamba? then 0 else SharedPrefix(p, Blocks(t, slot), |CommonEntry(t, slot).reqBlocks|)
  }

  function InitTm(g: Group): Tm { Tm(g, map[], map[], [], {}, map[], {}) }
}
