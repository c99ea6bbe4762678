/**
 * The undo journal's entries and their replay. Each entry holds the value a cell had before it
 * was overwritten; replaying a log newest first stores those values back. The cells fall into
 * components (the pool, each group's tables, the manager's own maps), and an entry touches one.
 */
module Journal {
  import opened Basics
  import opened PoolSpec
  import opened TypeSpec
  import opened ManagerSpec
  import opened FreeQueue

  datatype Undo =
    | UBlock(id: Id, block: Block)
    | FreeCount(count: nat)
    | Index(key: HashKey, entry: Option<seq<Id>>)
    | CachedByBlock(id: Id, keys: Option<seq<HashKey>>)
    | EvictedLen(count: nat)
    | ReqBlocksLen(group: nat, slot: Slot, count: nat)
    | ReqBlocksSet(group: nat, slot: Slot, index: nat, id: Id)
    | ReqBlocksInsert(group: nat, slot: Slot)
    | ReqBlocksRemove(group: nat, slot: Slot, blocks: seq<Id>)
    | NumCachedBlock(group: nat, slot: Slot, number: Option<nat>)
    | NewBlockIdsLen(group: nat, count: nat)
    | CachedThisStep(group: nat, hashes: set<HashKey>)
    | CachedThisStepInsert(group: nat, key: HashKey, was: bool)
    | LastStateIdx(group: nat, slot: Slot, number: Option<nat>)
    | AllocatedReq(group: nat, slot: Slot, was: bool)
    | HitLen(slot: Slot, number: Option<nat>)
    | TableEntry(slot: Slot, prior: Option<Entry>)

  datatype Comp = PoolComp | GroupComp(group: nat) | OwnComp

  function CompOf(op: Undo): Comp {
    match op
    case UBlock(_, _) => PoolComp
    case FreeCount(_) => PoolComp
    case Index(_, _) => PoolComp
    case CachedByBlock(_, _) => PoolComp
    case EvictedLen(_) => PoolComp
    case HitLen(_, _) => OwnComp
    case TableEntry(_, _) => OwnComp
    case _ => GroupComp(op.group)
  }

  /** The entries of one component, oldest first. */
  function Project(ops: seq<Undo>, c: Comp): seq<Undo> {
    if ops == [] then []
    else
      var rest := Project(ops[..|ops| - 1], c);
      var op := ops[|ops| - 1];
      if CompOf(op) == c then rest + [op] else rest
  }

  lemma ProjectPush(ops: seq<Undo>, op: Undo, c: Comp)
    ensures Project(ops + [op], c) == if CompOf(op) == c then Project(ops, c) + [op] else Project(ops, c)
  {
    assert (ops + [op])[..|ops|] == ops;
  }

  function PutOr<K, V>(m: map<K, V>, k: K, v: Option<V>): map<K, V> {
    if v.Some? then m[k := v.value] else m - {k}
  }

  function Get<K, V>(m: map<K, V>, k: K): Option<V> {
    if k in m then Some(m[k]) else None
  }

  // ---- the pool's cells -------------------------------------------------------------

  datatype PoolCells = PoolCells(
    arena: Arena,
    numFree: nat,
    cached: IndexMap,
    aliases: map<Id, seq<HashKey>>,
    evicted: seq<Id>)

  function UndoPool(c: PoolCells, op: Undo): PoolCells {
    match op
    case UBlock(id, block) => if id < |c.arena| then c.(arena := c.arena[id := block]) else c
    case FreeCount(count) => c.(numFree := count)
    case Index(key, entry) => c.(cached := PutOr(c.cached, key, entry))
    case CachedByBlock(id, keys) => c.(aliases := PutOr(c.aliases, id, keys))
    case EvictedLen(count) => c.(evicted := c.evicted[..Min(count, |c.evicted|)])
    case _ => c
  }

  function ReplayPool(c: PoolCells, ops: seq<Undo>): PoolCells
    decreases |ops|
  {
    if ops == [] then c else ReplayPool(UndoPool(c, ops[|ops| - 1]), ops[..|ops| - 1])
  }

  // ---- one group's tables -----------------------------------------------------------

  function UndoTm(t: Tm, op: Undo): Tm {
    match op
    case ReqBlocksLen(_, slot, count) =>
      if slot in t.reqBlocks then SetBlocks(t, slot, t.reqBlocks[slot][..Min(count, |t.reqBlocks[slot]|)]) else t
    case ReqBlocksSet(_, slot, index, id) =>
      if slot in t.reqBlocks && index < |t.reqBlocks[slot]|
      then SetBlocks(t, slot, t.reqBlocks[slot][index := id]) else t
    case ReqBlocksInsert(_, slot) => t.(reqBlocks := t.reqBlocks - {slot})
    case ReqBlocksRemove(_, slot, blocks) => t.(reqBlocks := t.reqBlocks[slot := blocks])
    case NumCachedBlock(_, slot, number) => t.(numCached := PutOr(t.numCached, slot, number))
    case NewBlockIdsLen(_, count) => t.(newIds := t.newIds[..Min(count, |t.newIds|)])
    case CachedThisStep(_, hashes) => t.(cachedThisStep := hashes)
    case CachedThisStepInsert(_, key, was) => if was then t else t.(cachedThisStep := t.cachedThisStep - {key})
    case LastStateIdx(_, slot, number) => t.(lastState := PutOr(t.lastState, slot, number))
    case AllocatedReq(_, slot, was) =>
      t.(allocatedReqs := if was then t.allocatedReqs + {slot} else t.allocatedReqs - {slot})
    case _ => t
  }

  function ReplayTm(t: Tm, ops: seq<Undo>): Tm
    decreases |ops|
  {
    if ops == [] then t else ReplayTm(UndoTm(t, ops[|ops| - 1]), ops[..|ops| - 1])
  }

  // ---- the manager's own cells ------------------------------------------------------

  datatype OwnCells = OwnCells(hitLen: map<Slot, nat>, table: seq<Option<Entry>>)

  /** `table_restore` grows the table when the slot is new to it. */
  function UndoOwn(c: OwnCells, op: Undo): OwnCells {
    match op
    case HitLen(slot, number) => c.(hitLen := PutOr(c.hitLen, slot, number))
    case TableEntry(slot, prior) =>
      var t := if slot < |c.table| then c.table else c.table + Repeat(None, slot + 1 - |c.table|);
      c.(table := t[slot := prior])
    case _ => c
  }

  function ReplayOwn(c: OwnCells, ops: seq<Undo>): OwnCells
    decreases |ops|
  {
    if ops == [] then c else ReplayOwn(UndoOwn(c, ops[|ops| - 1]), ops[..|ops| - 1])
  }

  // ---- one recorded write -----------------------------------------------------------

  lemma PoolWrite(c: PoolCells, d: PoolCells, ops: seq<Undo>, op: Undo)
    requires UndoPool(d, op) == c
    ensures ReplayPool(d, ops + [op]) == ReplayPool(c, ops)
  {
    assert (ops + [op])[..|ops|] == ops;
  }

  lemma TmWrite(t: Tm, u: Tm, ops: seq<Undo>, op: Undo)
    requires UndoTm(u, op) == t
    ensures ReplayTm(u, ops + [op]) == ReplayTm(t, ops)
  {
    assert (ops + [op])[..|ops|] == ops;
  }

  lemma OwnWrite(c: OwnCells, d: OwnCells, ops: seq<Undo>, op: Undo)
    requires UndoOwn(d, op) == c
    ensures ReplayOwn(d, ops + [op]) == ReplayOwn(c, ops)
  {
    assert (ops + [op])[..|ops|] == ops;
  }

  /** What a component's replay reads of a log is its own projection. */
  lemma {:induction false} ReplayAll(ops: seq<Undo>, k: nat, c: Comp)
    requires k < |ops|
    ensures Project(ops[..k + 1], c)
         == if CompOf(ops[k]) == c then Project(ops[..k], c) + [ops[k]] else Project(ops[..k], c)
  {
    assert ops[..k + 1] == ops[..k] + [ops[k]];
    ProjectPush(ops[..k], ops[k], c);
  }
}
