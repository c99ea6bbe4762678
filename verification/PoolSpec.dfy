/**
 * The block pool as a value: what `block_pool.rs` computes, with the free queue as a
 * sequence and the prefix-cache index as a map from keys to insertion-ordered block lists.
 * `BlockPool` (BlockPool.dfy) is the imperative pool proved against these functions, and
 * `PoolInv` (PoolInv.dfy) is the invariant they keep.
 *
 * Ids outside the pool make the program panic; here they read as a blank block and writes
 * to them are ignored. The invariants show that no reachable call uses one.
 */
module PoolSpec {
  import opened Basics

  datatype Meta = Meta(ref: int, hash: Option<HashKey>, hashTokens: Option<nat>, isNull: bool)

  type IndexMap = map<HashKey, seq<Id>>

  datatype Pool = Pool(
    caching: bool,
    meta: seq<Meta>,
    free: seq<Id>,
    cached: IndexMap,
    aliases: map<Id, seq<HashKey>>,
    evicted: seq<Id>)

  const BLANK: Meta := Meta(0, None, None, false)

  function At(p: Pool, b: Id): Meta {
    if b < |p.meta| then p.meta[b] else BLANK
  }

  function Put(p: Pool, b: Id, m: Meta): Pool {
    if b < |p.meta| then p.(meta := p.meta[b := m]) else p
  }

  function Bump(p: Pool, b: Id, d: int): Pool {
    Put(p, b, At(p, b).(ref := At(p, b).ref + d))
  }

  // ---- the prefix-cache index -------------------------------------------------------

  /** First inserted wins among blocks that carry the same key. */
  function GetOne(m: IndexMap, k: HashKey): Option<Id> {
    if k in m && m[k] != [] then Some(m[k][0]) else None
  }

  predicate Contain(m: IndexMap, k: HashKey, b: Id) {
    k in m && b in m[k]
  }

  function Insert(m: IndexMap, k: HashKey, b: Id): IndexMap {
    if k !in m then m[k := [b]]
    else if b in m[k] then m
    else m[k := m[k] + [b]]
  }

  function Pop(m: IndexMap, k: HashKey, b: Id): IndexMap {
    if !Contain(m, k, b) then m
    else
      var rest := RemoveFirst(m[k], b);
      if rest == [] then m - {k} else m[k := rest]
  }

  // ---- hashes of one block ----------------------------------------------------------

  function AliasesOf(p: Pool, b: Id): seq<HashKey> {
    if b in p.aliases then p.aliases[b] else []
  }

  /** The keys a block is filed under: its primary hash, then its aliases. */
  function KeysOf(p: Pool, b: Id): seq<HashKey> {
    (if At(p, b).hash.Some? then [At(p, b).hash.value] else []) + AliasesOf(p, b)
  }

  function PopAll(m: IndexMap, keys: seq<HashKey>, b: Id): IndexMap {
    if keys == [] then m else PopAll(Pop(m, keys[0], b), keys[1..], b)
  }

  /** How many of the keys were really mapped to the block. */
  function Popped(m: IndexMap, keys: seq<HashKey>, b: Id): nat {
    if keys == [] then 0
    else (if Contain(m, keys[0], b) then 1 else 0) + Popped(Pop(m, keys[0], b), keys[1..], b)
  }

  /** `_remove_cached_block_hashes`. */
  function RemoveHashes(p: Pool, b: Id): Pool {
    var keys := KeysOf(p, b);
    var q := p.(aliases := p.aliases - {b});
    if keys == [] then q
    else
      Put(q.(cached := PopAll(q.cached, keys, b)), b, At(p, b).(hash := None, hashTokens := None))
  }

  /** `_maybe_evict_cached_block`. */
  function Evict(p: Pool, b: Id): Pool {
    var q := RemoveHashes(p, b);
    if Popped(p.cached, KeysOf(p, b), b) == 0 then q else q.(evicted := q.evicted + [b])
  }

  /** `evict_blocks`. */
  function EvictAll(p: Pool, ids: seq<Id>): Pool
    decreases |ids|
  {
    if ids == [] then p else Evict(EvictAll(p, ids[..|ids| - 1]), ids[|ids| - 1])
  }

  function Stripped(m: Meta): Meta { m.(hash := None, hashTokens := None) }

  /** `reset_prefix_cache`: refused while any block but the null one is out of the queue. */
  function ResetCache(p: Pool): (Pool, bool) {
    if |p.meta| - |p.free| != 1 then (p, false)
    else
      (p.(cached := map[], aliases := map[],
          meta := seq(|p.meta|, b requires 0 <= b < |p.meta| => Stripped(p.meta[b]))), true)
  }

  /** `_insert_block_hash`. */
  function InsertHash(p: Pool, k: HashKey, b: Id, tokens: nat): Pool {
    if At(p, b).hash == Some(k) || Contain(p.cached, k, b) then p
    else
      var q := if At(p, b).hash.None?
               then Put(p, b, At(p, b).(hash := Some(k), hashTokens := Some(tokens)))
               else p.(aliases := p.aliases[b := AliasesOf(p, b) + [k]]);
      q.(cached := Insert(q.cached, k, b))
  }

  /** One iteration of `cache_full_blocks`. */
  function CacheOne(p: Pool, b: Id, k: HashKey, tokens: nat): Pool {
    if At(p, b).isNull then p
    else
      var q := if At(p, b).hash.Some? then RemoveHashes(p, b) else p;
      InsertHash(q, k, b, tokens)
  }

  /** The key of the `i`-th block of a request, from its strided hash list. */
  function KeyAt(hashes: seq<Digest>, stride: nat, group: nat, i: nat): (k: Option<HashKey>) {
    var x := (i + 1) * stride - 1;
    if 0 <= x < |hashes| then Some(HashKey(hashes[x], group)) else None
  }

  /** `cache_full_blocks` over the blocks `from..to` of a request. */
  function CacheFull(p: Pool, blocks: seq<Id>, hashes: seq<Digest>, stride: nat,
                     from: nat, to: nat, bs: nat, group: nat): Pool
    decreases Monus(to, from)
  {
    if from >= to then p
    else
      var k := KeyAt(hashes, stride, group, from);
      var q := if from < |blocks| && k.Some? then CacheOne(p, blocks[from], k.value, (from + 1) * bs) else p;
      CacheFull(q, blocks, hashes, stride, from + 1, to, bs, group)
  }

  // ---- reference counts and the free queue ------------------------------------------

  /** The per-block work of `get_new_blocks`: evict, then hold. */
  function Take(p: Pool, ids: seq<Id>): Pool
    decreases |ids|
  {
    if ids == [] then p
    else
      var q := if p.caching then Evict(p, ids[0]) else p;
      Take(Bump(q, ids[0], 1), ids[1..])
  }

  /** `get_new_blocks` when the queue is long enough. */
  function GetNew(p: Pool, n: nat): (Pool, seq<Id>)
    requires n <= |p.free|
  {
    (Take(p.(free := p.free[n..]), p.free[..n]), p.free[..n])
  }

  /** `touch`: hold each block, pulling it out of the free queue if nobody held it. The
      flag is false when a block that should be in the queue is not. */
  function Touch(p: Pool, ids: seq<Id>): (Pool, bool)
    decreases |ids|
  {
    if ids == [] then (p, true)
    else
      var b := ids[0];
      if At(p, b).ref == 0 && !At(p, b).isNull then
        if b in p.free then Touch(Bump(p.(free := RemoveFirst(p.free, b)), b, 1), ids[1..])
        else (p, false)
      else Touch(Bump(p, b, 1), ids[1..])
  }

  /** How many of the blocks `touch` would pull out of the queue (`_get_num_evictable_blocks`). */
  function NumEvictable(p: Pool, ids: seq<Id>): (n: nat)
    ensures n <= |ids|
  {
    if ids == [] then 0
    else (if At(p, ids[0]).ref == 0 && !At(p, ids[0]).isNull then 1 else 0) + NumEvictable(p, ids[1..])
  }

  /** Does dropping one reference release the block? */
  predicate Releases(p: Pool, b: Id) {
    At(p, b).ref == 1 && !At(p, b).isNull
  }

  /** The scan of `free_blocks`: references dropped, released blocks split by hash. */
  function Drop(p: Pool, ids: seq<Id>, bare: seq<Id>, hashed: seq<Id>): (Pool, seq<Id>, seq<Id>)
    decreases |ids|
  {
    if ids == [] then (p, bare, hashed)
    else
      var b := ids[0];
      Drop(Bump(p, b, -1), ids[1..],
           if Releases(p, b) && At(p, b).hash.None? then bare + [b] else bare,
           if Releases(p, b) && At(p, b).hash.Some? then hashed + [b] else hashed)
  }

  /** `free_blocks`: blocks without a hash go to the front of the queue, the others to the back. */
  function FreeBlocks(p: Pool, ids: seq<Id>): Pool {
    var (q, bare, hashed) := Drop(p, ids, [], []);
    q.(free := bare + q.free + hashed)
  }

  /** A new pool: every block free but the null block. */
  function InitPool(caching: bool, n: nat): Pool
    requires n > 0
  {
    Pool(caching,
         seq(n, i => Meta(0, None, None, i == NULL)),
         seq(n - 1, i requires 0 <= i < n - 1 => i + 1),
         map[], map[], [])
  }
}
