/** The pool invariant, and what each pool operation does to counts, queue and index. */
module PoolInv {
  import opened Basics
  import opened PoolSpec

  ghost predicate Owns(p: Pool, k: HashKey, b: Id) {
    At(p, b).hash == Some(k) || k in AliasesOf(p, b)
  }

  ghost predicate NullOk(p: Pool) {
    && |p.meta| > 0
    && (forall b :: 0 <= b < |p.meta| ==> (p.meta[b].isNull <==> b == NULL))
  }

  /** A non-null block nobody holds. */
  predicate Idle(p: Pool, b: Id) {
    0 < b < |p.meta| && p.meta[b].ref == 0
  }

  /** `queue` lists each idle block once and nothing else. */
  ghost predicate Queued(p: Pool, queue: multiset<Id>) {
    && (forall b :: 0 < b < |p.meta| ==> p.meta[b].ref >= 0)
    && (forall b: Id :: queue[b] == if Idle(p, b) then 1 else 0)
  }

  /** The free queue holds exactly the unheld blocks, each once, and never the null block. */
  ghost predicate FreeOk(p: Pool) {
    Queued(p, multiset(p.free))
  }

  /** A key maps to a block exactly when it is the block's primary hash or one of its aliases. */
  ghost predicate Agrees(p: Pool) {
    forall k, b :: Contain(p.cached, k, b) <==> Owns(p, k, b)
  }

  ghost predicate ListsOk(m: IndexMap) {
    forall k :: k in m ==> m[k] != [] && Distinct(m[k])
  }

  /** No block lists a key twice; the null block has none. */
  ghost predicate AliasesOk(p: Pool) {
    && (forall b :: b in p.aliases ==> b < |p.meta| && Distinct(KeysOf(p, b)))
    && KeysOf(p, NULL) == []
  }

  ghost predicate IndexOk(p: Pool) {
    && Agrees(p)
    && ListsOk(p.cached)
    && AliasesOk(p)
  }

  ghost predicate Inv(p: Pool) {
    NullOk(p) && FreeOk(p) && IndexOk(p)
  }

  /** `q` differs from `p` only in hashes, index and eviction log. */
  ghost predicate SameCounts(p: Pool, q: Pool) {
    && |q.meta| == |p.meta| && q.free == p.free && q.caching == p.caching
    && (forall b :: 0 <= b < |p.meta| ==> q.meta[b].ref == p.meta[b].ref && q.meta[b].isNull == p.meta[b].isNull)
  }

  /** `q` differs from `p` only in counts and queue. */
  ghost predicate SameHashes(p: Pool, q: Pool) {
    && |q.meta| == |p.meta| && q.cached == p.cached && q.aliases == p.aliases
    && q.evicted == p.evicted && q.caching == p.caching
    && (forall b :: 0 <= b < |p.meta| ==>
          q.meta[b].hash == p.meta[b].hash && q.meta[b].hashTokens == p.meta[b].hashTokens
          && q.meta[b].isNull == p.meta[b].isNull)
  }

  /** Every non-null block's count moved by its multiplicity in `plus` less that in `minus`. */
  ghost predicate Moved(p: Pool, q: Pool, plus: multiset<Id>, minus: multiset<Id>) {
    && |q.meta| == |p.meta|
    && (forall b :: 0 < b < |p.meta| ==> q.meta[b].ref == p.meta[b].ref + plus[b] - minus[b])
  }

  ghost predicate InRange(p: Pool, ids: seq<Id>) {
    forall b :: b in ids ==> b < |p.meta|
  }

  lemma InvParts(p: Pool)
    requires Inv(p)
    ensures NullOk(p) && FreeOk(p) && |p.meta| > 0
  {}

  lemma InitInv(caching: bool, n: nat)
    requires n > 0
    ensures Inv(InitPool(caching, n))
  {
    var p := InitPool(caching, n);
    DistinctMultiset(p.free);
    forall b: Id ensures multiset(p.free)[b] == if Idle(p, b) then 1 else 0 {
      if 0 < b < n { assert p.free[b - 1] == b; assert b in multiset(p.free); }
      assert b in multiset(p.free) <==> b in p.free;
    }
  }

  lemma SameIndex(p: Pool, q: Pool)
    requires IndexOk(p) && |q.meta| == |p.meta| && q.cached == p.cached && q.aliases == p.aliases
    requires forall b :: 0 <= b < |p.meta| ==> q.meta[b].hash == p.meta[b].hash
    ensures IndexOk(q)
  {
    forall b ensures KeysOf(q, b) == KeysOf(p, b) && At(q, b).hash == At(p, b).hash {}
    forall k, b ensures Contain(q.cached, k, b) <==> Owns(q, k, b) {
      assert Contain(p.cached, k, b) <==> Owns(p, k, b);
    }
  }

  lemma SameHashesIndex(p: Pool, q: Pool)
    requires IndexOk(p) && SameHashes(p, q)
    ensures IndexOk(q)
  {
    SameIndex(p, q);
  }

  // ---- index ------------------------------------------------------------------------

  lemma PopOk(m: IndexMap, k: HashKey, b: Id)
    requires ListsOk(m)
    ensures ListsOk(Pop(m, k, b))
    ensures forall j, x :: Contain(Pop(m, k, b), j, x) <==> Contain(m, j, x) && !(j == k && x == b)
  {
    if Contain(m, k, b) {
      RemoveFirstDistinct(m[k], b);
    }
  }

  lemma {:induction false} PopAllOk(m: IndexMap, keys: seq<HashKey>, b: Id)
    requires ListsOk(m)
    ensures ListsOk(PopAll(m, keys, b))
    ensures forall k, x :: Contain(PopAll(m, keys, b), k, x) <==> Contain(m, k, x) && !(x == b && k in keys)
  {
    if keys == [] {
    } else {
      PopOk(m, keys[0], b);
      PopAllOk(Pop(m, keys[0], b), keys[1..], b);
      assert keys == [keys[0]] + keys[1..];
    }
  }

  lemma InsertOk(m: IndexMap, k: HashKey, b: Id)
    requires ListsOk(m)
    ensures ListsOk(Insert(m, k, b))
    ensures forall j, x :: Contain(Insert(m, k, b), j, x) <==> Contain(m, j, x) || (j == k && x == b)
  {
    var n := Insert(m, k, b);
    forall j, x ensures Contain(n, j, x) <==> Contain(m, j, x) || (j == k && x == b) {}
  }

  lemma KeyLookup(p: Pool, k: HashKey, b: Id)
    requires Agrees(p)
    ensures Contain(p.cached, k, b) <==> Owns(p, k, b)
  {}

  lemma StripOwns(p: Pool, b: Id, k: HashKey, x: Id)
    requires b < |p.meta|
    ensures Owns(RemoveHashes(p, b), k, x) <==> (Owns(p, k, x) && x != b)
  {}

  lemma StripKeys(p: Pool, b: Id, x: Id)
    requires b < |p.meta|
    ensures KeysOf(RemoveHashes(p, b), x) == if x == b then [] else KeysOf(p, x)
  {}

  lemma StripIndex(p: Pool, b: Id)
    requires Agrees(p) && ListsOk(p.cached) && b < |p.meta|
    ensures ListsOk(RemoveHashes(p, b).cached)
    ensures forall k, x :: Contain(RemoveHashes(p, b).cached, k, x) <==> (Contain(p.cached, k, x) && x != b)
  {
    PopAllOk(p.cached, KeysOf(p, b), b);
    forall k ensures k in KeysOf(p, b) <==> Contain(p.cached, k, b) { KeyLookup(p, k, b); }
  }

  lemma StripAgrees(p: Pool, b: Id)
    requires Agrees(p) && ListsOk(p.cached) && b < |p.meta|
    ensures Agrees(RemoveHashes(p, b))
  {
    var q := RemoveHashes(p, b);
    StripIndex(p, b);
    forall k, x ensures Contain(q.cached, k, x) <==> Owns(q, k, x) {
      KeyLookup(p, k, x);
      StripOwns(p, b, k, x);
    }
  }

  lemma StripAliases(p: Pool, b: Id)
    requires AliasesOk(p) && b < |p.meta|
    ensures AliasesOk(RemoveHashes(p, b)) && SameCounts(p, RemoveHashes(p, b))
  {
    forall x ensures KeysOf(RemoveHashes(p, b), x) == if x == b then [] else KeysOf(p, x) { StripKeys(p, b, x); }
  }

  /** After `_remove_cached_block_hashes` no key reaches the block, and no other block is affected. */
  lemma RemoveHashesOk(p: Pool, b: Id)
    requires IndexOk(p) && b < |p.meta|
    ensures IndexOk(RemoveHashes(p, b)) && SameCounts(p, RemoveHashes(p, b))
    ensures KeysOf(RemoveHashes(p, b), b) == []
    ensures forall k :: !Contain(RemoveHashes(p, b).cached, k, b)
    ensures forall x :: x != b ==> At(RemoveHashes(p, b), x) == At(p, x)
    ensures RemoveHashes(p, b).evicted == p.evicted
  {
    StripIndex(p, b);
    StripAgrees(p, b);
    StripAliases(p, b);
    StripKeys(p, b, b);
  }

  lemma {:induction false} PoppedOk(m: IndexMap, keys: seq<HashKey>, b: Id)
    requires ListsOk(m) && Distinct(keys)
    requires forall k :: k in keys ==> Contain(m, k, b)
    ensures Popped(m, keys, b) == |keys|
  {
    if keys == [] {
    } else {
      PopOk(m, keys[0], b);
      PoppedOk(Pop(m, keys[0], b), keys[1..], b);
    }
  }

  /** A block is logged as evicted exactly when it was filed under some key. */
  lemma EvictOk(p: Pool, b: Id)
    requires IndexOk(p) && b < |p.meta|
    ensures IndexOk(Evict(p, b)) && SameCounts(p, Evict(p, b))
    ensures KeysOf(Evict(p, b), b) == []
    ensures forall k :: !Contain(Evict(p, b).cached, k, b)
    ensures forall x :: x != b ==> At(Evict(p, b), x) == At(p, x)
    ensures Evict(p, b).evicted == if KeysOf(p, b) == [] then p.evicted else p.evicted + [b]
  {
    RemoveHashesOk(p, b);
    var q := RemoveHashes(p, b);
    var keys := KeysOf(p, b);
    forall k | k in keys ensures Contain(p.cached, k, b) { KeyLookup(p, k, b); assert Owns(p, k, b); }
    assert Distinct(keys) by { if b !in p.aliases { assert AliasesOf(p, b) == []; } }
    PoppedOk(p.cached, keys, b);
    SameIndex(q, Evict(p, b));
  }

  lemma FileOwns(p: Pool, k: HashKey, b: Id, tokens: nat, j: HashKey, x: Id)
    requires b < |p.meta| && InsertHash(p, k, b, tokens) != p
    ensures Owns(InsertHash(p, k, b, tokens), j, x) <==> (Owns(p, j, x) || (j == k && x == b))
  {}

  lemma FileAgrees(p: Pool, k: HashKey, b: Id, tokens: nat)
    requires Agrees(p) && ListsOk(p.cached) && b < |p.meta|
    ensures Agrees(InsertHash(p, k, b, tokens)) && ListsOk(InsertHash(p, k, b, tokens).cached)
    ensures forall j, x :: Contain(InsertHash(p, k, b, tokens).cached, j, x)
                      <==> (Contain(p.cached, j, x) || (j == k && x == b))
  {
    var q := InsertHash(p, k, b, tokens);
    KeyLookup(p, k, b);
    if q != p {
      InsertOk(p.cached, k, b);
      forall j, x ensures Contain(q.cached, j, x) <==> Owns(q, j, x) {
        KeyLookup(p, j, x);
        FileOwns(p, k, b, tokens, j, x);
      }
    }
  }

  lemma FileKeys(p: Pool, k: HashKey, b: Id, tokens: nat, x: Id)
    requires b < |p.meta| && InsertHash(p, k, b, tokens) != p
    ensures KeysOf(InsertHash(p, k, b, tokens), x)
         == if x != b then KeysOf(p, x) else if At(p, b).hash.None? then [k] + AliasesOf(p, b) else KeysOf(p, b) + [k]
  {}

  lemma KeysDistinct(p: Pool, b: Id)
    requires AliasesOk(p)
    ensures Distinct(KeysOf(p, b))
  {
    if b !in p.aliases { assert AliasesOf(p, b) == []; }
  }

  lemma FileDistinct(p: Pool, k: HashKey, b: Id, tokens: nat, x: Id)
    requires AliasesOk(p) && Agrees(p) && b < |p.meta| && InsertHash(p, k, b, tokens) != p
    ensures Distinct(KeysOf(InsertHash(p, k, b, tokens), x))
  {
    FileKeys(p, k, b, tokens, x);
    KeysDistinct(p, x);
    if x == b {
      KeyLookup(p, k, b);
      assert !Owns(p, k, b);
      DistinctExtend(KeysOf(p, b), k);
      if At(p, b).hash.None? { assert KeysOf(p, b) == AliasesOf(p, b); }
    }
  }

  lemma FileAliases(p: Pool, k: HashKey, b: Id, tokens: nat)
    requires AliasesOk(p) && Agrees(p) && 0 < b < |p.meta|
    ensures AliasesOk(InsertHash(p, k, b, tokens)) && SameCounts(p, InsertHash(p, k, b, tokens))
  {
    var q := InsertHash(p, k, b, tokens);
    if q != p {
      FileKeys(p, k, b, tokens, NULL);
      forall x | x in q.aliases ensures x < |p.meta| && Distinct(KeysOf(q, x)) {
        FileDistinct(p, k, b, tokens, x);
      }
    }
  }

  lemma InsertHashOk(p: Pool, k: HashKey, b: Id, tokens: nat)
    requires IndexOk(p) && 0 < b < |p.meta|
    ensures IndexOk(InsertHash(p, k, b, tokens)) && SameCounts(p, InsertHash(p, k, b, tokens))
    ensures forall x :: x != b ==> At(InsertHash(p, k, b, tokens), x) == At(p, x)
    ensures forall j, x :: Contain(InsertHash(p, k, b, tokens).cached, j, x)
                      <==> (Contain(p.cached, j, x) || (j == k && x == b))
    ensures KeysOf(p, b) == [] ==> At(InsertHash(p, k, b, tokens), b).hash == Some(k)
    ensures InsertHash(p, k, b, tokens).evicted == p.evicted
  {
    FileAgrees(p, k, b, tokens);
    FileAliases(p, k, b, tokens);
    if KeysOf(p, b) == [] { KeyLookup(p, k, b); assert !Owns(p, k, b); }
  }
}
