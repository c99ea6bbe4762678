/**
 * The block-hash chain (`hash.rs`) and the per-slot token store that extends it token by token
 * (`tokens.rs`). SHA-256 is any function from byte strings to digests; where collisions matter
 * they are excluded by hypothesis, and only among the inputs that were really hashed.
 */
module HashChain {
  import opened Basics
  import opened Pickle
  import opened Picklers

  type Sha = Bytes -> Digest

  /** `hash_block_tokens`: an absent or empty parent stands for the seed. */
  function HashBlock(sha: Sha, seed: Digest, parent: Option<Blob>, tokens: seq<I64>, extra: Option<seq<Key>>): Digest {
    var p: Blob := if parent.Some? && parent.value != [] then parent.value else seed;
    sha(Dump(BlockObject(p, tokens, extra)))
  }

  /** The tokens of block `i`. */
  function Block(tokens: seq<I64>, bs: Pos, i: nat): seq<I64>
    requires (i + 1) * bs <= |tokens|
  {
    MulOrder(i, i + 1, bs);
    tokens[i * bs..(i + 1) * bs]
  }

  /** The tokens of the first `n` blocks. */
  function Head(tokens: seq<I64>, bs: Pos, n: nat): seq<I64>
    requires n * bs <= |tokens|
  {
    MulOrder(0, n + 1, bs);
    tokens[..n * bs]
  }

  /** The tokens past the last full block. */
  function Tail(tokens: seq<I64>, bs: Pos): (t: seq<I64>)
    ensures |t| < bs && |t| <= |tokens|
  {
    FloorBounds(|tokens|, bs);
    tokens[|tokens| / bs * bs..]
  }

  /** The last hash of a chain. */
  function LastOf(chain: seq<Digest>): Digest
    requires chain != []
  {
    chain[|chain| - 1]
  }

  /** The parent of the block after these hashes. */
  function Parent(chain: seq<Digest>): Option<Blob> {
    if chain == [] then None else Some(LastOf(chain))
  }

  /** The hashes of the first `n` blocks, each over the one before it. */
  function Chain(sha: Sha, seed: Digest, bs: Pos, tokens: seq<I64>, extra: Option<seq<Key>>, n: nat): (c: seq<Digest>)
    requires n * bs <= |tokens|
    ensures |c| == n
  {
    if n == 0 then []
    else
      MulOrder(n - 1, n, bs);
      var c := Chain(sha, seed, bs, tokens, extra, n - 1);
      c + [HashBlock(sha, seed, Parent(c), Block(tokens, bs, n - 1), extra)]
  }

  /** `hash_request_tokens`: the whole sequence at once. */
  function Batch(sha: Sha, seed: Digest, bs: Pos, tokens: seq<I64>, extra: Option<seq<Key>>): seq<Digest> {
    FloorBounds(|tokens|, bs);
    Chain(sha, seed, bs, tokens, extra, |tokens| / bs)
  }

  method HashRequestTokens(sha: Sha, seed: Digest, bs: Pos, tokens: seq<I64>, extra: Option<seq<Key>>)
    returns (out: seq<Digest>)
    ensures out == Batch(sha, seed, bs, tokens, extra)
  {
    hide Dump, BlockObject;
    out := [];
    var prev: Option<Blob> := None;
    var start := 0;
    ghost var n := 0;
    FloorBounds(|tokens|, bs);
    while start + bs <= |tokens|
      invariant start == n * bs <= |tokens|
      invariant out == Chain(sha, seed, bs, tokens, extra, n)
      invariant prev == Parent(out)
      decreases |tokens| - start
    {
      var end := start + bs;
      assert end == (n + 1) * bs;
      var p: Blob := if prev.Some? && prev.value != [] then prev.value else seed;
      var bytes := PickleBlockHashInput(p, tokens[start..end], extra);
      var h := sha(bytes);
      out := out + [h];
      prev := Some(h);
      start := end;
      n := n + 1;
    }
    FloorUnique(|tokens|, bs, n);
  }

  lemma FloorUnique(a: nat, b: Pos, q: nat)
    requires q * b <= a < q * b + b
    ensures q == a / b
  {
    FloorBounds(a, b);
    MulOrder(a / b, q + 1, b);
    MulOrder(q, a / b + 1, b);
  }

  lemma {:induction false} ChainLonger(sha: Sha, seed: Digest, bs: Pos, a: seq<I64>, b: seq<I64>,
                                       extra: Option<seq<Key>>, n: nat)
    requires n * bs <= |a| <= |b| && Head(a, bs, n) == Head(b, bs, n)
    ensures Chain(sha, seed, bs, a, extra, n) == Chain(sha, seed, bs, b, extra, n)
  {
    if n > 0 {
      MulOrder(n - 1, n, bs);
      assert Head(a, bs, n - 1) == Head(a, bs, n)[..(n - 1) * bs]
             && Head(b, bs, n - 1) == Head(b, bs, n)[..(n - 1) * bs];
      ChainLonger(sha, seed, bs, a, b, extra, n - 1);
      assert Block(a, bs, n - 1) == Head(a, bs, n)[(n - 1) * bs..]
             && Block(b, bs, n - 1) == Head(b, bs, n)[(n - 1) * bs..];
    }
  }

  /** A longer chain has the shorter one's hashes. */
  lemma {:induction false} ChainAt(sha: Sha, seed: Digest, bs: Pos, a: seq<I64>, extra: Option<seq<Key>>, m: nat,
                                   n: nat)
    requires 0 < m <= n && n * bs <= |a|
    ensures m * bs <= |a| && Chain(sha, seed, bs, a, extra, n)[m - 1] == LastOf(Chain(sha, seed, bs, a, extra, m))
    decreases n
  {
    hide HashBlock, Block, BlockObject, Dump;
    MulOrder(m, n, bs);
    if m < n {
      MulOrder(n - 1, n, bs);
      ChainAt(sha, seed, bs, a, extra, m, n - 1);
    }
  }

  // ---- what a hash says about the tokens --------------------------------------------

  /** The byte strings hashed for the first `n` blocks. */
  function Inputs(sha: Sha, seed: Digest, bs: Pos, tokens: seq<I64>, extra: Option<seq<Key>>, n: nat): set<Bytes>
    requires n * bs <= |tokens|
  {
    if n == 0 then {}
    else
      MulOrder(n - 1, n, bs);
      Inputs(sha, seed, bs, tokens, extra, n - 1) + {LastInput(sha, seed, bs, tokens, extra, n)}
  }

  function LastInput(sha: Sha, seed: Digest, bs: Pos, tokens: seq<I64>, extra: Option<seq<Key>>, n: nat): Bytes
    requires 0 < n && n * bs <= |tokens|
  {
    MulOrder(n - 1, n, bs);
    Dump(BlockObject(Seed(seed, Chain(sha, seed, bs, tokens, extra, n - 1)), Block(tokens, bs, n - 1), extra))
  }

  function Seed(seed: Digest, chain: seq<Digest>): Digest {
    if chain == [] then seed else LastOf(chain)
  }

  /** No two of these inputs collide, and none of them hashes to the seed. */
  ghost predicate CollisionFree(sha: Sha, seed: Digest, inputs: set<Bytes>) {
    && (forall x, y :: x in inputs && y in inputs && sha(x) == sha(y) ==> x == y)
    && (forall x :: x in inputs ==> sha(x) != seed)
  }

  lemma LastHash(sha: Sha, seed: Digest, bs: Pos, tokens: seq<I64>, extra: Option<seq<Key>>, n: nat)
    requires 0 < n && n * bs <= |tokens|
    ensures LastOf(Chain(sha, seed, bs, tokens, extra, n)) == sha(LastInput(sha, seed, bs, tokens, extra, n))
    ensures LastInput(sha, seed, bs, tokens, extra, n) in Inputs(sha, seed, bs, tokens, extra, n)
  {
    hide BlockObject, Dump;
  }

  /**
   * Without collisions among what was hashed, two blocks have the same hash only if they are the
   * same block of the same prefix with the same extra keys.
   */
  lemma {:induction false} EqualHashEqualPrefix(sha: Sha, seed: Digest, bs: Pos,
      a: seq<I64>, e: Option<seq<Key>>, m: nat, b: seq<I64>, f: Option<seq<Key>>, n: nat)
    requires 0 < m && m * bs <= |a| && 0 < n && n * bs <= |b|
    requires CollisionFree(sha, seed, Inputs(sha, seed, bs, a, e, m) + Inputs(sha, seed, bs, b, f, n))
    requires LastOf(Chain(sha, seed, bs, a, e, m)) == LastOf(Chain(sha, seed, bs, b, f, n))
    ensures m == n && Head(a, bs, m) == Head(b, bs, n) && e == f
    decreases m
  {
    hide BlockObject, Dump, Chain, Inputs;
    MulOrder(m - 1, m, bs);
    MulOrder(n - 1, n, bs);
    LastHash(sha, seed, bs, a, e, m);
    LastHash(sha, seed, bs, b, f, n);
    var c, d := Chain(sha, seed, bs, a, e, m - 1), Chain(sha, seed, bs, b, f, n - 1);
    BlockInputInjective(Seed(seed, c), Block(a, bs, m - 1), e, Seed(seed, d), Block(b, bs, n - 1), f);
    InputsGrow(sha, seed, bs, a, e, m);
    InputsGrow(sha, seed, bs, b, f, n);
    if m > 1 && n > 1 {
      EqualHashEqualPrefix(sha, seed, bs, a, e, m - 1, b, f, n - 1);
      assert Head(a, bs, m) == Head(a, bs, m - 1) + Block(a, bs, m - 1);
      assert Head(b, bs, n) == Head(b, bs, n - 1) + Block(b, bs, n - 1);
    } else if m > 1 {
      LastHash(sha, seed, bs, a, e, m - 1);
    } else if n > 1 {
      LastHash(sha, seed, bs, b, f, n - 1);
    } else {
      assert Head(a, bs, 1) == Block(a, bs, 0) && Head(b, bs, 1) == Block(b, bs, 0);
    }
  }

  lemma InputsGrow(sha: Sha, seed: Digest, bs: Pos, tokens: seq<I64>, extra: Option<seq<Key>>, n: nat)
    requires 0 < n && n * bs <= |tokens|
    ensures (n - 1) * bs <= |tokens|
    ensures Inputs(sha, seed, bs, tokens, extra, n - 1) <= Inputs(sha, seed, bs, tokens, extra, n)
  {
    hide BlockObject, Dump;
    MulOrder(n - 1, n, bs);
  }

  /** The hash of a block names its prefix: equal hashes at one index exactly when the prefixes are equal. */
  lemma HashNamesPrefix(sha: Sha, seed: Digest, bs: Pos, a: seq<I64>, b: seq<I64>, extra: Option<seq<Key>>, n: nat)
    requires 0 < n && n * bs <= |a| && n * bs <= |b|
    requires CollisionFree(sha, seed, Inputs(sha, seed, bs, a, extra, n) + Inputs(sha, seed, bs, b, extra, n))
    ensures LastOf(Chain(sha, seed, bs, a, extra, n)) == LastOf(Chain(sha, seed, bs, b, extra, n))
       <==> Head(a, bs, n) == Head(b, bs, n)
  {
    hide Inputs;
    if Head(a, bs, n) == Head(b, bs, n) {
      if |a| <= |b| {
        ChainLonger(sha, seed, bs, a, b, extra, n);
      } else {
        ChainLonger(sha, seed, bs, b, a, extra, n);
      }
    } else if LastOf(Chain(sha, seed, bs, a, extra, n)) == LastOf(Chain(sha, seed, bs, b, extra, n)) {
      EqualHashEqualPrefix(sha, seed, bs, a, extra, n, b, extra, n);
    }
  }

  // ---- the incremental chain --------------------------------------------------------

  /** What one slot's chain state is: the hashes so far and the tokens past the last one. */
  datatype Progress = Progress(chain: seq<Digest>, pending: seq<I64>)

  function Push(sha: Sha, seed: Digest, bs: nat, p: Progress, token: I64): Progress {
    var pending := p.pending + [token];
    if |pending| == bs then Progress(p.chain + [HashBlock(sha, seed, Parent(p.chain), pending, None)], [])
    else p.(pending := pending)
  }

  function PushAll(sha: Sha, seed: Digest, bs: nat, p: Progress, tokens: seq<I64>): Progress
    decreases |tokens|
  {
    if tokens == [] then p
    else Push(sha, seed, bs, PushAll(sha, seed, bs, p, tokens[..|tokens| - 1]), tokens[|tokens| - 1])
  }

  function PushParts(sha: Sha, seed: Digest, bs: nat, p: Progress, parts: seq<seq<I64>>): Progress
    decreases |parts|
  {
    if parts == [] then p
    else PushAll(sha, seed, bs, PushParts(sha, seed, bs, p, parts[..|parts| - 1]), parts[|parts| - 1])
  }

  function Concat(parts: seq<seq<I64>>): seq<I64> {
    if parts == [] then [] else Concat(parts[..|parts| - 1]) + parts[|parts| - 1]
  }

  /** The chain state of a sequence hashed at once: all its full blocks, and what is left over. */
  function CaughtUp(sha: Sha, seed: Digest, bs: Pos, tokens: seq<I64>): Progress {
    Progress(Batch(sha, seed, bs, tokens, None), Tail(tokens, bs))
  }

  /** One more token either lengthens the tail or completes the next block. */
  lemma TailGrows(tokens: seq<I64>, bs: Pos, token: I64)
    ensures var n := |tokens| / bs;
            var all := tokens + [token];
            && n * bs <= |tokens| && Head(tokens, bs, n) == Head(all, bs, n)
            && if |Tail(tokens, bs)| + 1 == bs then
                 && |all| / bs == n + 1 && Tail(all, bs) == [] && (n + 1) * bs <= |all|
                 && Block(all, bs, n) == Tail(tokens, bs) + [token]
               else
                 |all| / bs == n && Tail(all, bs) == Tail(tokens, bs) + [token]
  {
    var n := |tokens| / bs;
    var all := tokens + [token];
    FloorBounds(|tokens|, bs);
    assert Tail(tokens, bs) + [token] == all[n * bs..];
    if |Tail(tokens, bs)| + 1 == bs {
      assert |all| == (n + 1) * bs;
      FloorUnique(|all|, bs, n + 1);
    } else {
      FloorUnique(|all|, bs, n);
    }
  }

  lemma PushCaughtUp(sha: Sha, seed: Digest, bs: Pos, tokens: seq<I64>, token: I64)
    ensures Push(sha, seed, bs, CaughtUp(sha, seed, bs, tokens), token) == CaughtUp(sha, seed, bs, tokens + [token])
  {
    hide BlockObject, Dump, Tail, Head, Block, HashBlock;
    TailGrows(tokens, bs, token);
    ChainLonger(sha, seed, bs, tokens, tokens + [token], None, |tokens| / bs);
  }

  lemma {:induction false} PushAllCaughtUp(sha: Sha, seed: Digest, bs: Pos, head: seq<I64>, tokens: seq<I64>)
    ensures PushAll(sha, seed, bs, CaughtUp(sha, seed, bs, head), tokens) == CaughtUp(sha, seed, bs, head + tokens)
    decreases |tokens|
  {
    hide CaughtUp, Push;
    if tokens == [] {
      assert head + tokens == head;
    } else {
      var init := tokens[..|tokens| - 1];
      PushAllCaughtUp(sha, seed, bs, head, init);
      PushCaughtUp(sha, seed, bs, head + init, tokens[|tokens| - 1]);
      assert head + init + [tokens[|tokens| - 1]] == head + tokens;
    }
  }

  /**
   * However the tokens are cut into appends, the store ends with the chain of the whole sequence
   * and with its unhashed remainder.
   */
  lemma {:induction false} AnySplit(sha: Sha, seed: Digest, bs: Pos, head: seq<I64>, parts: seq<seq<I64>>)
    ensures PushParts(sha, seed, bs, CaughtUp(sha, seed, bs, head), parts)
        == CaughtUp(sha, seed, bs, head + Concat(parts))
    decreases |parts|
  {
    hide CaughtUp, PushAll;
    if parts == [] {
      assert head + Concat(parts) == head;
    } else {
      var init := parts[..|parts| - 1];
      AnySplit(sha, seed, bs, head, init);
      PushAllCaughtUp(sha, seed, bs, head + Concat(init), parts[|parts| - 1]);
      assert head + Concat(init) + parts[|parts| - 1] == head + Concat(parts);
    }
  }

  // ---- the token store --------------------------------------------------------------

  datatype SlotTokens = SlotTokens(out: seq<I64>, pending: seq<I64>, numTokens: nat, numOutputTokens: nat)

  datatype StoreError = NotArmed | ZeroBlockSize | TailTooLong | NoEntry

  class TokenStore {
    var slots: map<Slot, SlotTokens>
    var noneHash: Option<Digest>
    var hashBlockSize: nat
    const sha: Sha

    constructor (sha: Sha, hashBlockSize: nat)
      ensures slots == map[] && noneHash.None? && this.hashBlockSize == hashBlockSize && this.sha == sha
      ensures Valid()
    {
      this.sha := sha;
      slots, noneHash, this.hashBlockSize := map[], None, hashBlockSize;
    }

    /** Every tail is shorter than a block. */
    ghost predicate Valid()
      reads this
    {
      forall s :: s in slots ==> |slots[s].pending| < hashBlockSize
    }

    method Arm(seed: Digest)
      requires Valid()
      modifies this`noneHash
      ensures Valid() && noneHash == Some(seed)
    {
      noneHash := Some(seed);
    }

    /** Take over one slot, or refuse and change nothing. */
    method Init(slot: Slot, pending: seq<I64>, numTokens: nat, numOutputTokens: nat) returns (error: Option<StoreError>)
      requires Valid()
      modifies this`slots
      ensures Valid()
      ensures error.None? <==> noneHash.Some? && |pending| < hashBlockSize
      ensures error.None? ==> slots == old(slots)[slot := SlotTokens([], pending, numTokens, numOutputTokens)]
      ensures error.Some? ==> slots == old(slots)
    {
      if noneHash.None? {
        return Some(NotArmed);
      }
      if hashBlockSize == 0 {
        return Some(ZeroBlockSize);
      }
      if |pending| >= hashBlockSize {
        return Some(TailTooLong);
      }
      slots := slots[slot := SlotTokens([], pending, numTokens, numOutputTokens)];
      return None;
    }

    method Forget(slot: Slot)
      requires Valid()
      modifies this`slots
      ensures Valid() && slots == old(slots) - {slot}
    {
      slots := slots - {slot};
    }

    /** Append to one slot and extend its chain, which the caller owns; the new chain is returned. */
    method Append(slot: Slot, tokens: seq<I64>, hashes: seq<Digest>)
      returns (error: Option<StoreError>, chain: seq<Digest>)
      requires Valid()
      modifies this`slots
      ensures Valid()
      ensures error == if noneHash.None? then Some(NotArmed) else if slot !in old(slots) then Some(NoEntry) else None
      ensures error.Some? ==> slots == old(slots) && chain == hashes
      ensures error.None? ==>
                var was := old(slots)[slot];
                var p := PushAll(sha, noneHash.value, hashBlockSize, Progress(hashes, was.pending), tokens);
                && chain == p.chain
                && slots == old(slots)[slot := SlotTokens(was.out + tokens, p.pending, was.numTokens + |tokens|,
                                                          was.numOutputTokens + |tokens|)]
    {
      hide Dump, BlockObject;
      chain := hashes;
      if noneHash.None? {
        return Some(NotArmed), chain;
      }
      if slot !in slots {
        return Some(NoEntry), chain;
      }
      var seed := noneHash.value;
      ghost var was := slots[slot];
      ghost var before := slots;
      for i := 0 to |tokens|
        invariant Valid()
        invariant slot in slots && slots == before[slot := slots[slot]]
        invariant slots[slot].out == was.out + tokens[..i]
        invariant slots[slot].numTokens == was.numTokens + i && slots[slot].numOutputTokens == was.numOutputTokens + i
        invariant Progress(chain, slots[slot].pending)
            == PushAll(sha, seed, hashBlockSize, Progress(hashes, was.pending), tokens[..i])
      {
        assert tokens[..i + 1][..i] == tokens[..i];
        var st := slots[slot];
        st := SlotTokens(st.out + [tokens[i]], st.pending + [tokens[i]], st.numTokens + 1, st.numOutputTokens + 1);
        if |st.pending| == hashBlockSize {
          var parent := Parent(chain);
          var p: Blob := if parent.Some? && parent.value != [] then parent.value else seed;
          var bytes := PickleBlockHashInput(p, st.pending, None);
          chain := chain + [sha(bytes)];
          st := st.(pending := []);
        }
        slots := slots[slot := st];
      }
      assert tokens[..|tokens|] == tokens;
      return None, chain;
    }

    /** Any number of appends to a slot that starts caught up with `head`. */
    method AppendParts(slot: Slot, parts: seq<seq<I64>>, hashes: seq<Digest>,
                       ghost head: seq<I64>) returns (chain: seq<Digest>)
      requires Valid() && noneHash.Some? && slot in slots
      requires Progress(hashes, slots[slot].pending) == CaughtUp(sha, noneHash.value, hashBlockSize, head)
      modifies this`slots
      ensures Valid() && slot in slots
      ensures chain == Batch(sha, noneHash.value, hashBlockSize, head + Concat(parts), None)
      ensures slots[slot].pending == Tail(head + Concat(parts), hashBlockSize)
      ensures slots[slot].out == old(slots[slot].out) + Concat(parts)
      ensures slots[slot].numTokens == old(slots[slot].numTokens) + |Concat(parts)|
    {
      hide BlockObject, Dump, PushAll, HashBlock;
      chain := hashes;
      ghost var start := Progress(hashes, slots[slot].pending);
      for i := 0 to |parts|
        invariant Valid() && slot in slots
        invariant Progress(chain, slots[slot].pending)
            == PushParts(sha, noneHash.value, hashBlockSize, start, parts[..i])
        invariant slots[slot].out == old(slots[slot].out) + Concat(parts[..i])
        invariant slots[slot].numTokens == old(slots[slot].numTokens) + |Concat(parts[..i])|
      {
        assert parts[..i + 1][..i] == parts[..i];
        var error;
        error, chain := Append(slot, parts[i], chain);
      }
      assert parts[..|parts|] == parts;
      AnySplit(sha, noneHash.value, hashBlockSize, head, parts);
    }
  }
}
