/**
 * The two prefix-cache indexes: the flat map of one-or-many entries (`HashIndex`) and the
 * two-level radix buckets (`RadixIndex`). Both stand for the same value, a map from keys to the
 * blocks filed under them in order of insertion, and both answer every call as that map does.
 */
module PrefixIndex {
  import opened Basics
  import opened PoolSpec
  import opened Journal

  // ---- what a call does to the map, and what it answers -----------------------------

  datatype Op =
    | Inserting(key: HashKey, id: Id)
    | Popping(key: HashKey, id: Id)
    | Asking(key: HashKey)
    | Checking(key: HashKey, id: Id)
    | Measuring
    | Clearing

  datatype Answer = Quiet | Block(found: Option<Id>) | Holds(yes: bool) | Keys(count: nat)

  function StepView(m: IndexMap, op: Op): IndexMap {
    match op
    case Inserting(k, b) => Insert(m, k, b)
    case Popping(k, b) => Pop(m, k, b)
    case Clearing => map[]
    case _ => m
  }

  function AnswerTo(m: IndexMap, op: Op): Answer {
    match op
    case Popping(k, b) => Block(if Contain(m, k, b) then Some(b) else None)
    case Asking(k) => Block(GetOne(m, k))
    case Checking(k, b) => Holds(Contain(m, k, b))
    case Measuring => Keys(|m|)
    case _ => Quiet
  }

  function RunView(m: IndexMap, ops: seq<Op>): IndexMap {
    if ops == [] then m else StepView(RunView(m, ops[..|ops| - 1]), ops[|ops| - 1])
  }

  function Answers(m: IndexMap, ops: seq<Op>): seq<Answer> {
    if ops == [] then []
    else
      var init := ops[..|ops| - 1];
      Answers(m, init) + [AnswerTo(RunView(m, init), ops[|ops| - 1])]
  }

  /** The calls the journal covers: everything but the whole-index reset. */
  predicate Recorded(ops: seq<Op>) {
    forall i :: 0 <= i < |ops| ==> !ops[i].Clearing?
  }

  /** The two maps agree at every key but this one. */
  ghost predicate Elsewhere<K(!new), V>(now: map<K, V>, was: map<K, V>, key: K) {
    && (forall k :: k != key ==> (k in now <==> k in was))
    && (forall k :: k != key && k in was ==> k in now && now[k] == was[k])
  }

  /** Two maps that differ at one key only: putting that key's old value back undoes the change. */
  lemma PutBack<K(!new), V>(was: map<K, V>, now: map<K, V>, key: K)
    requires Elsewhere(now, was, key)
    ensures PutOr(now, key, Get(was, key)) == was
  {
    var back := PutOr(now, key, Get(was, key));
    forall k ensures k in back <==> k in was {}
    forall k | k in was ensures back[k] == was[k] {}
  }

  // ---- the flat index ---------------------------------------------------------------

  datatype Slots = One(id: Id) | Many(ids: seq<Id>)

  type Flat = map<HashKey, Slots>

  function Ids(e: Slots): seq<Id> {
    match e case One(b) => [b] case Many(v) => v
  }

  ghost function FlatView(m: Flat): IndexMap {
    map k | k in m :: Ids(m[k])
  }

  /** No key is mapped to an empty list. */
  ghost predicate FlatTidy(m: Flat) {
    forall k :: k in m ==> Ids(m[k]) != []
  }

  /** What the journal keeps of the flat index before a call on a key. */
  datatype FlatMark = FlatMark(key: HashKey, prior: Option<Slots>)

  function ReplayFlat(m: Flat, log: seq<FlatMark>): Flat
    decreases |log|
  {
    if log == [] then m
    else
      var u := log[|log| - 1];
      ReplayFlat(PutOr(m, u.key, u.prior), log[..|log| - 1])
  }

  lemma FlatSize(m: Flat)
    ensures |FlatView(m)| == |m|
  {
    assert FlatView(m).Keys == m.Keys;
    assert |FlatView(m).Keys| == |FlatView(m)|;
  }

  lemma FlatPut(m: Flat, key: HashKey, e: Slots)
    ensures FlatView(m[key := e]) == FlatView(m)[key := Ids(e)]
  {}

  lemma FlatDrop(m: Flat, key: HashKey)
    ensures FlatView(m - {key}) == FlatView(m) - {key}
  {}

  class HashIndex {
    var entries: Flat

    constructor ()
      ensures entries == map[] && FlatTidy(entries) && FlatView(entries) == map[]
    {
      entries := map[];
    }

    method GetOneBlock(key: HashKey) returns (found: Option<Id>)
      requires FlatTidy(entries)
      ensures found == GetOne(FlatView(entries), key)
    {
      if key !in entries {
        return None;
      }
      match entries[key] {
        case One(b) => found := Some(b);
        case Many(v) => found := if v == [] then None else Some(v[0]);
      }
    }

    method Contains(key: HashKey, id: Id) returns (yes: bool)
      ensures yes == Contain(FlatView(entries), key, id)
    {
      if key !in entries {
        return false;
      }
      match entries[key] {
        case One(b) => yes := b == id;
        case Many(v) => yes := id in v;
      }
    }

    method Add(key: HashKey, id: Id)
      requires FlatTidy(entries)
      modifies this
      ensures FlatTidy(entries)
      ensures FlatView(entries) == Insert(old(FlatView(entries)), key, id)
      ensures Elsewhere(entries, old(entries), key)
    {
      if key !in entries {
        FlatPut(entries, key, One(id));
        entries := entries[key := One(id)];
        return;
      }
      match entries[key] {
        case One(prior) =>
          if prior != id {
            assert [prior] + [id] == [prior, id];
            FlatPut(entries, key, Many([prior, id]));
            entries := entries[key := Many([prior, id])];
          }
        case Many(v) =>
          if id !in v {
            FlatPut(entries, key, Many(v + [id]));
            entries := entries[key := Many(v + [id])];
          }
      }
    }

    /** The entry is taken out first and put back when it outlives the call. */
    method Remove(key: HashKey, id: Id) returns (found: Option<Id>)
      requires FlatTidy(entries)
      modifies this
      ensures FlatTidy(entries)
      ensures FlatView(entries) == Pop(old(FlatView(entries)), key, id)
      ensures found == if Contain(old(FlatView(entries)), key, id) then Some(id) else None
      ensures Elsewhere(entries, old(entries), key)
    {
      if key !in entries {
        return None;
      }
      var taken := entries[key];
      FlatDrop(entries, key);
      entries := entries - {key};
      match taken {
        case One(b) =>
          if b == id {
            found := Some(b);
          } else {
            FlatPut(entries, key, One(b));
            entries := entries[key := One(b)];
            found := None;
          }
        case Many(v) =>
          var rest := RemoveFirst(v, id);
          found := if id in v then Some(id) else None;
          if id !in v { RemoveAbsent(v, id); }
          FlatPut(entries, key, Many(rest));
          if rest != [] {
            entries := entries[key := Many(rest)];
          }
      }
    }

    method Perform(op: Op) returns (answer: Answer)
      requires FlatTidy(entries)
      modifies this
      ensures FlatTidy(entries)
      ensures FlatView(entries) == StepView(old(FlatView(entries)), op)
      ensures answer == AnswerTo(old(FlatView(entries)), op)
      ensures op.Inserting? || op.Popping? ==> Elsewhere(entries, old(entries), op.key)
      ensures op.Asking? || op.Checking? || op.Measuring? ==> entries == old(entries)
    {
      answer := Quiet;
      match op {
        case Inserting(k, b) => Add(k, b);
        case Popping(k, b) =>
          var found := Remove(k, b);
          answer := Block(found);
        case Asking(k) =>
          var found := GetOneBlock(k);
          answer := Block(found);
        case Checking(k, b) =>
          var yes := Contains(k, b);
          answer := Holds(yes);
        case Measuring =>
          FlatSize(entries);
          answer := Keys(|entries|);
        case Clearing => entries := map[];
      }
    }

    /** A speculative run: every write is preceded by a snapshot of the key's entry. */
    method RunArmed(ops: seq<Op>) returns (log: seq<FlatMark>)
      requires FlatTidy(entries) && Recorded(ops)
      modifies this
      ensures FlatTidy(entries)
      ensures FlatView(entries) == RunView(old(FlatView(entries)), ops)
      ensures ReplayFlat(entries, log) == old(entries)
    {
      log := [];
      for i := 0 to |ops|
        invariant FlatTidy(entries)
        invariant FlatView(entries) == RunView(old(FlatView(entries)), ops[..i])
        invariant ReplayFlat(entries, log) == old(entries)
      {
        var op := ops[i];
        assert ops[..i + 1][..i] == ops[..i];
        if op.Inserting? || op.Popping? {
          ghost var was := entries;
          var mark := FlatMark(op.key, Get(entries, op.key));
          var _ := Perform(op);
          assert PutOr(entries, op.key, mark.prior) == was by { PutBack(was, entries, op.key); }
          assert (log + [mark])[..|log|] == log;
          log := log + [mark];
        } else {
          var _ := Perform(op);
        }
      }
      assert ops[..|ops|] == ops;
    }

    method Rollback(log: seq<FlatMark>)
      modifies this
      ensures entries == ReplayFlat(old(entries), log)
    {
      var n := |log|;
      assert log[..n] == log;
      while n > 0
        invariant 0 <= n <= |log|
        invariant ReplayFlat(entries, log[..n]) == ReplayFlat(old(entries), log)
      {
        n := n - 1;
        assert log[..n + 1][..n] == log[..n];
        match log[n].prior {
          case Some(e) => entries := entries[log[n].key := e];
          case None => entries := entries - {log[n].key};
        }
      }
    }
  }

  lemma {:induction false} RemoveAbsent<T>(s: seq<T>, x: T)
    requires x !in s
    ensures RemoveFirst(s, x) == s
  {
    if s != [] {
      assert x !in s[1..];
      RemoveAbsent(s[1..], x);
    }
  }

  // ---- the radix index --------------------------------------------------------------

  type Bucket = seq<(HashKey, Id)>

  /** The leading 16 bits of the hash, big-endian. */
  function Prefix(key: HashKey): nat { key.hash[0] as int * 256 + key.hash[1] as int }

  function BucketAt(bs: map<nat, Bucket>, p: nat): Bucket {
    if p in bs then bs[p] else []
  }

  /** The blocks a bucket lists under one key, oldest first. */
  function Rows(b: Bucket, key: HashKey): seq<Id> {
    if b == [] then []
    else
      var rest := Rows(b[..|b| - 1], key);
      var row := b[|b| - 1];
      if row.0 == key then rest + [row.1] else rest
  }

  /** The first row that carries the key. */
  function Find(b: Bucket, key: HashKey): Option<Id> {
    if b == [] then None
    else if b[0].0 == key then Some(b[0].1)
    else Find(b[1..], key)
  }

  predicate Any(b: Bucket, key: HashKey) {
    exists i :: 0 <= i < |b| && b[i].0 == key
  }

  /** The position of the first such row, or the bucket's length. */
  function Position(b: Bucket, key: HashKey, id: Id): (i: nat)
    ensures i <= |b| && (key, id) !in b[..i]
    ensures i < |b| ==> b[i] == (key, id)
  {
    if b == [] || b[0] == (key, id) then 0
    else
      var i := Position(b[1..], key, id);
      assert b[..i + 1] == [b[0]] + b[1..][..i];
      i + 1
  }

  lemma {:induction false} RowsOf(b: Bucket, key: HashKey)
    ensures Rows(b, key) != [] <==> Any(b, key)
    ensures forall id :: id in Rows(b, key) <==> (key, id) in b
  {
    if b != [] {
      var init, row := b[..|b| - 1], b[|b| - 1];
      assert b == init + [row];
      RowsOf(init, key);
      if Any(init, key) {
        var i :| 0 <= i < |init| && init[i].0 == key;
        assert b[i].0 == key;
      }
      forall id ensures (key, id) in b <==> (key, id) in init || row == (key, id) {}
    }
  }

  lemma {:induction false} RowsJoin(a: Bucket, b: Bucket, key: HashKey)
    ensures Rows(a + b, key) == Rows(a, key) + Rows(b, key)
  {
    if b == [] {
      assert a + b == a;
    } else {
      RowsJoin(a, b[..|b| - 1], key);
      assert (a + b)[..|a + b| - 1] == a + b[..|b| - 1];
    }
  }

  lemma RowsOne(row: (HashKey, Id), key: HashKey)
    ensures Rows([row], key) == if row.0 == key then [row.1] else []
  {
    assert [row][..0] == [];
    assert Rows([row][..0], key) == [];
  }

  lemma {:induction false} FindFirst(b: Bucket, key: HashKey)
    ensures Find(b, key) == if Rows(b, key) == [] then None else Some(Rows(b, key)[0])
  {
    if b != [] {
      FindFirst(b[1..], key);
      RowsJoin(b[..1], b[1..], key);
      RowsOne(b[0], key);
      assert b == b[..1] + b[1..] && b[..1] == [b[0]];
    }
  }

  /** Taking out the first row of a key's block takes the block's first entry out of its list. */
  lemma RowsWithout(b: Bucket, i: nat, key: HashKey)
    requires i < |b| && b[i] !in b[..i]
    ensures Rows(b[..i] + b[i + 1..], key)
         == if key == b[i].0 then RemoveFirst(Rows(b, key), b[i].1) else Rows(b, key)
  {
    hide Rows;
    var row, front, back := b[i], b[..i], b[i + 1..];
    RowsJoin(front, back, key);
    RowsJoin([row], back, key);
    RowsJoin(front, [row] + back, key);
    RowsOne(row, key);
    assert b == front + ([row] + back);
    if key == row.0 {
      RowsOf(front, key);
      DropMiddle(Rows(front, key), row.1, Rows(back, key));
    } else {
      assert Rows(front, key) + ([] + Rows(back, key)) == Rows(front, key) + Rows(back, key);
    }
  }

  lemma DropMiddle<T>(a: seq<T>, x: T, b: seq<T>)
    requires x !in a
    ensures RemoveFirst(a + ([x] + b), x) == a + b
  {
    var all := a + ([x] + b);
    assert all[..|a|] == a && all[|a| + 1..] == b;
    RemoveFirstSplit(all, x, |a|);
  }

  /** The two fields of the radix index. */
  datatype Radix = Radix(buckets: map<nat, Bucket>, len: nat)

  ghost function KeySet(bs: map<nat, Bucket>): set<HashKey> {
    set p, i | p in bs && 0 <= i < |bs[p]| :: bs[p][i].0
  }

  ghost function RadixView(r: Radix): IndexMap {
    map k | k in KeySet(r.buckets) :: Rows(BucketAt(r.buckets, Prefix(k)), k)
  }

  /** Rows sit in the bucket of their own prefix, and no bucket is empty. */
  ghost predicate Placed(bs: map<nat, Bucket>) {
    && (forall p, i :: p in bs && 0 <= i < |bs[p]| ==> Prefix(bs[p][i].0) == p)
    && (forall p :: p in bs ==> bs[p] != [])
  }

  /** The buckets are in order and `len` counts the distinct keys. */
  ghost predicate RadixTidy(r: Radix) {
    && Placed(r.buckets)
    && r.len == |KeySet(r.buckets)|
  }

  lemma KeySetMeans(bs: map<nat, Bucket>, k: HashKey)
    requires Placed(bs)
    ensures k in KeySet(bs) <==> Rows(BucketAt(bs, Prefix(k)), k) != []
    ensures k in KeySet(bs) <==> Any(BucketAt(bs, Prefix(k)), k)
  {
    RowsOf(BucketAt(bs, Prefix(k)), k);
    if k in KeySet(bs) {
      var p, i :| p in bs && 0 <= i < |bs[p]| && bs[p][i].0 == k;
      assert BucketAt(bs, Prefix(k))[i].0 == k;
    }
  }

  /** What the journal keeps of the radix index: the whole bucket and the distinct-key count. */
  datatype RadixMark = RadixMark(key: HashKey, prior: Option<Bucket>, len: nat)

  function UndoRadix(r: Radix, u: RadixMark): Radix {
    Radix(PutOr(r.buckets, Prefix(u.key), u.prior), u.len)
  }

  function ReplayRadix(r: Radix, log: seq<RadixMark>): Radix
    decreases |log|
  {
    if log == [] then r else ReplayRadix(UndoRadix(r, log[|log| - 1]), log[..|log| - 1])
  }

  /** The buckets with one replaced; an empty bucket is dropped. */
  function PutBucket(bs: map<nat, Bucket>, p: nat, b: Bucket): map<nat, Bucket> {
    if b == [] then bs - {p} else bs[p := b]
  }

  lemma PutPlaced(bs: map<nat, Bucket>, p: nat, b: Bucket)
    requires Placed(bs)
    requires forall i :: 0 <= i < |b| ==> Prefix(b[i].0) == p
    ensures Placed(PutBucket(bs, p, b))
  {
    hide Prefix;
  }

  /** One bucket replaced, and in it only one key's rows: the map changes at that key alone. */
  lemma ViewAfter(r: Radix, b: Bucket, len: nat, key: HashKey, m: IndexMap)
    requires RadixTidy(r)
    requires forall i :: 0 <= i < |b| ==> Prefix(b[i].0) == Prefix(key)
    requires forall k: HashKey :: k != key && Prefix(k) == Prefix(key) ==>
               Rows(b, k) == Rows(BucketAt(r.buckets, Prefix(k)), k)
    requires Elsewhere(m, RadixView(r), key)
    requires key in m <==> Rows(b, key) != []
    requires key in m ==> m[key] == Rows(b, key)
    requires len == |m|
    ensures RadixTidy(Radix(PutBucket(r.buckets, Prefix(key), b), len))
    ensures RadixView(Radix(PutBucket(r.buckets, Prefix(key), b), len)) == m
  {
    hide Prefix, Rows, PutBucket, Placed, KeySet, Elsewhere, BucketAt, RadixView;
    var bs: map<nat, Bucket> := PutBucket(r.buckets, Prefix(key), b);
    PutPlaced(r.buckets, Prefix(key), b);
    forall k
      ensures k in KeySet(bs) <==> k in m
      ensures k in m ==> m[k] == Rows(BucketAt(bs, Prefix(k)), k)
    {
      OneKey(r, b, key, m, k);
    }
    ViewIs(Radix(bs, len), m);
  }

  lemma ViewIs(r: Radix, m: IndexMap)
    requires Placed(r.buckets) && r.len == |m|
    requires forall k: HashKey :: k in KeySet(r.buckets) <==> k in m
    requires forall k: HashKey :: k in m ==> m[k] == Rows(BucketAt(r.buckets, Prefix(k)), k)
    ensures RadixTidy(r) && RadixView(r) == m
  {
    hide Prefix, Rows, Placed, KeySet, BucketAt;
    assert KeySet(r.buckets) == m.Keys;
    assert |m.Keys| == |m|;
  }

  lemma OneKey(r: Radix, b: Bucket, key: HashKey, m: IndexMap, k: HashKey)
    requires RadixTidy(r)
    requires forall i :: 0 <= i < |b| ==> Prefix(b[i].0) == Prefix(key)
    requires k != key && Prefix(k) == Prefix(key) ==> Rows(b, k) == Rows(BucketAt(r.buckets, Prefix(k)), k)
    requires Elsewhere(m, RadixView(r), key)
    requires key in m <==> Rows(b, key) != []
    requires key in m ==> m[key] == Rows(b, key)
    ensures k in KeySet(PutBucket(r.buckets, Prefix(key), b)) <==> k in m
    ensures k in m ==> m[k] == Rows(BucketAt(PutBucket(r.buckets, Prefix(key), b), Prefix(k)), k)
  {
    hide Prefix, Rows;
    var bs: map<nat, Bucket> := PutBucket(r.buckets, Prefix(key), b);
    PutPlaced(r.buckets, Prefix(key), b);
    KeySetMeans(bs, k);
    KeySetMeans(r.buckets, k);
    assert BucketAt(bs, Prefix(k)) == if Prefix(k) == Prefix(key) then b else BucketAt(r.buckets, Prefix(k));
    if k != key {
      assert k in m <==> k in RadixView(r);
    }
  }

  lemma RadixSize(r: Radix)
    requires RadixTidy(r)
    ensures |RadixView(r)| == r.len
  {
    assert RadixView(r).Keys == KeySet(r.buckets);
    assert |RadixView(r).Keys| == |RadixView(r)|;
  }

  lemma RowsPush(b: Bucket, key: HashKey, id: Id, k: HashKey)
    ensures Rows(b + [(key, id)], k) == Rows(b, k) + (if k == key then [id] else [])
  {
    RowsJoin(b, [(key, id)], k);
    RowsOne((key, id), k);
  }

  lemma InsertOne(m: IndexMap, key: HashKey, id: Id)
    requires !Contain(m, key, id)
    ensures Elsewhere(Insert(m, key, id), m, key) && key in Insert(m, key, id)
    ensures Insert(m, key, id)[key] == (if key in m then m[key] else []) + [id]
    ensures |Insert(m, key, id)| == if key in m then |m| else |m| + 1
  {
    var r := Insert(m, key, id);
    assert r.Keys == m.Keys + {key};
    assert |r.Keys| == |r| && |m.Keys| == |m|;
  }

  lemma AddView(r: Radix, key: HashKey, id: Id)
    requires RadixTidy(r) && !Contain(RadixView(r), key, id)
    ensures var b := BucketAt(r.buckets, Prefix(key)) + [(key, id)];
            var s := Radix(PutBucket(r.buckets, Prefix(key), b), if key in RadixView(r) then r.len else r.len + 1);
            RadixTidy(s) && RadixView(s) == Insert(RadixView(r), key, id)
  {
    hide Prefix, KeySet, Rows, PutBucket, Elsewhere, Insert;
    var b := BucketAt(r.buckets, Prefix(key));
    var m := Insert(RadixView(r), key, id);
    KeySetMeans(r.buckets, key);
    RadixSize(r);
    InsertOne(RadixView(r), key, id);
    forall k: HashKey ensures Rows(b + [(key, id)], k) == Rows(b, k) + (if k == key then [id] else [])
    {
      RowsPush(b, key, id, k);
    }
    ViewAfter(r, b + [(key, id)], |m|, key, m);
  }

  lemma RemoveView(r: Radix, key: HashKey, id: Id, i: nat)
    requires RadixTidy(r) && Prefix(key) in r.buckets
    requires i < |r.buckets[Prefix(key)]| && r.buckets[Prefix(key)][i] == (key, id)
    requires (key, id) !in r.buckets[Prefix(key)][..i]
    ensures var b := r.buckets[Prefix(key)];
            var rest := b[..i] + b[i + 1..];
            key in RadixView(r) && r.len > 0 &&
            var s := Radix(PutBucket(r.buckets, Prefix(key), rest), if Any(rest, key) then r.len else r.len - 1);
            RadixTidy(s) && RadixView(s) == Pop(RadixView(r), key, id)
  {
    hide Prefix, KeySet, Rows;
    var b := r.buckets[Prefix(key)];
    var rest := b[..i] + b[i + 1..];
    var view := RadixView(r);
    var m := Pop(view, key, id);
    KeySetMeans(r.buckets, key);
    RowsOf(b, key);
    RowsOf(rest, key);
    RadixSize(r);
    forall k: HashKey ensures Rows(rest, k) == if k == key then RemoveFirst(Rows(b, k), id) else Rows(b, k)
    {
      RowsWithout(b, i, k);
    }
    assert b[i].0 == key && Any(b, key);
    assert (view - {key}).Keys == view.Keys - {key};
    assert |(view - {key}).Keys| == |view - {key}| && |view.Keys| == |view|;
    ViewAfter(r, rest, |m|, key, m);
  }

  class RadixIndex {
    var buckets: map<nat, Bucket>
    var len: nat

    constructor ()
      ensures Cells() == Radix(map[], 0) && RadixTidy(Cells()) && RadixView(Cells()) == map[]
    {
      buckets, len := map[], 0;
      new;
      assert KeySet(map[]) == {};
    }

    ghost function Cells(): Radix
      reads this
    {
      Radix(buckets, len)
    }

    method GetOneBlock(key: HashKey) returns (found: Option<Id>)
      requires RadixTidy(Cells())
      ensures found == GetOne(RadixView(Cells()), key)
    {
      KeySetMeans(buckets, key);
      if Prefix(key) !in buckets {
        return None;
      }
      var b := buckets[Prefix(key)];
      FindFirst(b, key);
      found := Find(b, key);
    }

    method Contains(key: HashKey, id: Id) returns (yes: bool)
      requires RadixTidy(Cells())
      ensures yes == Contain(RadixView(Cells()), key, id)
    {
      KeySetMeans(buckets, key);
      if Prefix(key) !in buckets {
        return false;
      }
      var b := buckets[Prefix(key)];
      RowsOf(b, key);
      yes := (key, id) in b;
    }

    method Add(key: HashKey, id: Id)
      requires RadixTidy(Cells())
      modifies this
      ensures RadixTidy(Cells())
      ensures RadixView(Cells()) == Insert(old(RadixView(Cells())), key, id)
      ensures Elsewhere(buckets, old(buckets), Prefix(key))
    {
      hide Prefix, Rows, KeySet;
      ghost var was := Cells();
      var p := Prefix(key);
      var b := BucketAt(buckets, p);
      KeySetMeans(buckets, key);
      RowsOf(b, key);
      if (key, id) in b {
        return;
      }
      RadixSize(was);
      if !Any(b, key) {
        len := len + 1;
      }
      buckets := buckets[p := b + [(key, id)]];
      AddView(was, key, id);
    }

    method Remove(key: HashKey, id: Id) returns (found: Option<Id>)
      requires RadixTidy(Cells())
      modifies this
      ensures RadixTidy(Cells())
      ensures RadixView(Cells()) == Pop(old(RadixView(Cells())), key, id)
      ensures found == if Contain(old(RadixView(Cells())), key, id) then Some(id) else None
      ensures Elsewhere(buckets, old(buckets), Prefix(key))
    {
      hide Prefix, Rows, KeySet;
      ghost var was := Cells();
      var p := Prefix(key);
      KeySetMeans(buckets, key);
      RowsOf(BucketAt(buckets, p), key);
      if p !in buckets {
        return None;
      }
      var b := buckets[p];
      var i := Position(b, key, id);
      if i == |b| {
        assert b[..i] == b;
        return None;
      }
      found := Some(b[i].1);
      var rest := b[..i] + b[i + 1..];
      RemoveView(was, key, id, i);
      if !Any(rest, key) {
        len := len - 1;
      }
      buckets := if rest == [] then buckets - {p} else buckets[p := rest];
    }

    method Perform(op: Op) returns (answer: Answer)
      requires RadixTidy(Cells())
      modifies this
      ensures RadixTidy(Cells())
      ensures RadixView(Cells()) == StepView(old(RadixView(Cells())), op)
      ensures answer == AnswerTo(old(RadixView(Cells())), op)
      ensures op.Inserting? || op.Popping? ==> Elsewhere(buckets, old(buckets), Prefix(op.key))
      ensures op.Asking? || op.Checking? || op.Measuring? ==> Cells() == old(Cells())
    {
      answer := Quiet;
      match op {
        case Inserting(k, b) => Add(k, b);
        case Popping(k, b) =>
          var found := Remove(k, b);
          answer := Block(found);
        case Asking(k) =>
          var found := GetOneBlock(k);
          answer := Block(found);
        case Checking(k, b) =>
          var yes := Contains(k, b);
          answer := Holds(yes);
        case Measuring =>
          RadixSize(Cells());
          answer := Keys(len);
        case Clearing =>
          buckets, len := map[], 0;
          assert KeySet(map[]) == {};
      }
    }

    /**
     * A speculative run: every write is preceded by a snapshot of the whole bucket and `len`.
     * Keys that share the bucket may be written in between; the reversed replay is still exact.
     */
    method RunArmed(ops: seq<Op>) returns (log: seq<RadixMark>)
      requires RadixTidy(Cells()) && Recorded(ops)
      modifies this
      ensures RadixTidy(Cells())
      ensures RadixView(Cells()) == RunView(old(RadixView(Cells())), ops)
      ensures ReplayRadix(Cells(), log) == old(Cells())
    {
      log := [];
      for i := 0 to |ops|
        invariant RadixTidy(Cells())
        invariant RadixView(Cells()) == RunView(old(RadixView(Cells())), ops[..i])
        invariant ReplayRadix(Cells(), log) == old(Cells())
      {
        var op := ops[i];
        assert ops[..i + 1][..i] == ops[..i];
        if op.Inserting? || op.Popping? {
          ghost var was := Cells();
          var mark := RadixMark(op.key, Get(buckets, Prefix(op.key)), len);
          var _ := Perform(op);
          assert UndoRadix(Cells(), mark) == was by { PutBack(was.buckets, buckets, Prefix(op.key)); }
          assert (log + [mark])[..|log|] == log;
          log := log + [mark];
        } else {
          var _ := Perform(op);
        }
      }
      assert ops[..|ops|] == ops;
    }

    method Rollback(log: seq<RadixMark>)
      modifies this
      ensures Cells() == ReplayRadix(old(Cells()), log)
    {
      var n := |log|;
      assert log[..n] == log;
      while n > 0
        invariant 0 <= n <= |log|
        invariant ReplayRadix(Cells(), log[..n]) == ReplayRadix(old(Cells()), log)
      {
        n := n - 1;
        assert log[..n + 1][..n] == log[..n];
        match log[n].prior {
          case Some(b) => buckets := buckets[Prefix(log[n].key) := b];
          case None => buckets := buckets - {Prefix(log[n].key)};
        }
        len := log[n].len;
      }
    }
  }

  // ---- parity -----------------------------------------------------------------------

  /**
   * The two indexes side by side: from the same content, every sequence of calls gets the same
   * answers from both, those of the plain map, and leaves them with the same content.
   */
  method Mirror(flat: HashIndex, radix: RadixIndex, ops: seq<Op>) returns (a: seq<Answer>, b: seq<Answer>)
    requires FlatTidy(flat.entries) && RadixTidy(radix.Cells())
    requires FlatView(flat.entries) == RadixView(radix.Cells())
    modifies flat, radix
    ensures a == b == Answers(old(FlatView(flat.entries)), ops)
    ensures FlatView(flat.entries) == RadixView(radix.Cells()) == RunView(old(FlatView(flat.entries)), ops)
    ensures FlatTidy(flat.entries) && RadixTidy(radix.Cells())
  {
    a, b := [], [];
    ghost var start := FlatView(flat.entries);
    for i := 0 to |ops|
      invariant FlatTidy(flat.entries) && RadixTidy(radix.Cells())
      invariant FlatView(flat.entries) == RadixView(radix.Cells()) == RunView(start, ops[..i])
      invariant a == b == Answers(start, ops[..i])
    {
      assert ops[..i + 1][..i] == ops[..i];
      var x := flat.Perform(ops[i]);
      var y := radix.Perform(ops[i]);
      a, b := a + [x], b + [y];
    }
    assert ops[..|ops|] == ops;
  }

  /** Armed, run, rolled back: both indexes hold exactly what they held, field by field. */
  method Speculate(flat: HashIndex, radix: RadixIndex, ops: seq<Op>)
    requires FlatTidy(flat.entries) && RadixTidy(radix.Cells()) && Recorded(ops)
    modifies flat, radix
    ensures flat.entries == old(flat.entries)
    ensures radix.buckets == old(radix.buckets) && radix.len == old(radix.len)
  {
    var f := flat.RunArmed(ops);
    var r := radix.RunArmed(ops);
    flat.Rollback(f);
    radix.Rollback(r);
    assert radix.Cells() == old(radix.Cells());
  }

  // ---- which duplicate wins ---------------------------------------------------------

  /** The `i`-th call inserted a block under the key, and nothing since has taken it out. */
  ghost predicate Standing(ops: seq<Op>, key: HashKey, i: nat) {
    && i < |ops| && ops[i].Inserting? && ops[i].key == key
    && forall j :: i < j < |ops| ==> ops[j] != Popping(key, ops[i].id) && ops[j] != Clearing
  }

  /** Since which call the block has been under the key without a break. */
  function Since(ops: seq<Op>, key: HashKey, b: Id): (r: Option<nat>)
    ensures r.Some? ==> r.value < |ops|
  {
    if ops == [] then None
    else
      var init, op := ops[..|ops| - 1], ops[|ops| - 1];
      if op == Popping(key, b) || op == Clearing then None
      else if Since(init, key, b).None? && op == Inserting(key, b) then Some(|init|)
      else Since(init, key, b)
  }

  lemma StandingInit(ops: seq<Op>, key: HashKey, i: nat)
    requires i < |ops| - 1 && ops[i].Inserting?
    ensures var op := ops[|ops| - 1];
      Standing(ops, key, i) <==>
        Standing(ops[..|ops| - 1], key, i) && op != Popping(key, ops[i].id) && op != Clearing
  {
    var init := ops[..|ops| - 1];
    forall j | i <= j < |init| ensures init[j] == ops[j] {}
  }

  /** `Since` is the block's earliest standing insertion. */
  lemma {:induction false} SinceIs(ops: seq<Op>, key: HashKey, b: Id)
    ensures Since(ops, key, b).None? ==> forall i: nat :: Standing(ops, key, i) ==> ops[i].id != b
    ensures var r := Since(ops, key, b);
      r.Some? ==> Standing(ops, key, r.value) && ops[r.value].id == b
                  && forall i: nat :: i < r.value && Standing(ops, key, i) ==> ops[i].id != b
  {
    hide Standing;
    if ops == [] {
      forall i: nat ensures !Standing(ops, key, i) { NoCalls(key, i); }
    } else {
      var n := |ops| - 1;
      var init := ops[..n];
      SinceIs(init, key, b);
      if Since(init, key, b).Some? { StandingAt(init, key, Since(init, key, b).value); }
      StandingLast(ops, key);
      forall i: nat | i < n && ops[i].Inserting?
        ensures Standing(ops, key, i) <==>
                  Standing(init, key, i) && ops[n] != Popping(key, ops[i].id) && ops[n] != Clearing
      {
        StandingInit(ops, key, i);
      }
      forall i: nat ensures Standing(ops, key, i) ==> i <= n && ops[i].Inserting?
      {
        if Standing(ops, key, i) { StandingAt(ops, key, i); }
      }
    }
  }

  lemma NoCalls(key: HashKey, i: nat)
    ensures !Standing([], key, i)
  {}

  lemma StandingLast(ops: seq<Op>, key: HashKey)
    requires ops != []
    ensures Standing(ops, key, |ops| - 1) <==> ops[|ops| - 1].Inserting? && ops[|ops| - 1].key == key
    ensures forall i: nat :: i >= |ops| ==> !Standing(ops, key, i)
  {}

  function Under(m: IndexMap, key: HashKey): seq<Id> { if key in m then m[key] else [] }

  /** The blocks under a key are those inserted and still standing, earliest first. */
  ghost predicate InOrder(ops: seq<Op>, key: HashKey, l: seq<Id>) {
    && (forall b :: b in l <==> Since(ops, key, b).Some?)
    && (forall p, q :: 0 <= p < q < |l| ==> Since(ops, key, l[p]).value < Since(ops, key, l[q]).value)
  }

  lemma UnderStep(m: IndexMap, op: Op, key: HashKey)
    requires key in m ==> m[key] != []
    ensures var l := Under(m, key);
      Under(StepView(m, op), key) ==
        if op.Clearing? then []
        else if op.Inserting? && op.key == key && op.id !in l then l + [op.id]
        else if op.Popping? && op.key == key && op.id in l then RemoveFirst(l, op.id)
        else l
    ensures key in StepView(m, op) ==> StepView(m, op)[key] != []
  {}

  lemma SinceStep(ops: seq<Op>, op: Op, key: HashKey, b: Id)
    ensures Since(ops + [op], key, b) ==
      if op == Popping(key, b) || op == Clearing then None
      else if Since(ops, key, b).None? && op == Inserting(key, b) then Some(|ops|)
      else Since(ops, key, b)
  {
    assert (ops + [op])[..|ops|] == ops;
  }

  lemma OrderStep(ops: seq<Op>, op: Op, key: HashKey, l: seq<Id>, r: seq<Id>)
    requires InOrder(ops, key, l)
    requires r == if op.Clearing? then []
                  else if op.Inserting? && op.key == key && op.id !in l then l + [op.id]
                  else if op.Popping? && op.key == key && op.id in l then RemoveFirst(l, op.id)
                  else l
    ensures InOrder(ops + [op], key, r)
  {
    if op.Inserting? && op.key == key && op.id !in l {
      OrderInsert(ops, op, key, l);
    } else if op.Popping? && op.key == key && op.id in l {
      OrderPop(ops, op, key, l);
    } else {
      hide Since;
      forall b: Id ensures Since(ops + [op], key, b) == if op.Clearing? then None else Since(ops, key, b)
      {
        SinceStep(ops, op, key, b);
      }
    }
  }

  lemma OrderInsert(ops: seq<Op>, op: Op, key: HashKey, l: seq<Id>)
    requires InOrder(ops, key, l) && op.Inserting? && op.key == key && op.id !in l
    ensures InOrder(ops + [op], key, l + [op.id])
  {
    hide Since;
    forall b: Id ensures Since(ops + [op], key, b) == if b == op.id then Some(|ops|) else Since(ops, key, b)
    {
      SinceStep(ops, op, key, b);
    }
  }

  lemma OrderPop(ops: seq<Op>, op: Op, key: HashKey, l: seq<Id>)
    requires InOrder(ops, key, l) && op.Popping? && op.key == key && op.id in l
    ensures InOrder(ops + [op], key, RemoveFirst(l, op.id))
  {
    hide RemoveFirst, Since;
    forall b: Id ensures Since(ops + [op], key, b) == if b == op.id then None else Since(ops, key, b)
    {
      SinceStep(ops, op, key, b);
    }
    OrderDistinct(ops, key, l);
    RemoveFirstDistinct(l, op.id);
    OrderWithout(ops, key, l, op.id);
  }

  lemma OrderDistinct(ops: seq<Op>, key: HashKey, l: seq<Id>)
    requires InOrder(ops, key, l)
    ensures Distinct(l)
  {}

  /** Removing one block keeps the others in order. */
  lemma OrderWithout(ops: seq<Op>, key: HashKey, l: seq<Id>, b: Id)
    requires InOrder(ops, key, l) && b in l
    ensures var r := RemoveFirst(l, b);
      && (forall p :: 0 <= p < |r| ==> r[p] in l)
      && forall p, q :: 0 <= p < q < |r| ==> Since(ops, key, r[p]).value < Since(ops, key, r[q]).value
  {
    hide RemoveFirst, Since;
    OrderDistinct(ops, key, l);
    var k :| 0 <= k < |l| && l[k] == b;
    RemoveFirstSplit(l, b, k);
  }

  lemma {:induction false} RunInOrder(ops: seq<Op>, key: HashKey)
    ensures InOrder(ops, key, Under(RunView(map[], ops), key))
    ensures key in RunView(map[], ops) ==> RunView(map[], ops)[key] != []
  {
    hide InOrder;
    if ops == [] {
      assert InOrder([], key, []) by { NothingStands(key); }
    } else {
      var init, op := ops[..|ops| - 1], ops[|ops| - 1];
      RunInOrder(init, key);
      UnderStep(RunView(map[], init), op, key);
      OrderStep(init, op, key, Under(RunView(map[], init), key), Under(RunView(map[], ops), key));
      assert init + [op] == ops;
    }
  }

  lemma NothingStands(key: HashKey)
    ensures InOrder([], key, [])
  {}

  /**
   * After any calls on a new index, the block answered for a key is that of the earliest insertion
   * still standing: never popped since, and not cleared. Popping the block that won hands over to
   * the next such insertion; without one, nothing is answered.
   */
  lemma EarliestWins(ops: seq<Op>, key: HashKey)
    ensures var found := GetOne(RunView(map[], ops), key);
      && (found.None? ==> forall i: nat :: !Standing(ops, key, i))
      && (found.Some? ==> exists i: nat :: FirstStanding(ops, key, i) && ops[i].id == found.value)
  {
    hide Standing, RunView;
    RunInOrder(ops, key);
    var l := Under(RunView(map[], ops), key);
    if l == [] {
      forall i: nat ensures !Standing(ops, key, i)
      {
        if Standing(ops, key, i) {
          StandingAt(ops, key, i);
          SinceIs(ops, key, ops[i].id);
        }
      }
    } else {
      SinceIs(ops, key, l[0]);
      var i := Since(ops, key, l[0]).value;
      forall j: nat | j < i ensures !Standing(ops, key, j)
      {
        if Standing(ops, key, j) { NoneBefore(ops, key, l, j); }
      }
      StandingAt(ops, key, i);
      assert FirstStanding(ops, key, i);
    }
  }

  /** A standing insertion is no earlier than the first block's. */
  lemma NoneBefore(ops: seq<Op>, key: HashKey, l: seq<Id>, j: nat)
    requires InOrder(ops, key, l) && l != [] && Standing(ops, key, j)
    ensures Since(ops, key, l[0]).value <= j
  {
    hide Standing, Since;
    StandingAt(ops, key, j);
    SinceIs(ops, key, ops[j].id);
    var q :| 0 <= q < |l| && l[q] == ops[j].id;
  }

  lemma StandingAt(ops: seq<Op>, key: HashKey, i: nat)
    requires Standing(ops, key, i)
    ensures i < |ops| && ops[i] == Inserting(key, ops[i].id)
  {}

  ghost predicate FirstStanding(ops: seq<Op>, key: HashKey, i: nat) {
    i < |ops| && Standing(ops, key, i) && ops[i].Inserting? && forall j: nat :: j < i ==> !Standing(ops, key, j)
  }
}
