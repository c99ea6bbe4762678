/** Types and small sequence facts shared by every module of the model. */
module Basics {
  datatype Option<+T> = None | Some(value: T)

  /** A block id, and a request slot; both are `u32` in the program. */
  type Id = nat
  type Slot = nat

  type Pos = x: int | x > 0 witness 1

  type Byte = x: int | 0 <= x < 256

  /** A 32-byte block hash. */
  type Digest = d: seq<Byte> | |d| == 32 witness seq(32, _ => 0)

  /** A block hash paired with the KV-cache group it belongs to. */
  datatype HashKey = HashKey(hash: Digest, group: nat)

  /** The null block: the first block of the pool, reserved at construction. */
  const NULL: Id := 0

  function Min(a: int, b: int): int { if a <= b then a else b }

  function Max(a: int, b: int): int { if a >= b then a else b }

  /** Ceiling division. */
  function CDiv(a: nat, b: Pos): nat { (a + b - 1) / b }

  lemma MulOrder(a: int, b: int, k: Pos)
    ensures a < b <==> a * k < b * k
    ensures a == b <==> a * k == b * k
  {}

  lemma FloorBounds(a: nat, b: Pos)
    ensures a / b * b <= a < a / b * b + b
  {
    assert a == a / b * b + a % b;
  }

  lemma CDivBounds(a: nat, b: Pos)
    ensures CDiv(a, b) * b >= a
    ensures CDiv(a, b) > 0 ==> (CDiv(a, b) - 1) * b < a
    ensures a > 0 ==> CDiv(a, b) > 0
  {
    var q := CDiv(a, b);
    FloorBounds(a + b - 1, b);
    assert (q - 1) * b == q * b - b;
    MulOrder(0, q, b);
  }

  /** Saturating subtraction. */
  function Monus(a: nat, b: nat): nat { if a >= b then a - b else 0 }

  /** A release-mode `usize` subtraction: it wraps modulo 2^64. */
  function Sub64(a: int, b: int): nat { (a - b) % 0x1_0000_0000_0000_0000 }

  predicate Distinct<T(==)>(s: seq<T>) {
    forall i, j :: 0 <= i < j < |s| ==> s[i] != s[j]
  }

  function Repeat<T>(x: T, n: nat): (r: seq<T>)
    ensures |r| == n && forall i :: 0 <= i < n ==> r[i] == x
  {
    seq(n, _ => x)
  }

  function Reverse<T>(s: seq<T>): (r: seq<T>)
    ensures |r| == |s| && forall i :: 0 <= i < |s| ==> r[i] == s[|s| - 1 - i]
  {
    seq(|s|, i requires 0 <= i < |s| => s[|s| - 1 - i])
  }

  /** The sequence without the first occurrence of `x`. */
  function RemoveFirst<T(==)>(s: seq<T>, x: T): seq<T> {
    if s == [] then []
    else if s[0] == x then s[1..]
    else [s[0]] + RemoveFirst(s[1..], x)
  }

  lemma {:induction false} RemoveFirstMultiset<T>(s: seq<T>, x: T)
    ensures multiset(RemoveFirst(s, x)) == multiset(s) - multiset{x}
    ensures |RemoveFirst(s, x)| == |s| - (if x in s then 1 else 0)
  {
    if s == [] {
    } else {
      assert s == [s[0]] + s[1..];
      RemoveFirstMultiset(s[1..], x);
    }
  }

  lemma {:induction false} ReverseMultiset<T>(s: seq<T>)
    ensures multiset(Reverse(s)) == multiset(s)
    ensures forall x :: x in Reverse(s) <==> x in s
  {
    if s == [] {
    } else {
      var r := Reverse(s[1..]);
      ReverseMultiset(s[1..]);
      assert s == [s[0]] + s[1..];
      assert Reverse(s) == r + [s[0]];
    }
  }

  lemma CountTwice<T>(s: seq<T>, i: nat, j: nat)
    requires i < j < |s| && s[i] == s[j]
    ensures multiset(s)[s[i]] >= 2
  {
    assert s == s[..j] + s[j..];
    assert s[i] in s[..j] && s[i] in s[j..];
  }

  lemma {:induction false} DistinctOnce<T>(s: seq<T>, x: T)
    requires Distinct(s)
    ensures multiset(s)[x] <= 1
  {
    if s != [] {
      assert s == [s[0]] + s[1..];
      assert s[0] !in s[1..];
      DistinctOnce(s[1..], x);
    }
  }

  /** Distinctness and multiplicity at most one are the same thing. */
  lemma DistinctMultiset<T>(s: seq<T>)
    ensures Distinct(s) <==> forall x :: multiset(s)[x] <= 1
  {
    if Distinct(s) {
      forall x ensures multiset(s)[x] <= 1 { DistinctOnce(s, x); }
    } else {
      var i, j :| 0 <= i < j < |s| && s[i] == s[j];
      CountTwice(s, i, j);
    }
  }

  lemma DistinctExtend<T>(s: seq<T>, x: T)
    requires Distinct(s) && x !in s
    ensures Distinct([x] + s) && Distinct(s + [x])
  {}

  lemma {:induction false} RemoveFirstSplit<T>(s: seq<T>, x: T, k: nat)
    requires k < |s| && s[k] == x && x !in s[..k]
    ensures RemoveFirst(s, x) == s[..k] + s[k + 1..]
  {
    if k == 0 {
    } else {
      assert s[0] == s[..k][0] != x;
      var rest := s[1..];
      assert rest[..k - 1] == s[..k][1..];
      RemoveFirstSplit(rest, x, k - 1);
      assert s[..k] + s[k + 1..] == [s[0]] + (rest[..k - 1] + rest[k..]);
    }
  }

  lemma RemoveFirstDistinct<T>(s: seq<T>, x: T)
    requires Distinct(s)
    ensures Distinct(RemoveFirst(s, x))
    ensures forall y :: y in RemoveFirst(s, x) <==> y in s && y != x
  {
    RemoveFirstMultiset(s, x);
    DistinctMultiset(s);
    DistinctMultiset(RemoveFirst(s, x));
    forall y ensures y in RemoveFirst(s, x) <==> y in s && y != x {
      assert y in RemoveFirst(s, x) <==> y in multiset(RemoveFirst(s, x));
      assert y in s <==> y in multiset(s);
    }
  }
}
