/**
 * The free queue threaded through the block array: `prev`/`next` ids between a head and a tail
 * sentinel, and why each relinking performs the corresponding sequence operation.
 */
module FreeQueue {
  import opened Basics
  import opened PoolSpec

  /** `u32::MAX`: no link. */
  const NIL: nat := 0xFFFF_FFFF

  datatype Block = Block(meta: Meta, prev: nat, next: nat)

  /** The blocks of a pool of `n`, then the head sentinel `n` and the tail sentinel `n + 1`. */
  type Arena = seq<Block>

  /** The chain head, q[0], .., tail; index -1 is the head, |q| the tail. */
  function Node(n: nat, q: seq<Id>, i: int): nat
    requires -1 <= i <= |q|
  {
    if i < 0 then n else if i == |q| then n + 1 else q[i]
  }

  /** `q` is threaded through `a`: forward and backward links mutually inverse along the chain,
      every other block unlinked. */
  ghost predicate Chain(a: Arena, n: nat, q: seq<Id>) {
    && |a| == n + 2 && n + 2 <= NIL && Distinct(q)
    && (forall i :: 0 <= i < |q| ==> q[i] < n)
    && (forall i :: -1 <= i < |q| ==> a[Node(n, q, i)].next == Node(n, q, i + 1))
    && (forall i :: 0 <= i <= |q| ==> a[Node(n, q, i)].prev == Node(n, q, i - 1))
    && (forall b :: 0 <= b < n && b !in q ==> a[b].prev == NIL && a[b].next == NIL)
    && a[n].prev == NIL && a[n + 1].next == NIL
  }

  /** The `k` blocks reached by following `next` from `cur`. */
  function Order(a: Arena, cur: nat, k: nat): seq<Id>
    decreases k
  {
    if k == 0 || cur >= |a| then [] else [a[cur].next] + Order(a, a[cur].next, k - 1)
  }

  function Metas(a: Arena, n: nat): (r: seq<Meta>)
    ensures |r| == n
  {
    seq(n, b requires 0 <= b < n => if b < |a| then a[b].meta else BLANK)
  }

  /** Walking the links recovers the queue, so the queue is a function of the arena. */
  lemma {:induction false} OrderFrom(a: Arena, n: nat, q: seq<Id>, i: nat)
    requires Chain(a, n, q) && i <= |q|
    ensures Order(a, Node(n, q, i - 1), |q| - i) == q[i..]
    decreases |q| - i
  {
    if i < |q| {
      OrderFrom(a, n, q, i + 1);
      assert a[Node(n, q, i - 1)].next == Node(n, q, i) == q[i];
      assert q[i..] == [q[i]] + q[i + 1..];
    }
  }

  lemma OrderIs(a: Arena, n: nat, q: seq<Id>)
    requires Chain(a, n, q)
    ensures Order(a, n, |q|) == q
  {
    OrderFrom(a, n, q, 0);
  }

  lemma ChainNext(a: Arena, n: nat, q: seq<Id>, i: int)
    requires Chain(a, n, q) && -1 <= i < |q|
    ensures Node(n, q, i) < |a| && a[Node(n, q, i)].next == Node(n, q, i + 1) && Node(n, q, i + 1) < NIL
  {}

  lemma ChainPrev(a: Arena, n: nat, q: seq<Id>, i: int)
    requires Chain(a, n, q) && 0 <= i <= |q|
    ensures Node(n, q, i) < |a| && a[Node(n, q, i)].prev == Node(n, q, i - 1)
  {}

  lemma ChainShape(a: Arena, n: nat, q: seq<Id>)
    requires Chain(a, n, q)
    ensures |a| == n + 2 && n + 2 <= NIL && Distinct(q) && forall i :: 0 <= i < |q| ==> q[i] < n
  {}

  /** A block is queued exactly when it is linked. */
  lemma ChainLinked(a: Arena, n: nat, q: seq<Id>, b: Id)
    requires Chain(a, n, q) && b < n
    ensures b in q <==> a[b].prev != NIL && a[b].next != NIL
  {
    if b in q {
      var k :| 0 <= k < |q| && q[k] == b;
      ChainNext(a, n, q, k);
      ChainPrev(a, n, q, k);
      if k > 0 { ChainNext(a, n, q, k - 1); }
    }
  }

  /** Bookkeeping is independent of the links. */
  lemma RelabelChain(a: Arena, n: nat, q: seq<Id>, b: Id, m: Meta)
    requires Chain(a, n, q) && b < n
    ensures Chain(a[b := a[b].(meta := m)], n, q)
    ensures Metas(a[b := a[b].(meta := m)], n) == Metas(a, n)[b := m]
  {
    var r := a[b := a[b].(meta := m)];
    forall x | 0 <= x < |a| ensures r[x].prev == a[x].prev && r[x].next == a[x].next {}
    forall i | -1 <= i < |q| ensures r[Node(n, q, i)].next == Node(n, q, i + 1) {
      assert a[Node(n, q, i)].next == Node(n, q, i + 1);
    }
    forall i | 0 <= i <= |q| ensures r[Node(n, q, i)].prev == Node(n, q, i - 1) {
      assert a[Node(n, q, i)].prev == Node(n, q, i - 1);
    }
  }

  /** Dropping every block's hash leaves the links alone. */
  lemma StrippedChain(a: Arena, r: Arena, n: nat, q: seq<Id>)
    requires Chain(a, n, q) && |r| == |a|
    requires forall x :: 0 <= x < |a| ==> r[x] == a[x].(meta := Stripped(a[x].meta))
    ensures Chain(r, n, q)
    ensures Metas(r, n) == seq(n, b requires 0 <= b < n => Stripped(Metas(a, n)[b]))
  {
    hide Stripped;
    forall i | -1 <= i < |q| ensures r[Node(n, q, i)].next == Node(n, q, i + 1) {
      assert a[Node(n, q, i)].next == Node(n, q, i + 1);
    }
    forall i | 0 <= i <= |q| ensures r[Node(n, q, i)].prev == Node(n, q, i - 1) {
      assert a[Node(n, q, i)].prev == Node(n, q, i - 1);
    }
  }

  function Next(b: Block, x: nat): Block { b.(next := x) }
  function Prev(b: Block, x: nat): Block { b.(prev := x) }
  function Cut(b: Block): Block { b.(prev := NIL, next := NIL) }

  // ---- taking the front -------------------------------------------------------------

  function Unlinked(a: Arena, ids: seq<Id>): (r: Arena)
    ensures |r| == |a|
  {
    seq(|a|, b requires 0 <= b < |a| => if b in ids then Cut(a[b]) else a[b])
  }

  lemma UnlinkNone(a: Arena, q: seq<Id>)
    ensures Unlinked(a, q[..0]) == a
  {}

  lemma UnlinkNext(a: Arena, q: seq<Id>, i: nat)
    requires i < |q| && q[i] < |a| && Distinct(q)
    ensures Unlinked(a, q[..i])[q[i]] == a[q[i]]
    ensures Unlinked(a, q[..i + 1]) == Unlinked(a, q[..i])[q[i] := Cut(Unlinked(a, q[..i])[q[i]])]
  {
    assert q[..i + 1] == q[..i] + [q[i]];
  }

  /** Bridging the head to the rest after the first `k` blocks were cut. */
  function PopFront(a: Arena, n: nat, q: seq<Id>, k: nat): Arena
    requires k <= |q| && |a| == n + 2 && Node(n, q, k) < |a|
  {
    var u := Unlinked(a, q[..k]);
    var v := u[n := Next(u[n], Node(n, q, k))];
    v[Node(n, q, k) := Prev(v[Node(n, q, k)], n)]
  }

  /** Cell by cell: the first `k` are cut loose, the head and the next node point at each other, the
      rest is untouched. */
  lemma PopFrontAt(a: Arena, n: nat, q: seq<Id>, k: nat)
    requires Chain(a, n, q) && k <= |q|
    ensures Node(n, q, k) < |a| && Node(n, q, k) != n
    ensures var r := PopFront(a, n, q, k);
      && |r| == |a| && Metas(r, n) == Metas(a, n)
      && (forall x :: x in q[..k] ==> x < |a| && r[x] == Cut(a[x]))
      && (forall x :: 0 <= x < |a| && x !in q[..k] && x != n && x != Node(n, q, k) ==> r[x] == a[x])
      && r[n] == Next(a[n], Node(n, q, k)) && r[Node(n, q, k)] == Prev(a[Node(n, q, k)], n)
  {
    FrontApart(q, k, 0);
    assert forall b :: b in q[..k] ==> b in q;
    assert Node(n, q, k) !in q[..k];
  }

  lemma PopFrontChain(a: Arena, n: nat, q: seq<Id>, k: nat)
    requires Chain(a, n, q) && k <= |q|
    ensures Node(n, q, k) < |a| && Chain(PopFront(a, n, q, k), n, q[k..])
    ensures Metas(PopFront(a, n, q, k), n) == Metas(a, n)
  {
    hide PopFront, Unlinked, Metas;
    PopFrontAt(a, n, q, k);
    var r := PopFront(a, n, q, k);
    var p := q[k..];
    assert forall b :: b in q[..k] ==> b in q;
    forall i | -1 <= i < |p| ensures r[Node(n, p, i)].next == Node(n, p, i + 1) {
      assert a[Node(n, q, i + k)].next == Node(n, q, i + k + 1);
      FrontApart(q, k, i);
    }
    forall i | 0 <= i <= |p| ensures r[Node(n, p, i)].prev == Node(n, p, i - 1) {
      assert a[Node(n, q, i + k)].prev == Node(n, q, i + k - 1);
      FrontApart(q, k, i);
    }
    forall b | 0 <= b < n && b !in p ensures r[b].prev == NIL && r[b].next == NIL {
      if b in q { assert q == q[..k] + p; assert b in q[..k]; }
      assert b != Node(n, q, k);
    }
  }

  lemma FrontApart(q: seq<Id>, k: nat, i: int)
    requires Distinct(q) && k <= |q|
    ensures 0 <= i < |q| - k ==> q[i + k] !in q[..k] && (i > 0 ==> q[i + k] != q[k])
  {}

  // ---- removing one block -----------------------------------------------------------

  function Bridge(a: Arena, b: Id): Arena
    requires b < |a| && a[b].prev < |a| && a[b].next < |a|
  {
    var u := a[a[b].prev := Next(a[a[b].prev], a[b].next)];
    var v := u[a[b].next := Prev(u[a[b].next], a[b].prev)];
    v[b := Cut(v[b])]
  }

  lemma BridgeFacts(a: Arena, b: Id)
    requires b < |a| && a[b].prev < |a| && a[b].next < |a| && a[b].prev != b && a[b].next != b && a[b].prev != a[b].next
    ensures var r := Bridge(a, b);
      && |r| == |a| && r[b] == Cut(a[b]) && r[a[b].prev] == Next(a[a[b].prev], a[b].next)
      && r[a[b].next] == Prev(a[a[b].next], a[b].prev)
      && forall x :: 0 <= x < |a| && x != b && x != a[b].prev && x != a[b].next ==> r[x] == a[x]
  {}

  lemma NodeDrop(n: nat, q: seq<Id>, k: nat, i: int)
    requires k < |q| && -1 <= i < |q|
    ensures Node(n, q[..k] + q[k + 1..], i) == Node(n, q, if i < k then i else i + 1)
  {}

  lemma NodeApart(n: nat, q: seq<Id>, i: int, j: int)
    requires Distinct(q) && -1 <= i <= |q| && -1 <= j <= |q| && forall k :: 0 <= k < |q| ==> q[k] < n
    ensures i != j ==> Node(n, q, i) != Node(n, q, j)
  {}

  lemma BridgeChain(a: Arena, n: nat, q: seq<Id>, k: nat)
    requires Chain(a, n, q) && k < |q|
    ensures a[q[k]].prev == Node(n, q, k - 1) < |a| && a[q[k]].next == Node(n, q, k + 1) < |a|
    ensures Chain(Bridge(a, q[k]), n, q[..k] + q[k + 1..])
    ensures Metas(Bridge(a, q[k]), n) == Metas(a, n)
  {
    assert Node(n, q, k) == q[k];
    assert a[Node(n, q, k)].prev == Node(n, q, k - 1) && a[Node(n, q, k)].next == Node(n, q, k + 1);
    NodeApart(n, q, k - 1, k);
    NodeApart(n, q, k, k + 1);
    NodeApart(n, q, k - 1, k + 1);
    BridgeFacts(a, q[k]);
    BridgeLinks(a, Bridge(a, q[k]), n, q, k);
    BridgeRest(a, Bridge(a, q[k]), n, q, k);
  }

  /** `r` is `a` with q[k] cut out. */
  ghost predicate Bridged(a: Arena, r: Arena, n: nat, q: seq<Id>, k: nat)
    requires Chain(a, n, q) && k < |q|
  {
    && |r| == |a| && r[q[k]] == Cut(a[q[k]])
    && r[Node(n, q, k - 1)] == Next(a[Node(n, q, k - 1)], Node(n, q, k + 1))
    && r[Node(n, q, k + 1)] == Prev(a[Node(n, q, k + 1)], Node(n, q, k - 1))
    && forall x :: 0 <= x < |a| && x != q[k] && x != Node(n, q, k - 1) && x != Node(n, q, k + 1) ==> r[x] == a[x]
  }

  lemma BridgeLinks(a: Arena, r: Arena, n: nat, q: seq<Id>, k: nat)
    requires Chain(a, n, q) && k < |q| && Bridged(a, r, n, q, k)
    ensures var p := q[..k] + q[k + 1..];
      && (forall i :: -1 <= i < |p| ==> r[Node(n, p, i)].next == Node(n, p, i + 1))
      && (forall i :: 0 <= i <= |p| ==> r[Node(n, p, i)].prev == Node(n, p, i - 1))
  {
    var p := q[..k] + q[k + 1..];
    forall i | -1 <= i < |p| ensures r[Node(n, p, i)].next == Node(n, p, i + 1) {
      NodeDrop(n, q, k, i);
      NodeDrop(n, q, k, i + 1);
      BridgeNext(a, r, n, q, k, if i < k then i else i + 1);
    }
    forall i | 0 <= i <= |p| ensures r[Node(n, p, i)].prev == Node(n, p, i - 1) {
      NodeDrop(n, q, k, i);
      NodeDrop(n, q, k, i - 1);
      BridgePrev(a, r, n, q, k, if i < k then i else i + 1);
    }
  }

  lemma BridgeNext(a: Arena, r: Arena, n: nat, q: seq<Id>, k: nat, j: int)
    requires Chain(a, n, q) && k < |q| && Bridged(a, r, n, q, k) && -1 <= j < |q| && j != k
    ensures Node(n, q, j) < |r| && r[Node(n, q, j)].next == Node(n, q, if j == k - 1 then k + 1 else j + 1)
  {
    assert a[Node(n, q, j)].next == Node(n, q, j + 1);
    NodeApart(n, q, j, k);
    NodeApart(n, q, j, k - 1);
    NodeApart(n, q, j, k + 1);
  }

  lemma BridgePrev(a: Arena, r: Arena, n: nat, q: seq<Id>, k: nat, j: int)
    requires Chain(a, n, q) && k < |q| && Bridged(a, r, n, q, k) && 0 <= j <= |q| && j != k
    ensures Node(n, q, j) < |r| && r[Node(n, q, j)].prev == Node(n, q, if j == k + 1 then k - 1 else j - 1)
  {
    assert a[Node(n, q, j)].prev == Node(n, q, j - 1);
    NodeApart(n, q, j, k);
    NodeApart(n, q, j, k - 1);
    NodeApart(n, q, j, k + 1);
  }

  lemma BridgeRest(a: Arena, r: Arena, n: nat, q: seq<Id>, k: nat)
    requires Chain(a, n, q) && k < |q| && Bridged(a, r, n, q, k)
    ensures var p := q[..k] + q[k + 1..];
      && Distinct(p) && (forall i :: 0 <= i < |p| ==> p[i] < n)
      && (forall b :: 0 <= b < n && b !in p ==> r[b].prev == NIL && r[b].next == NIL)
      && r[n].prev == NIL && r[n + 1].next == NIL && Metas(r, n) == Metas(a, n)
  {
    var p := q[..k] + q[k + 1..];
    forall b | 0 <= b < n && b !in p ensures r[b].prev == NIL && r[b].next == NIL {
      if b in q { assert q == q[..k] + [q[k]] + q[k + 1..]; assert b == q[k]; }
    }
    NodeApart(n, q, -1, k + 1);
    NodeApart(n, q, |q|, k - 1);
  }

  // ---- one pop at a time ------------------------------------------------------------

  /** Cut the first queued block out, if there is one. */
  function PopOne(a: Arena, n: nat): Arena {
    if n < |a| && a[n].next < |a| && a[a[n].next].prev < |a| && a[a[n].next].next < |a| then Bridge(a, a[n].next) else a
  }

  function Pops(a: Arena, n: nat, k: nat): Arena {
    if k == 0 then a else PopOne(Pops(a, n, k - 1), n)
  }

  lemma PopIs(a: Arena, n: nat, q: seq<Id>)
    requires Chain(a, n, q) && q != []
    ensures q[0] < |a| && a[q[0]].prev < |a| && a[q[0]].next < |a|
    ensures PopOne(a, n) == Bridge(a, q[0]) && Chain(PopOne(a, n), n, q[1..])
  {
    hide Bridge;
    ChainNext(a, n, q, -1);
    BridgeChain(a, n, q, 0);
    ChainShape(a, n, q);
    assert q[..0] + q[1..] == q[1..];
  }

  /** One more block off the front. */
  lemma FrontNext(a: Arena, n: nat, q: seq<Id>, k: nat)
    requires Chain(a, n, q) && k < |q|
    ensures Node(n, q, k) < |a| && Node(n, q, k + 1) < |a| && Chain(PopFront(a, n, q, k), n, q[k..])
    ensures Bridged(PopFront(a, n, q, k), PopFront(a, n, q, k + 1), n, q[k..], 0)
  {
    hide Chain, PopFront, Unlinked, Metas;
    ChainShape(a, n, q);
    PopFrontChain(a, n, q, k);
    PopFrontChain(a, n, q, k + 1);
    PopFrontAt(a, n, q, k);
    PopFrontAt(a, n, q, k + 1);
    ChainNext(a, n, q, k);
    NodeApart(n, q, k, k + 1);
    NodeApart(n, q, -1, k);
    NodeApart(n, q, -1, k + 1);
    assert q[..k + 1] == q[..k] + [q[k]];
    assert forall b :: b in q[..k] ==> b in q;
    FrontApart(q, k, 0);
    if k + 1 < |q| { FrontApart(q, k + 1, 0); }
  }

  lemma BridgedOnce(a: Arena, r: Arena, s: Arena, n: nat, q: seq<Id>, k: nat)
    requires Chain(a, n, q) && k < |q| && Bridged(a, r, n, q, k) && Bridged(a, s, n, q, k)
    ensures r == s
  {}

  lemma BridgeBridged(a: Arena, n: nat, q: seq<Id>)
    requires Chain(a, n, q) && q != []
    ensures a[q[0]].prev < |a| && a[q[0]].next < |a| && Bridged(a, Bridge(a, q[0]), n, q, 0)
  {
    BridgeChain(a, n, q, 0);
    NodeApart(n, q, -1, 0);
    NodeApart(n, q, 0, 1);
    NodeApart(n, q, -1, 1);
    BridgeFacts(a, q[0]);
  }

  /** `popleft_n(k)` leaves every block exactly as `k` single pops do. */
  lemma {:induction false} FrontIsPops(a: Arena, n: nat, q: seq<Id>, k: nat)
    requires Chain(a, n, q) && k <= |q|
    ensures Node(n, q, k) < |a| && PopFront(a, n, q, k) == Pops(a, n, k)
    decreases k
  {
    hide PopFront, Bridged, PopOne, Bridge;
    PopFrontChain(a, n, q, k);
    if k == 0 {
      FrontNone(a, n, q);
    } else {
      PopFrontChain(a, n, q, k - 1);
      FrontIsPops(a, n, q, k - 1);
      FrontNext(a, n, q, k - 1);
      var b, rest := PopFront(a, n, q, k - 1), q[k - 1..];
      PopIs(b, n, rest);
      BridgeBridged(b, n, rest);
      BridgedOnce(b, PopFront(a, n, q, k), Bridge(b, rest[0]), n, rest, 0);
    }
  }

  lemma FrontNone(a: Arena, n: nat, q: seq<Id>)
    requires Chain(a, n, q)
    ensures Node(n, q, 0) < |a| && PopFront(a, n, q, 0) == a
  {
    PopFrontChain(a, n, q, 0);
    ChainNext(a, n, q, -1);
    ChainPrev(a, n, q, 0);
    UnlinkNone(a, q);
  }

  // ---- linking a run of blocks ------------------------------------------------------

  /** Link `ids` one after the other behind `prev`. */
  function LinkRun(a: Arena, prev: nat, ids: seq<Id>): (r: Arena)
    ensures |r| == |a|
    decreases |ids|
  {
    if ids == [] || prev >= |a| || ids[0] >= |a| then a
    else
      var u := a[ids[0] := Prev(a[ids[0]], prev)];
      LinkRun(u[prev := Next(u[prev], ids[0])], ids[0], ids[1..])
  }

  /** What `LinkRun` leaves in the block `ids[i]`. */
  function LinkedBlock(a: Arena, prev: nat, ids: seq<Id>, i: nat): Block
    requires i < |ids| && ids[i] < |a|
  {
    Block(a[ids[i]].meta, if i == 0 then prev else ids[i - 1], if i + 1 < |ids| then ids[i + 1] else a[ids[i]].next)
  }

  /** The blocks may be linked behind `prev`. */
  ghost predicate Linkable(a: Arena, prev: nat, ids: seq<Id>) {
    prev < |a| && Distinct(ids) && prev !in ids && forall i :: 0 <= i < |ids| ==> ids[i] < |a|
  }

  /** The array after the first of them is linked. */
  function LinkOne(a: Arena, prev: nat, x: nat): (v: Arena)
    requires prev < |a| && x < |a| && x != prev
    ensures |v| == |a| && v[prev] == Next(a[prev], x) && v[x] == Prev(a[x], prev)
    ensures forall b :: 0 <= b < |a| && b != prev && b != x ==> v[b] == a[b]
  {
    var u := a[x := Prev(a[x], prev)];
    u[prev := Next(u[prev], x)]
  }

  lemma LinkFirst(a: Arena, prev: nat, ids: seq<Id>)
    requires Linkable(a, prev, ids) && ids != []
    ensures prev < |a| && ids[0] < |a| && ids[0] != prev && Linkable(LinkOne(a, prev, ids[0]), ids[0], ids[1..])
    ensures LinkRun(a, prev, ids) == LinkRun(LinkOne(a, prev, ids[0]), ids[0], ids[1..])
    ensures prev !in ids[1..]
  {
    forall i | 0 <= i < |ids[1..]| ensures ids[1..][i] == ids[i + 1] {}
  }

  lemma {:induction false} LinkOutside(a: Arena, prev: nat, ids: seq<Id>, b: nat)
    requires Linkable(a, prev, ids) && b < |a| && b !in ids && b != prev
    ensures LinkRun(a, prev, ids)[b] == a[b]
    decreases |ids|
  {
    hide Linkable, LinkOne;
    if ids != [] {
      LinkFirst(a, prev, ids);
      LinkOutside(LinkOne(a, prev, ids[0]), ids[0], ids[1..], b);
    }
  }

  lemma LinkHead(a: Arena, prev: nat, ids: seq<Id>)
    requires Linkable(a, prev, ids)
    ensures LinkRun(a, prev, ids)[prev] == if ids == [] then a[prev] else Next(a[prev], ids[0])
  {
    if ids != [] {
      hide Linkable, LinkOne, LinkRun;
      LinkFirst(a, prev, ids);
      LinkOutside(LinkOne(a, prev, ids[0]), ids[0], ids[1..], prev);
    }
  }

  lemma {:induction false} LinkInside(a: Arena, prev: nat, ids: seq<Id>, i: nat)
    requires Linkable(a, prev, ids) && i < |ids|
    ensures ids[i] < |a| && LinkRun(a, prev, ids)[ids[i]] == LinkedBlock(a, prev, ids, i)
    decreases |ids|
  {
    var v := LinkOne(a, prev, ids[0]);
    if i == 0 {
      hide Linkable, LinkOne, LinkRun;
      LinkFirst(a, prev, ids);
      LinkHead(v, ids[0], ids[1..]);
    } else {
      hide LinkOne, LinkRun;
      LinkFirst(a, prev, ids);
      LinkInside(v, ids[0], ids[1..], i - 1);
      LinkedTail(a, v, prev, ids[0], ids, i);
    }
  }

  lemma LinkRunOk(a: Arena, prev: nat, ids: seq<Id>)
    requires Linkable(a, prev, ids)
    ensures var r := LinkRun(a, prev, ids);
      && (forall b :: 0 <= b < |a| && b !in ids && b != prev ==> r[b] == a[b])
      && r[prev] == (if ids == [] then a[prev] else Next(a[prev], ids[0]))
      && (forall i :: 0 <= i < |ids| ==> r[ids[i]] == LinkedBlock(a, prev, ids, i))
  {
    hide LinkRun;
    forall b: nat | b < |a| && b !in ids && b != prev
      ensures LinkRun(a, prev, ids)[b] == a[b]
    {
      LinkOutside(a, prev, ids, b);
    }
    LinkHead(a, prev, ids);
    forall i: nat | i < |ids|
      ensures LinkRun(a, prev, ids)[ids[i]] == LinkedBlock(a, prev, ids, i)
    {
      LinkInside(a, prev, ids, i);
    }
  }

  lemma LinkedTail(a: Arena, v: Arena, prev: nat, x: nat, ids: seq<Id>, i: nat)
    requires 1 <= i < |ids| && ids[i] < |a| == |v| && v[ids[i]] == a[ids[i]] && ids[0] == x
    ensures LinkedBlock(v, x, ids[1..], i - 1) == LinkedBlock(a, prev, ids, i)
  {}

  /** Blocks that may be queued: in range, distinct, not queued yet. */
  ghost predicate Loose(n: nat, q: seq<Id>, ids: seq<Id>) {
    Distinct(ids) && forall i :: 0 <= i < |ids| ==> ids[i] < n && ids[i] !in q
  }

  function Linked(a: Arena, from: nat, ids: seq<Id>, to: nat): Arena
    requires ids != [] && from < |a| && to < |a| && ids[|ids| - 1] < |a|
  {
    var r := LinkRun(a, from, ids);
    var last := ids[|ids| - 1];
    var u := r[last := Next(r[last], to)];
    u[to := Prev(u[to], last)]
  }

  lemma NodeLoose(n: nat, q: seq<Id>, ids: seq<Id>, i: int)
    requires Loose(n, q, ids) && -1 <= i <= |q|
    ensures Node(n, q, i) !in ids
  {}

  /** Where the chain of the spliced queue comes from. */
  lemma NodeSplice(n: nat, q: seq<Id>, k: nat, ids: seq<Id>, i: int)
    requires k <= |q| && -1 <= i <= |q| + |ids|
    ensures Node(n, q[..k] + ids + q[k..], i)
         == if i < k then Node(n, q, i) else if i < k + |ids| then ids[i - k] else Node(n, q, i - |ids|)
  {}

  /** What `Linked` leaves in the block `ids[i]`. */
  function SplicedBlock(a: Arena, from: nat, ids: seq<Id>, to: nat, i: nat): Block
    requires i < |ids| && ids[i] < |a|
  {
    if i + 1 < |ids| then LinkedBlock(a, from, ids, i) else Next(LinkedBlock(a, from, ids, i), to)
  }

  /** What `Linked` leaves where. */
  ghost predicate Spliced(a: Arena, r: Arena, from: nat, ids: seq<Id>, to: nat) {
    && |r| == |a| && from < |a| && to < |a| && ids != []
    && (forall i :: 0 <= i < |ids| ==> ids[i] < |a|)
    && (forall b :: 0 <= b < |a| && b !in ids && b != from && b != to ==> r[b] == a[b])
    && r[from] == Next(a[from], ids[0]) && r[to] == Prev(a[to], ids[|ids| - 1])
    && (forall i :: 0 <= i < |ids| ==> r[ids[i]] == SplicedBlock(a, from, ids, to, i))
  }

  lemma LinkedFacts(a: Arena, from: nat, ids: seq<Id>, to: nat)
    requires ids != [] && Distinct(ids) && from !in ids && to !in ids && from != to && from < |a| && to < |a|
    requires forall i :: 0 <= i < |ids| ==> ids[i] < |a|
    ensures Spliced(a, Linked(a, from, ids, to), from, ids, to)
  {
    hide LinkRun, LinkedBlock;
    LinkRunOk(a, from, ids);
    var r := LinkRun(a, from, ids);
    var s := Linked(a, from, ids, to);
    forall i | 0 <= i < |ids| ensures s[ids[i]] == SplicedBlock(a, from, ids, to, i) {
      assert r[ids[i]] == LinkedBlock(a, from, ids, i);
    }
  }

  lemma SplicedBlockIs(a: Arena, from: nat, ids: seq<Id>, to: nat, i: nat)
    requires i < |ids| && ids[i] < |a|
    ensures SplicedBlock(a, from, ids, to, i).next == (if i + 1 < |ids| then ids[i + 1] else to)
    ensures SplicedBlock(a, from, ids, to, i).prev == (if i == 0 then from else ids[i - 1])
    ensures SplicedBlock(a, from, ids, to, i).meta == a[ids[i]].meta
  {}

  /** An old chain node keeps its links unless the run was put beside it. */
  lemma SplicedOut(a: Arena, r: Arena, n: nat, q: seq<Id>, k: nat, ids: seq<Id>, j: int)
    requires Chain(a, n, q) && k <= |q| && Loose(n, q, ids) && Spliced(a, r, Node(n, q, k - 1), ids, Node(n, q, k))
    requires -1 <= j <= |q|
    ensures Node(n, q, j) < |r|
    ensures j < |q| ==> r[Node(n, q, j)].next == (if j == k - 1 then ids[0] else Node(n, q, j + 1))
    ensures 0 <= j ==> r[Node(n, q, j)].prev == (if j == k then ids[|ids| - 1] else Node(n, q, j - 1))
  {
    hide SplicedBlock, Loose;
    NodeApart(n, q, j, k - 1);
    NodeApart(n, q, j, k);
    NodeLoose(n, q, ids, j);
    if j < |q| { assert a[Node(n, q, j)].next == Node(n, q, j + 1); }
    if 0 <= j { assert a[Node(n, q, j)].prev == Node(n, q, j - 1); }
  }

  lemma SplicedNext(a: Arena, r: Arena, n: nat, q: seq<Id>, k: nat, ids: seq<Id>, i: int)
    requires Chain(a, n, q) && k <= |q| && Loose(n, q, ids) && Spliced(a, r, Node(n, q, k - 1), ids, Node(n, q, k))
    requires -1 <= i < |q| + |ids|
    ensures var p := q[..k] + ids + q[k..]; Node(n, p, i) < |r| && r[Node(n, p, i)].next == Node(n, p, i + 1)
  {
    hide Chain, Loose, SplicedBlock;
    NodeSplice(n, q, k, ids, i);
    NodeSplice(n, q, k, ids, i + 1);
    if k <= i < k + |ids| {
      SplicedBlockIs(a, Node(n, q, k - 1), ids, Node(n, q, k), i - k);
    } else {
      SplicedOut(a, r, n, q, k, ids, if i < k then i else i - |ids|);
    }
  }

  lemma SplicedPrev(a: Arena, r: Arena, n: nat, q: seq<Id>, k: nat, ids: seq<Id>, i: int)
    requires Chain(a, n, q) && k <= |q| && Loose(n, q, ids) && Spliced(a, r, Node(n, q, k - 1), ids, Node(n, q, k))
    requires 0 <= i <= |q| + |ids|
    ensures var p := q[..k] + ids + q[k..]; Node(n, p, i) < |r| && r[Node(n, p, i)].prev == Node(n, p, i - 1)
  {
    hide Chain, Loose, SplicedBlock;
    NodeSplice(n, q, k, ids, i);
    NodeSplice(n, q, k, ids, i - 1);
    if k <= i < k + |ids| {
      SplicedBlockIs(a, Node(n, q, k - 1), ids, Node(n, q, k), i - k);
    } else {
      SplicedOut(a, r, n, q, k, ids, if i < k then i else i - |ids|);
    }
  }

  lemma SplicedChain(a: Arena, r: Arena, n: nat, q: seq<Id>, k: nat, ids: seq<Id>)
    requires Chain(a, n, q) && k <= |q| && Loose(n, q, ids) && Spliced(a, r, Node(n, q, k - 1), ids, Node(n, q, k))
    ensures Chain(r, n, q[..k] + ids + q[k..])
  {
    hide Spliced;
    var p := q[..k] + ids + q[k..];
    SpliceDistinct(q, k, ids);
    SplicedRest(a, r, n, q, k, ids);
    forall i | -1 <= i < |p| ensures r[Node(n, p, i)].next == Node(n, p, i + 1) { SplicedNext(a, r, n, q, k, ids, i); }
    forall i | 0 <= i <= |p| ensures r[Node(n, p, i)].prev == Node(n, p, i - 1) { SplicedPrev(a, r, n, q, k, ids, i); }
  }

  lemma SplicedRest(a: Arena, r: Arena, n: nat, q: seq<Id>, k: nat, ids: seq<Id>)
    requires Chain(a, n, q) && k <= |q| && Loose(n, q, ids) && Spliced(a, r, Node(n, q, k - 1), ids, Node(n, q, k))
    ensures var p := q[..k] + ids + q[k..];
      && |r| == |a| && (forall i :: 0 <= i < |p| ==> p[i] < n)
      && (forall b :: 0 <= b < n && b !in p ==> r[b].prev == NIL && r[b].next == NIL)
      && r[n].prev == NIL && r[n + 1].next == NIL
  {
    hide SplicedBlock;
    var p := q[..k] + ids + q[k..];
    forall i | 0 <= i < |p| ensures p[i] < n { NodeSplice(n, q, k, ids, i); }
    forall b | 0 <= b < n && b !in p ensures r[b].prev == NIL && r[b].next == NIL {
      assert q == q[..k] + q[k..];
      assert b !in q && b !in ids;
    }
    NodeApart(n, q, -1, k);
    NodeApart(n, q, |q|, k - 1);
    NodeLoose(n, q, ids, -1);
    NodeLoose(n, q, ids, |q|);
  }

  lemma SplicedMetas(a: Arena, r: Arena, n: nat, from: nat, ids: seq<Id>, to: nat)
    requires Spliced(a, r, from, ids, to) && n <= |a|
    ensures Metas(r, n) == Metas(a, n)
  {
    hide SplicedBlock;
    forall b | 0 <= b < n ensures r[b].meta == a[b].meta {
      if b in ids {
        var i :| 0 <= i < |ids| && ids[i] == b;
        SplicedBlockIs(a, from, ids, to, i);
      }
    }
  }

  /** Linking `ids` between two neighbours of the chain inserts them there. */
  lemma LinkedChain(a: Arena, n: nat, q: seq<Id>, k: nat, ids: seq<Id>)
    requires Chain(a, n, q) && k <= |q| && Loose(n, q, ids) && ids != []
    ensures Node(n, q, k - 1) < |a| && Node(n, q, k) < |a|
    ensures Chain(Linked(a, Node(n, q, k - 1), ids, Node(n, q, k)), n, q[..k] + ids + q[k..])
    ensures Metas(Linked(a, Node(n, q, k - 1), ids, Node(n, q, k)), n) == Metas(a, n)
  {
    hide Linked, Spliced;
    var from, to := Node(n, q, k - 1), Node(n, q, k);
    NodeApart(n, q, k - 1, k);
    NodeLoose(n, q, ids, k - 1);
    NodeLoose(n, q, ids, k);
    LinkedFacts(a, from, ids, to);
    SplicedChain(a, Linked(a, from, ids, to), n, q, k, ids);
    SplicedMetas(a, Linked(a, from, ids, to), n, from, ids, to);
  }

  lemma SpliceDistinct(q: seq<Id>, k: nat, ids: seq<Id>)
    requires Distinct(q) && Distinct(ids) && k <= |q| && forall i :: 0 <= i < |ids| ==> ids[i] !in q
    ensures Distinct(q[..k] + ids + q[k..])
  {
    var p := q[..k] + ids + q[k..];
    forall i, j | 0 <= i < j < |p| ensures p[i] != p[j] {
      assert k <= i < k + |ids| ==> p[i] == ids[i - k];
      assert k <= j < k + |ids| ==> p[j] == ids[j - k];
      assert i < k ==> p[i] == q[i] && q[i] in q;
      assert j >= k + |ids| ==> p[j] == q[j - |ids|] && q[j - |ids|] in q;
      assert i >= k + |ids| ==> p[i] == q[i - |ids|] && q[i - |ids|] in q;
    }
  }

  // ---- a new arena ------------------------------------------------------------------

  function Ids(n: nat): seq<Id> { seq(n, i => i) }

  /** Every block queued in id order. */
  function NewArena(n: nat): Arena {
    seq(n + 2, b requires 0 <= b < n + 2 =>
      Block(BLANK,
            if b == n then NIL else if b == n + 1 then (if n > 0 then n - 1 else n) else if b > 0 then b - 1 else n,
            if b == n + 1 then NIL else if b == n then (if n > 0 then 0 else n + 1)
            else if b + 1 < n then b + 1 else n + 1))
  }

  lemma NewArenaChain(n: nat)
    requires n + 2 <= NIL
    ensures Chain(NewArena(n), n, Ids(n))
  {
    var a, q := NewArena(n), Ids(n);
    forall b | 0 <= b < n ensures b in q { assert q[b] == b; }
  }
}
