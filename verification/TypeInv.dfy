/** Every operation on a group's tables moves a block's count with its occurrences there. */
module TypeInv {
  import opened Basics
  import opened PoolSpec
  import opened PoolInv
  import opened PoolCounts
  import opened TypeSpec

  /** All table entries of a group, over all requests. */
  ghost function Entries(m: map<Slot, seq<Id>>): multiset<Id> {
    if m == map[] then multiset{}
    else
      var k :| k in m;
      multiset(m[k]) + Entries(m - {k})
  }

  ghost function Holders(t: Tm): multiset<Id> { Entries(t.reqBlocks) }

  lemma {:induction false} EntriesSplit(m: map<Slot, seq<Id>>, k: Slot)
    requires k in m
    ensures Entries(m) == multiset(m[k]) + Entries(m - {k})
    decreases m.Keys
  {
    var j :| j in m && Entries(m) == multiset(m[j]) + Entries(m - {j});
    if j != k {
      EntriesSplit(m - {j}, k);
      EntriesSplit(m - {k}, j);
      assert m - {j} - {k} == m - {k} - {j};
    }
  }

  lemma HoldersSplit(t: Tm, slot: Slot)
    ensures Holders(t) == multiset(Blocks(t, slot)) + Entries(t.reqBlocks - {slot})
  {
    if slot in t.reqBlocks { EntriesSplit(t.reqBlocks, slot); } else { assert t.reqBlocks - {slot} == t.reqBlocks; }
  }

  /** Replacing one table changes the holders by that table alone. */
  lemma HoldersChange(t: Tm, u: Tm, slot: Slot)
    requires u.reqBlocks - {slot} == t.reqBlocks - {slot}
    ensures Holders(u) + multiset(Blocks(t, slot)) == Holders(t) + multiset(Blocks(u, slot))
  {
    HoldersSplit(t, slot);
    HoldersSplit(u, slot);
  }

  /** A request with allocated mamba state keeps its running and speculative blocks. */
  predicate HasState(t: Tm, slot: Slot) {
    t.group.kind.Mamba? && |Blocks(t, slot)| >= t.group.numSpec + 1
  }

  ghost predicate TmInv(p: Pool, t: Tm) {
    && (forall s :: s in t.reqBlocks ==> InRange(p, t.reqBlocks[s]))
    && (forall s :: s in t.allocatedReqs ==> HasState(t, s))
  }

  ghost predicate Covered(p: Pool, t: Tm) { Held(p, Holders(t)) }

  /** A non-null block's count rises exactly as often as it enters the group's tables. */
  ghost predicate Balanced(p: Pool, t: Tm, q: Pool, u: Tm) {
    && |q.meta| == |p.meta|
    && (forall b: Id :: 0 < b < |p.meta| ==>
          q.meta[b].ref + Holders(t)[b] == p.meta[b].ref + Holders(u)[b])
  }

  /** Only this slot's entries differ. */
  ghost predicate OnlySlot(t: Tm, u: Tm, slot: Slot) {
    && u.group == t.group
    && u.reqBlocks - {slot} == t.reqBlocks - {slot}
    && u.numCached - {slot} == t.numCached - {slot}
    && u.lastState - {slot} == t.lastState - {slot}
    && u.allocatedReqs - {slot} == t.allocatedReqs - {slot}
  }

  lemma OtherSlot(t: Tm, u: Tm, slot: Slot, s: Slot)
    requires OnlySlot(t, u, slot) && s != slot
    ensures Blocks(u, s) == Blocks(t, s) && (s in u.reqBlocks <==> s in t.reqBlocks)
    ensures s in u.numCached <==> s in t.numCached
    ensures NumCached(u, s) == NumCached(t, s)
    ensures s in u.lastState <==> s in t.lastState
    ensures s in u.lastState ==> u.lastState[s] == t.lastState[s]
    ensures s in u.allocatedReqs <==> s in t.allocatedReqs
  {
    assert s in u.reqBlocks <==> s in u.reqBlocks - {slot};
    assert s in t.reqBlocks <==> s in t.reqBlocks - {slot};
    assert s in u.numCached <==> s in u.numCached - {slot};
    assert s in t.numCached <==> s in t.numCached - {slot};
    assert s in u.lastState <==> s in u.lastState - {slot};
    assert s in t.lastState <==> s in t.lastState - {slot};
    assert s in u.allocatedReqs <==> s in u.allocatedReqs - {slot};
    assert s in t.allocatedReqs <==> s in t.allocatedReqs - {slot};
    if s in u.reqBlocks { assert (u.reqBlocks - {slot})[s] == u.reqBlocks[s]; }
    if s in u.numCached { assert (u.numCached - {slot})[s] == u.numCached[s]; }
    if s in u.lastState { assert (u.lastState - {slot})[s] == u.lastState[s]; }
  }

  /** What one operation on one slot keeps. */
  ghost predicate Keeps(p: Pool, t: Tm, q: Pool, u: Tm, slot: Slot) {
    Inv(q) && TmInv(q, u) && Balanced(p, t, q, u) && OnlySlot(t, u, slot) && q.caching == p.caching
  }

  lemma KeptCovered(p: Pool, t: Tm, q: Pool, u: Tm, slot: Slot)
    requires Covered(p, t) && Keeps(p, t, q, u, slot)
    ensures Covered(q, u)
  {
    forall b: Id | 0 < b < |q.meta| ensures Holders(u)[b] <= q.meta[b].ref {
      assert Holders(t)[b] <= p.meta[b].ref;
    }
  }

  /** A pool and a group's tables in good standing with each other. */
  ghost predicate Settled(p: Pool, t: Tm) { Inv(p) && TmInv(p, t) && Covered(p, t) }

  lemma KeepsSettled(p: Pool, t: Tm, q: Pool, u: Tm, slot: Slot)
    requires Settled(p, t) && Keeps(p, t, q, u, slot)
    ensures Settled(q, u)
  {
    KeptCovered(p, t, q, u, slot);
  }

  lemma KeptTrans(p: Pool, t: Tm, q: Pool, u: Tm, r: Pool, v: Tm, slot: Slot)
    requires Keeps(p, t, q, u, slot) && Keeps(q, u, r, v, slot)
    ensures Keeps(p, t, r, v, slot)
  {}

  /** The common shape of the operations: one table replaced, counts moved to match. */
  lemma Replaced(p: Pool, t: Tm, q: Pool, u: Tm, slot: Slot, plus: multiset<Id>, minus: multiset<Id>)
    requires Inv(q) && q.caching == p.caching && Moved(p, q, plus, minus)
    requires TmInv(p, t) && OnlySlot(t, u, slot) && InRange(q, Blocks(u, slot))
    requires slot in u.allocatedReqs ==> HasState(u, slot)
    requires forall b: Id :: 0 < b < |p.meta| ==>
               plus[b] + multiset(Blocks(t, slot))[b] == minus[b] + multiset(Blocks(u, slot))[b]
    ensures Keeps(p, t, q, u, slot)
  {
    HoldersChange(t, u, slot);
    forall b: Id | 0 < b < |p.meta|
      ensures q.meta[b].ref + Holders(t)[b] == p.meta[b].ref + Holders(u)[b]
    {
      assert (Holders(u) + multiset(Blocks(t, slot)))[b] == (Holders(t) + multiset(Blocks(u, slot)))[b];
    }
    forall s | s in u.reqBlocks ensures InRange(q, u.reqBlocks[s]) {
      if s != slot { OtherSlot(t, u, slot, s); }
    }
    forall s | s in u.allocatedReqs ensures HasState(u, s) {
      if s != slot { OtherSlot(t, u, slot, s); }
    }
  }

  /** The common shape of allocation: blocks appended to a table whose live entries are unchanged. */
  lemma Extended(p: Pool, t: Tm, q: Pool, u: Tm, slot: Slot, w: seq<Id>, ids: seq<Id>)
    requires Inv(q) && q.caching == p.caching && Moved(p, q, multiset(ids), multiset{})
    requires TmInv(p, t) && OnlySlot(t, u, slot) && Blocks(u, slot) == w + ids
    requires InRange(p, w) && InRange(p, ids)
    requires slot in u.allocatedReqs ==> HasState(u, slot)
    requires forall b: Id :: b != NULL ==> multiset(w)[b] == multiset(Blocks(t, slot))[b]
    ensures Keeps(p, t, q, u, slot)
  {
    assert multiset(w + ids) == multiset(w) + multiset(ids);
    Replaced(p, t, q, u, slot, multiset(ids), multiset{});
  }

  lemma Unmoved(p: Pool)
    ensures Moved(p, p, multiset{}, multiset{})
  {}

  lemma TableRange(p: Pool, t: Tm, slot: Slot)
    requires TmInv(p, t)
    ensures InRange(p, Blocks(t, slot))
  {}

  lemma TouchEntryOk(p: Pool, t: Tm, slot: Slot)
    requires Inv(p) && TmInv(p, t)
    ensures Keeps(p, t, p, TouchEntry(t, slot), slot)
    ensures Blocks(TouchEntry(t, slot), slot) == Blocks(t, slot)
  {
    Unmoved(p);
    Replaced(p, t, p, TouchEntry(t, slot), slot, multiset{}, multiset{});
  }

  // ---- releasing --------------------------------------------------------------------

  lemma TableHeld(p: Pool, t: Tm, slot: Slot, part: multiset<Id>)
    requires Covered(p, t) && part <= multiset(Blocks(t, slot))
    ensures Held(p, part)
  {
    HoldersSplit(t, slot);
    forall b: Id | 0 < b < |p.meta| ensures part[b] <= p.meta[b].ref {
      assert Holders(t)[b] <= p.meta[b].ref;
    }
  }

  lemma NullRangeMultiset(v: seq<Id>, lo: nat, hi: nat)
    requires lo <= hi <= |v|
    ensures forall b: Id :: b != NULL ==> multiset(NullRange(v, lo, hi))[b] + multiset(v[lo..hi])[b] == multiset(v)[b]
    ensures multiset(v[lo..hi]) <= multiset(v)
    ensures forall b :: b in NullRange(v, lo, hi) ==> b in v || b == NULL
  {
    assert v == v[..lo] + v[lo..hi] + v[hi..];
    NullsOnly(hi - lo);
  }

  lemma NullsOnly(n: nat)
    ensures forall b: Id :: b != NULL ==> multiset(Repeat<Id>(NULL, n))[b] == 0
  {
    forall b: Id | b in multiset(Repeat<Id>(NULL, n)) ensures b == NULL { assert b in Repeat<Id>(NULL, n); }
  }

  /** What releasing some of one slot's blocks keeps. */
  ghost predicate Released(p: Pool, t: Tm, q: Pool, u: Tm, slot: Slot) {
    Keeps(p, t, q, u, slot) && |q.free| >= |p.free| && SameHashes(p, q) && NoneGained(p, q)
  }

  /** No block has more holders than before. */
  ghost predicate NoneGained(p: Pool, q: Pool) {
    |q.meta| == |p.meta| && forall b :: 0 < b < |p.meta| ==> q.meta[b].ref <= p.meta[b].ref
  }

  lemma ReleasedSame(p: Pool, t: Tm, slot: Slot)
    requires Inv(p) && TmInv(p, t)
    ensures Released(p, t, p, t, slot)
  {
    Unmoved(p);
    Replaced(p, t, p, t, slot, multiset{}, multiset{});
  }

  lemma ReleasedTrans(p: Pool, t: Tm, q: Pool, u: Tm, r: Pool, v: Tm, slot: Slot)
    requires Released(p, t, q, u, slot) && Released(q, u, r, v, slot)
    ensures Released(p, t, r, v, slot)
  {
    KeptTrans(p, t, q, u, r, v, slot);
  }

  /** Releasing `ids` out of one slot's table, leaving the table of `u`. */
  lemma FreeInto(p: Pool, t: Tm, u: Tm, slot: Slot, ids: seq<Id>)
    requires Inv(p) && TmInv(p, t) && Covered(p, t) && OnlySlot(t, u, slot)
    requires multiset(ids) <= multiset(Blocks(t, slot)) && InRange(p, ids) && InRange(p, Blocks(u, slot))
    requires slot in u.allocatedReqs ==> HasState(u, slot)
    requires forall b: Id :: b != NULL ==>
               multiset(Blocks(u, slot))[b] + multiset(ids)[b] == multiset(Blocks(t, slot))[b]
    ensures Released(p, t, FreeBlocks(p, ids), u, slot)
  {
    TableHeld(p, t, slot, multiset(ids));
    FreeBlocksOk(p, ids);
    Replaced(p, t, FreeBlocks(p, ids), u, slot, multiset{}, multiset(ids));
  }

  lemma NullRangeOk(p: Pool, t: Tm, slot: Slot, lo: nat, hi: nat)
    requires Inv(p) && TmInv(p, t) && Covered(p, t) && slot in t.reqBlocks && lo <= hi <= |t.reqBlocks[slot]|
    ensures Released(p, t, FreeBlocks(p, Reverse(t.reqBlocks[slot][lo..hi])),
                     SetBlocks(t, slot, NullRange(t.reqBlocks[slot], lo, hi)), slot)
  {
    hide FreeBlocks, NullRange, Reverse, FreeOk, IndexOk, Covered, Released;
    var v := t.reqBlocks[slot];
    ReverseMultiset(v[lo..hi]);
    NullRangeMultiset(v, lo, hi);
    TableRange(p, t, slot);
    assert forall b :: b in v[lo..hi] ==> b in v;
    FreeInto(p, t, SetBlocks(t, slot, NullRange(v, lo, hi)), slot, Reverse(v[lo..hi]));
  }

  lemma RemoveRangeOk(p: Pool, t: Tm, slot: Slot, first: nat, last: nat)
    requires Inv(p) && TmInv(p, t) && Covered(p, t)
    ensures Released(p, t, RemoveRange(p, t, slot, first, last).0, RemoveRange(p, t, slot, first, last).1, slot)
    ensures |Blocks(RemoveRange(p, t, slot, first, last).1, slot)| == |Blocks(t, slot)|
  {
    if slot in t.reqBlocks && first < Min(last, |t.reqBlocks[slot]|) {
      var hi := Min(last, |t.reqBlocks[slot]|);
      NullRangeOk(p, t, slot, RunStart(t.reqBlocks[slot], first, hi), hi);
    } else {
      ReleasedSame(p, t, slot);
    }
  }

  lemma OneNull(v: seq<Id>, i: nat)
    requires i < |v|
    ensures [v[i]] == Reverse(v[i..i + 1]) && v[i := NULL] == NullRange(v, i, i + 1)
  {}

  lemma DropLastStateOk(p: Pool, t: Tm, slot: Slot, computed: nat)
    requires Inv(p) && TmInv(p, t) && Covered(p, t)
    ensures Released(p, t, DropLastState(p, t, slot, computed).0, DropLastState(p, t, slot, computed).1, slot)
    ensures |Blocks(DropLastState(p, t, slot, computed).1, slot)| == |Blocks(t, slot)|
  {
    if DropLastState(p, t, slot, computed) == (p, t) {
      ReleasedSame(p, t, slot);
    } else {
      var i := t.lastState[slot];
      var v := Blocks(t, slot);
      OneNull(v, i);
      NullRangeOk(p, t, slot, i, i + 1);
    }
  }

  /** Same group and maps, and a table of the same length. */
  predicate SameShape(t: Tm, u: Tm, slot: Slot) {
    && u.group == t.group && u.numCached == t.numCached && u.allocatedReqs == t.allocatedReqs
    && u.lastState == t.lastState && u.newIds == t.newIds && u.cachedThisStep == t.cachedThisStep
    && |Blocks(u, slot)| == |Blocks(t, slot)|
  }

  lemma RemoveRangeShape(p: Pool, t: Tm, slot: Slot, first: nat, last: nat)
    ensures SameShape(t, RemoveRange(p, t, slot, first, last).1, slot)
  {}

  lemma DropLastStateShape(p: Pool, t: Tm, slot: Slot, computed: nat)
    ensures SameShape(t, DropLastState(p, t, slot, computed).1, slot)
  {}

  /** The maps beside the tables, and the table's length, survive `remove_skipped_blocks`. */
  lemma RemoveSkippedShape(p: Pool, t: Tm, slot: Slot, total: nat)
    ensures SameShape(t, RemoveSkipped(p, t, slot, total).1, slot)
    ensures t.group.kind.FullAttention? ==> RemoveSkipped(p, t, slot, total) == (p, t)
  {
    if t.group.kind.Mamba? {
      var computed := Monus(total, t.group.numSpec);
      var t1 := TouchEntry(t, slot);
      var last := Min((computed - 1) / Bs(t), |Blocks(t1, slot)|);
      if computed > 1 {
        RemoveRangeShape(p, t1, slot, 0, last);
        var (q, u) := RemoveRange(p, t1, slot, 0, last);
        DropLastStateShape(q, u, slot, computed);
      } else {
        DropLastStateShape(p, t, slot, computed);
      }
    }
  }

  /** `remove_skipped_blocks` only gives blocks back. */
  lemma RemoveSkippedOk(p: Pool, t: Tm, slot: Slot, total: nat)
    requires Inv(p) && TmInv(p, t) && Covered(p, t)
    ensures Released(p, t, RemoveSkipped(p, t, slot, total).0, RemoveSkipped(p, t, slot, total).1, slot)
    ensures |Blocks(RemoveSkipped(p, t, slot, total).1, slot)| == |Blocks(t, slot)|
  {
    ReleasedSame(p, t, slot);
    if t.group.kind.Mamba? {
      var computed := Monus(total, t.group.numSpec);
      if computed > 1 {
        RemoveSkippedLong(p, t, slot, computed);
      } else {
        DropLastStateOk(p, t, slot, computed);
      }
    }
  }

  lemma RemoveSkippedLong(p: Pool, t: Tm, slot: Slot, computed: nat)
    requires Inv(p) && TmInv(p, t) && Covered(p, t) && computed > 0
    ensures var t1 := TouchEntry(t, slot);
      var (q, u) := RemoveRange(p, t1, slot, 0, Min((computed - 1) / Bs(t), |Blocks(t1, slot)|));
      var (r, v) := DropLastState(q, u, slot, computed);
      Released(p, t, r, v, slot) && |Blocks(v, slot)| == |Blocks(t, slot)|
  {
    hide Released, TmInv, Inv, CDiv, RunStart;
    var t1 := TouchEntry(t, slot);
    TouchEntryOk(p, t, slot);
    KeptCovered(p, t, p, t1, slot);
    var last := Min((computed - 1) / Bs(t), |Blocks(t1, slot)|);
    RemoveRangeOk(p, t1, slot, 0, last);
    var (q, u) := RemoveRange(p, t1, slot, 0, last);
    ReleasedTrans(p, t, p, t1, q, u, slot);
    KeptCovered(p, t, q, u, slot);
    DropLastStateOk(q, u, slot, computed);
    var (r, v) := DropLastState(q, u, slot, computed);
    ReleasedTrans(p, t, q, u, r, v, slot);
  }

  /** `free` leaves the slot nothing. */
  lemma FreeSlotOk(p: Pool, t: Tm, slot: Slot)
    requires Inv(p) && TmInv(p, t) && Covered(p, t)
    ensures Released(p, t, Free(p, t, slot).0, Free(p, t, slot).1, slot)
    ensures Blocks(Free(p, t, slot).1, slot) == [] && slot !in Free(p, t, slot).1.numCached
    ensures slot !in Free(p, t, slot).1.reqBlocks
  {
    var v := Blocks(t, slot);
    ReverseMultiset(v);
    TableRange(p, t, slot);
    FreeShape(p, t, slot);
    FreeInto(p, t, Free(p, t, slot).1, slot, Reverse(v));
  }

  lemma FreeShape(p: Pool, t: Tm, slot: Slot)
    requires TmInv(p, t)
    ensures OnlySlot(t, Free(p, t, slot).1, slot) && Blocks(Free(p, t, slot).1, slot) == []
    ensures slot !in Free(p, t, slot).1.allocatedReqs
  {}
}
