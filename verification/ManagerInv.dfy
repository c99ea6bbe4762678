/**
 * The reachable-state invariant: a non-null block's count is its number of occurrences in all
 * groups' request tables. Every fan-out keeps it.
 */
module ManagerInv {
  import opened Basics
  import opened PoolSpec
  import opened PoolInv
  import opened PoolCounts
  import opened TypeSpec
  import opened TypeInv
  import opened TypeAlloc
  import opened ManagerSpec

  /** All table entries of all groups. */
  ghost function HeldAll(ts: seq<Tm>): multiset<Id> {
    if ts == [] then multiset{} else Holders(ts[0]) + HeldAll(ts[1..])
  }

  ghost predicate Counted(p: Pool, ts: seq<Tm>) {
    forall b: Id :: 0 < b < |p.meta| ==> p.meta[b].ref == HeldAll(ts)[b]
  }

  ghost predicate TablesOk(p: Pool, ts: seq<Tm>) {
    forall i :: 0 <= i < |ts| ==> TmInv(p, ts[i]) && ts[i].group.id == i
  }

  ghost predicate GInv(p: Pool, ts: seq<Tm>) {
    Inv(p) && TablesOk(p, ts) && Counted(p, ts)
  }

  lemma {:induction false} HeldChange(ts: seq<Tm>, i: nat, u: Tm)
    requires i < |ts|
    ensures HeldAll(ts[i := u]) + Holders(ts[i]) == HeldAll(ts) + Holders(u)
  {
    if i == 0 {
      assert ts[0 := u][1..] == ts[1..];
    } else {
      HeldChange(ts[1..], i - 1, u);
      var us := ts[i := u];
      assert us[1..] == ts[1..][i - 1 := u] && us[0] == ts[0] && ts[1..][i - 1] == ts[i];
      var h, a, b, x, y := Holders(ts[0]), HeldAll(us[1..]), HeldAll(ts[1..]), Holders(ts[i]), Holders(u);
      assert a + x == b + y;
      assert (h + a) + x == h + (a + x) && (h + b) + y == h + (b + y);
    }
  }

  lemma {:induction false} HeldAtLeast(ts: seq<Tm>, i: nat)
    requires i < |ts|
    ensures Holders(ts[i]) <= HeldAll(ts)
  {
    if i > 0 { HeldAtLeast(ts[1..], i - 1); }
  }

  lemma GroupCovered(p: Pool, ts: seq<Tm>, i: nat)
    requires GInv(p, ts) && i < |ts|
    ensures Covered(p, ts[i])
  {
    HeldAtLeast(ts, i);
    forall b: Id | 0 < b < |p.meta| ensures Holders(ts[i])[b] <= p.meta[b].ref {
      assert p.meta[b].ref == HeldAll(ts)[b];
    }
  }

  /** Swapping in one group whose tables and counts moved together. */
  lemma GroupSwap(p: Pool, ts: seq<Tm>, i: nat, q: Pool, u: Tm)
    requires GInv(p, ts) && i < |ts| && Inv(q) && TmInv(q, u) && Balanced(p, ts[i], q, u) && u.group == ts[i].group
    ensures GInv(q, ts[i := u])
  {
    HeldChange(ts, i, u);
    forall b: Id | 0 < b < |q.meta| ensures q.meta[b].ref == HeldAll(ts[i := u])[b] {
      assert p.meta[b].ref == HeldAll(ts)[b];
      assert q.meta[b].ref + Holders(ts[i])[b] == p.meta[b].ref + Holders(u)[b];
      assert (HeldAll(ts[i := u]) + Holders(ts[i]))[b] == (HeldAll(ts) + Holders(u))[b];
    }
    var us := ts[i := u];
    forall j | 0 <= j < |us| ensures TmInv(q, us[j]) && us[j].group.id == j {
      assert TmInv(p, ts[j]) && ts[j].group.id == j;
      if j != i { TmInvPool(p, q, ts[j]); }
    }
  }

  lemma GroupStep(p: Pool, ts: seq<Tm>, i: nat, q: Pool, u: Tm, slot: Slot)
    requires GInv(p, ts) && i < |ts| && Keeps(p, ts[i], q, u, slot)
    ensures GInv(q, ts[i := u])
  {
    GroupSwap(p, ts, i, q, u);
  }

  lemma TmInvPool(p: Pool, q: Pool, t: Tm)
    requires TmInv(p, t) && |q.meta| == |p.meta|
    ensures TmInv(q, t)
  {
    forall s | s in t.reqBlocks ensures InRange(q, t.reqBlocks[s]) { assert InRange(p, t.reqBlocks[s]); }
  }

  lemma {:induction false} NothingHeld(ts: seq<Tm>)
    requires forall i :: 0 <= i < |ts| ==> ts[i].reqBlocks == map[]
    ensures HeldAll(ts) == multiset{}
  {
    if ts != [] { NothingHeld(ts[1..]); }
  }

  lemma InitGroups(p: Pool, ts: seq<Tm>, c: Config, n: nat)
    requires n > 0 && p == InitPool(c.caching, n) && ConfigOk(c)
    requires |ts| == |c.groups| && forall i :: 0 <= i < |ts| ==> ts[i] == InitTm(c.groups[i])
    ensures GInv(p, ts)
  {
    InitInv(c.caching, n);
    NothingHeld(ts);
  }

  /** The groups differ in this slot's entries only. */
  ghost predicate OnlySlots(ts: seq<Tm>, us: seq<Tm>, slot: Slot) {
    |us| == |ts| && forall i :: 0 <= i < |ts| ==> OnlySlot(ts[i], us[i], slot)
  }

  lemma OnlySlotsRefl(ts: seq<Tm>, slot: Slot)
    ensures OnlySlots(ts, ts, slot)
  {}

  lemma KeepsOnly(p: Pool, t: Tm, q: Pool, u: Tm, slot: Slot)
    requires Keeps(p, t, q, u, slot)
    ensures OnlySlot(t, u, slot) && q.caching == p.caching && |q.meta| == |p.meta|
  {}

  lemma GroupTables(p: Pool, ts: seq<Tm>, i: nat)
    requires GInv(p, ts) && i < |ts|
    ensures Inv(p) && TmInv(p, ts[i]) && ts[i].group.id == i
  {}

  lemma OnlySlotsStep(ts: seq<Tm>, i: nat, u: Tm, us: seq<Tm>, slot: Slot)
    requires i < |ts| && OnlySlot(ts[i], u, slot) && OnlySlots(ts[i := u], us, slot)
    ensures OnlySlots(ts, us, slot)
  {
    forall j | 0 <= j < |ts| ensures OnlySlot(ts[j], us[j], slot) {
      assert OnlySlot(ts[i := u][j], us[j], slot);
    }
  }

  /** Operations that need nothing of the caller. */
  predicate Plain(op: Op) { op.Skip? || op.Release? || op.File? || op.Prefix? }

  lemma DoOk(op: Op, p: Pool, t: Tm)
    requires Plain(op) && Inv(p) && TmInv(p, t) && Covered(p, t)
    ensures Do(op, p, t).ok && Keeps(p, t, Do(op, p, t).pool, Do(op, p, t).tm, op.slot)
    ensures |Do(op, p, t).pool.free| >= |p.free|
  {
    match op
    case Skip(slot, total) => RemoveSkippedOk(p, t, slot, total);
    case Release(slot) => FreeSlotOk(p, t, slot);
    case File(slot, hashes, hb, tokens) => CacheBlocksOk(p, t, slot, hashes, t.group.blockSize / hb, tokens);
    case Prefix(slot) => CommonPrefixOk(p, t, slot);
    case _ =>
  }

  lemma {:induction false} PlainOk(op: Op, p: Pool, ts: seq<Tm>, i: nat, outs: seq<seq<nat>>)
    requires Plain(op) && GInv(p, ts) && i <= |ts|
    ensures FanOut(op, p, ts, i, outs).ok
    ensures GInv(FanOut(op, p, ts, i, outs).pool, FanOut(op, p, ts, i, outs).tms)
    ensures OnlySlots(ts, FanOut(op, p, ts, i, outs).tms, op.slot)
    ensures |FanOut(op, p, ts, i, outs).pool.free| >= |p.free|
    ensures FanOut(op, p, ts, i, outs).pool.caching == p.caching
    ensures |FanOut(op, p, ts, i, outs).pool.meta| == |p.meta|
    decreases |ts| - i
  {
    if i < |ts| {
      GroupCovered(p, ts, i);
      DoOk(op, p, ts[i]);
      var s := Do(op, p, ts[i]);
      GroupStep(p, ts, i, s.pool, s.tm, op.slot);
      PlainOk(op, s.pool, ts[i := s.tm], i + 1, outs + [s.out]);
      OnlySlotsStep(ts, i, s.tm, FanOut(op, p, ts, i, outs).tms, op.slot);
    }
  }

  lemma {:induction false} StepStartOk(p: Pool, ts: seq<Tm>, i: nat, outs: seq<seq<nat>>)
    requires GInv(p, ts) && i <= |ts|
    ensures var f := FanOut(StepStart, p, ts, i, outs);
      f.ok && f.pool == p && GInv(p, f.tms) && |f.tms| == |ts|
      && forall j :: 0 <= j < |ts| ==> f.tms[j] == if j < i then ts[j] else NewStep(ts[j])
    decreases |ts| - i
  {
    if i < |ts| {
      GroupSwap(p, ts, i, p, NewStep(ts[i]));
      StepStartOk(p, ts[i := NewStep(ts[i])], i + 1, outs + [[]]);
    }
  }

  // ---- one group's part of a fan-out ------------------------------------------------

  /** In a fan-out that succeeds, group `g` was visited once, with some pool. */
  lemma {:induction false} FanGroup(op: Op, p: Pool, ts: seq<Tm>, i: nat, outs: seq<seq<nat>>, g: nat) returns (q: Pool)
    requires i <= g < |ts| && |outs| == i && FanOut(op, p, ts, i, outs).ok
    ensures var f := FanOut(op, p, ts, i, outs);
      |f.tms| == |f.outs| == |ts| && f.tms[g] == Do(op, q, ts[g]).tm && f.outs[g] == Do(op, q, ts[g]).out
        && Do(op, q, ts[g]).ok
    decreases g - i
  {
    hide Do;
    var s := Do(op, p, ts[i]);
    FanKept(op, s.pool, ts[i := s.tm], i + 1, outs + [s.out]);
    if i == g {
      q := p;
    } else {
      q := FanGroup(op, s.pool, ts[i := s.tm], i + 1, outs + [s.out], g);
    }
  }

  /** Groups already visited stay as they are. */
  lemma {:induction false} FanKept(op: Op, p: Pool, ts: seq<Tm>, i: nat, outs: seq<seq<nat>>)
    requires i <= |ts| && |outs| == i
    ensures var f := FanOut(op, p, ts, i, outs);
      |f.tms| == |ts| && (f.ok ==> |f.outs| == |ts|) && |f.outs| >= i
      && forall j :: 0 <= j < i ==> f.tms[j] == ts[j] && f.outs[j] == outs[j]
    decreases |ts| - i
  {
    hide Do;
    if i < |ts| {
      var s := Do(op, p, ts[i]);
      if s.ok { FanKept(op, s.pool, ts[i := s.tm], i + 1, outs + [s.out]); }
    }
  }
}
