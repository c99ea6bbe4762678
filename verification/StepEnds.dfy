/**
 * The two ends of a step. At its start the states cached by the step before may be used again; at its
 * end the common prefix of a group is counted: the leading blocks that every request's table lists.
 */
module StepEnds {
  import opened Basics
  import opened PoolSpec
  import opened PoolInv
  import opened TypeSpec
  import opened TypeInv
  import opened ManagerSpec
  import opened ManagerInv
  import opened Admission
  import opened SchedSpec
  import opened StepProps
  import opened RunInv
  import opened Commits
  import opened Refusals
  import opened BoundaryRuns

  // ---- the start --------------------------------------------------------------------

  /** A new step forgets which states the last one cached, and nothing else. */
  lemma StartForgets(s: State)
    requires StateInv(s)
    ensures var r := StartStep(s);
      && r == s.(tms := r.tms) && |r.tms| == |s.tms|
      && forall g :: 0 <= g < |s.tms| ==>
           && r.tms[g] == s.tms[g].(cachedThisStep := r.tms[g].cachedThisStep)
           && (if s.tms[g].group.kind.Mamba? then r.tms[g].cachedThisStep == {}
               else r.tms[g].cachedThisStep == s.tms[g].cachedThisStep)
  {
    hide StateInv, StartStep;
    StartStepKeeps(s);
  }

  /** So no hit is too fresh at the start of a step. */
  lemma NothingFreshYet(s: State, hits: seq<seq<Id>>)
    requires StateInv(s)
    ensures !AnyFresh(StartStep(s).pool, StartStep(s).tms, hits, 0)
  {
    hide StateInv, StartStep;
    StartForgets(s);
  }

  /** What mamba files is too fresh for a hit until the next step. */
  lemma FiledIsFresh(p: Pool, t: Tm, slot: Slot, hashes: seq<Digest>, stride: nat, tokens: nat, i: nat, hit: seq<Id>)
    requires t.group.kind.Mamba? && NumCached(t, slot) <= i < tokens / Bs(t) && i < |Blocks(t, slot)|
    requires hit != [] && hit[|hit| - 1] == Blocks(t, slot)[i]
    ensures var (q, u) := CacheBlocks(p, t, slot, hashes, stride, tokens);
      !At(q, Blocks(t, slot)[i]).isNull && At(q, Blocks(t, slot)[i]).hash.Some? ==> TooFresh(q, u, hit)
  {
    hide CacheFull;
    var (q, u) := CacheBlocks(p, t, slot, hashes, stride, tokens);
    var v, from, to := Blocks(t, slot), NumCached(t, slot), tokens / Bs(t);
    var part := Slice(v, from, to);
    assert part[i - from] == v[i];
    if !At(q, v[i]).isNull && At(q, v[i]).hash.Some? { assert At(q, v[i]).hash.value in StepKeys(q, part); }
  }

  // ---- the end ----------------------------------------------------------------------

  /** The count stops at the first block whose count is not the number of requests. */
  lemma {:induction false} SharedStops(p: Pool, v: seq<Id>, reqs: nat)
    ensures var k := SharedPrefix(p, v, reqs);
      && k <= |v| && (forall i :: 0 <= i < k ==> At(p, v[i]).ref == reqs)
      && (k < |v| ==> At(p, v[k]).ref != reqs)
    decreases |v|
  {
    if v != [] {
      SharedStops(p, v[1..], reqs);
      forall i | 0 <= i < SharedPrefix(p, v, reqs) ensures At(p, v[i]).ref == reqs {
        if i > 0 { assert v[1..][i - 1] == v[i]; }
      }
    }
  }

  /** No table lists the block twice, and no other group lists it. */
  ghost predicate OwnBlock(ts: seq<Tm>, g: nat, b: Id) {
    && g < |ts| && (forall x :: x in ts[g].reqBlocks ==> multiset(ts[g].reqBlocks[x])[b] <= 1)
    && (forall h :: 0 <= h < |ts| && h != g ==> Holders(ts[h])[b] == 0)
  }

  lemma {:induction false} EntriesAll(m: map<Slot, seq<Id>>, b: Id)
    requires forall x :: x in m ==> multiset(m[x])[b] <= 1
    ensures Entries(m)[b] <= |m| && (Entries(m)[b] == |m| <==> forall x :: x in m ==> b in m[x])
    decreases m.Keys
  {
    if m != map[] {
      var k :| k in m;
      EntriesSplit(m, k);
      var rest := m - {k};
      EntriesAll(rest, b);
      assert m.Keys == rest.Keys + {k} && |m| == |m.Keys| && |rest| == |rest.Keys|;
      assert b in m[k] <==> multiset(m[k])[b] == 1;
      if forall x :: x in rest ==> b in rest[x] {
        assert b in m[k] ==> forall x :: x in m ==> b in m[x] by {
          forall x | x in m && b in m[k] ensures b in m[x] { if x != k { assert x in rest; } }
        }
      }
    }
  }

  lemma {:induction false} HeldOnlyBy(ts: seq<Tm>, g: nat, b: Id)
    requires g < |ts| && forall h :: 0 <= h < |ts| && h != g ==> Holders(ts[h])[b] == 0
    ensures HeldAll(ts)[b] == Holders(ts[g])[b]
  {
    if g == 0 {
      HeldByNone(ts[1..], b);
    } else {
      HeldOnlyBy(ts[1..], g - 1, b);
    }
  }

  lemma {:induction false} HeldByNone(ts: seq<Tm>, b: Id)
    requires forall h :: 0 <= h < |ts| ==> Holders(ts[h])[b] == 0
    ensures HeldAll(ts)[b] == 0
  {
    if ts != [] { HeldByNone(ts[1..], b); }
  }

  /** Every request of the group lists the block. */
  ghost predicate ListedByAll(t: Tm, b: Id) { forall x :: x in t.reqBlocks ==> b in t.reqBlocks[x] }

  /** A block's count is the number of requests exactly when all of them list it. */
  lemma CountMeansAll(p: Pool, ts: seq<Tm>, g: nat, b: Id)
    requires GInv(p, ts) && OwnBlock(ts, g, b) && 0 < b < |p.meta|
    ensures At(p, b).ref == |ts[g].reqBlocks| <==> ListedByAll(ts[g], b)
  {
    HeldOnlyBy(ts, g, b);
    EntriesAll(ts[g].reqBlocks, b);
    assert p.meta[b].ref == HeldAll(ts)[b];
  }

  lemma {:induction false} PrefixOuts(slot: Slot, p: Pool, ts: seq<Tm>, i: nat, outs: seq<seq<nat>>)
    requires i <= |ts| && |outs| == i
    ensures var f := FanOut(Prefix(slot), p, ts, i, outs);
      && f.ok && f.pool == p && |f.tms| == |f.outs| == |ts|
      && (forall g :: 0 <= g < i ==> f.outs[g] == outs[g] && f.tms[g] == ts[g])
      && (forall g :: i <= g < |ts| ==>
            f.outs[g] == [CommonPrefix(p, ts[g], slot)] && f.tms[g] == CommonEntry(ts[g], slot))
    decreases |ts| - i
  {
    hide CommonPrefix, CommonEntry;
    if i < |ts| {
      var s := Do(Prefix(slot), p, ts[i]);
      PrefixOuts(slot, p, ts[i := s.tm], i + 1, outs + [s.out]);
    }
  }

  /**
   * `get_num_common_prefix_blocks`: none for mamba or without caching; for full attention the leading
   * blocks of the request's table that the tables of all requests of the group list, up to the first
   * that some table lacks.
   */
  lemma CommonMeans(s: State, slot: Slot, g: nat)
    requires StateInv(s) && g < |s.tms|
    ensures var (r, counts) := CommonPrefixAll(s, slot);
      && |r.tms| == |counts| == |s.tms|
      && (!s.cfg.caching || s.tms[g].group.kind.Mamba? ==> counts[g] == 0)
      && (s.cfg.caching && s.tms[g].group.kind.FullAttention? ==>
            && counts[g] <= |Blocks(s.tms[g], slot)|
            && (forall i :: 0 <= i <= counts[g] && i < |Blocks(s.tms[g], slot)| ==>
                  var b := Blocks(s.tms[g], slot)[i];
                  b != NULL && OwnBlock(r.tms, g, b) ==> (ListedByAll(r.tms[g], b) <==> i < counts[g])))
  {
    hide GInv, ConfigOk, SharedPrefix, OwnBlock, ListedByAll;
    if s.cfg.caching {
      PrefixOuts(slot, s.pool, s.tms, 0, []);
      CommonPrefixKeeps(s, slot);
      var (r, counts) := CommonPrefixAll(s, slot);
      if s.tms[g].group.kind.FullAttention? {
        var v := Blocks(s.tms[g], slot);
        SharedStops(s.pool, v, |CommonEntry(s.tms[g], slot).reqBlocks|);
        forall i | 0 <= i <= counts[g] && i < |v| && v[i] != NULL && OwnBlock(r.tms, g, v[i])
          ensures ListedByAll(r.tms[g], v[i]) <==> i < counts[g]
        {
          GroupTables(s.pool, s.tms, g);
          assert v[i] in v;
          TableRange(s.pool, s.tms[g], slot);
          CountMeansAll(r.pool, r.tms, g, v[i]);
        }
      }
    }
  }

  lemma {:induction false} PrefixAgain(slot: Slot, p: Pool, ts: seq<Tm>, us: seq<Tm>, g: nat)
    requires |us| == |ts| && g < |ts| && us[g] == CommonEntry(ts[g], slot)
    ensures CommonPrefix(p, us[g], slot) == CommonPrefix(p, ts[g], slot)
  {}

  /** Counting again finds the same, and a commit in between does not matter. */
  lemma CommonAgain(s: State, slot: Slot, r: State)
    requires r == CommonPrefixAll(s, slot).0.(table := r.table)
    ensures CommonPrefixAll(r, slot).1 == CommonPrefixAll(s, slot).1
  {
    hide CommonPrefix, CommonEntry;
    PrefixOuts(slot, s.pool, s.tms, 0, []);
    PrefixOuts(slot, r.pool, r.tms, 0, []);
    if s.cfg.caching {
      forall g | 0 <= g < |s.tms| ensures CommonPrefix(r.pool, r.tms[g], slot) == CommonPrefix(s.pool, s.tms[g], slot) {
        PrefixAgain(slot, s.pool, s.tms, r.tms, g);
      }
    }
  }

  /** The first request a step leaves running: the first that ran and was not preempted, else the
      first admitted. */
  function FirstSlot(running: seq<Entry>, d: Decisions): Option<Slot> {
    if |running| > |d.preempted| then Some(running[0].slot)
    else if d.admitted != [] then Some(d.admitted[0].slot)
    else None
  }

  /** A step reports the common prefix of the first request it leaves running, as the state it leaves
      has it; with nobody running it reports none. */
  lemma StepCounts(s: State, running: seq<Entry>, waiting: seq<Entry>, prm: Params)
    requires Run(s, running, waiting, prm).Ok? && DistinctSlots(running)
    ensures var r, d := Run(s, running, waiting, prm).state, Run(s, running, waiting, prm).decisions;
      match FirstSlot(running, d)
      case Some(slot) => d.commonPrefix == CommonPrefixAll(r, slot).1
      case None => forall g :: 0 <= g < |d.commonPrefix| ==> d.commonPrefix[g] == 0
  {
    hide Arrange, RunRunning, RunWaiting, CommonPrefixAll, Commit, DistinctSlots;
    var (s0, queue) := Arrange(s, waiting, prm);
    LoopsTable(s0, running, queue, prm);
    StepBooks(s0, running, queue, prm);
    var l := RunRunning(s0, running, 0, prm.maxTokens, NONE, prm);
    var w := Waiting(l, queue, prm);
    var d := Run(s, running, waiting, prm).decisions;
    assert |Slots(running)| == |Slots(l.running)| + |Reverse(l.d.preempted)|;
    assert |AdmittedSlots(d.admitted)| + |Slots(queue[w.taken..])| == |Slots(queue)|;
    if w.running != [] {
      CommitTable(CommonPrefixAll(w.state, w.running[0].slot).0, d, w.running, prm);
      CommonAgain(w.state, w.running[0].slot, Run(s, running, waiting, prm).state);
      if |running| == |d.preempted| { assert AdmittedSlots(d.admitted)[0] == Slots(queue)[0]; }
    }
  }
}
