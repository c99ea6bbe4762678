/**
 * End-to-end soundness of a prefix hit. Over any run in which the hashes pushed for a request are
 * the chain of its tokens, every key in the index is the hash of a block boundary of some request's
 * tokens; so, barring collisions among what was hashed, a block found for the `i`-th block of a
 * request was filed under its key by an event that had a request with exactly the same tokens up to
 * that block's end, or was there from the start for such tokens.
 */
module PrefixSound {
  import opened Basics
  import opened PoolSpec
  import opened PoolInv
  import opened PoolCounts
  import opened TypeSpec
  import opened TypeInv
  import opened HitSpec
  import opened ManagerSpec
  import opened ManagerInv
  import opened Admission
  import opened SchedSpec
  import opened StepProps
  import opened RunInv
  import opened Served
  import opened TableSpec
  import opened CacheReset
  import opened Mutations
  import opened Boundaries
  import opened BoundaryRuns
  import opened Recycled
  import P = Pickle
  import C = HashChain

  // ---- what an event files ----------------------------------------------------------

  /** Hashes per block of the group. */
  function StrideOf(c: Config, g: nat): nat { if g < |c.groups| then c.groups[g].blockSize / c.hashBlock else 0 }

  /** The key of some block boundary of some request. */
  ghost predicate NamedBy(s: State, k: HashKey) {
    exists x: Slot, i: nat :: KeyAt(Hashes(s, x), StrideOf(s.cfg, k.group), k.group, i) == Some(k)
  }

  /** Hashes and configuration stay, and what enters the index is the key of a request's boundary. */
  ghost predicate Files(s: State, r: State) {
    r.cfg == s.cfg && r.hashes == s.hashes && forall k, b :: Entered(s.pool, r.pool, k, b) ==> NamedBy(s, k)
  }

  lemma FilesNone(s: State, r: State)
    requires r.cfg == s.cfg && r.hashes == s.hashes
    requires forall k, b :: Contain(r.pool.cached, k, b) ==> Contain(s.pool.cached, k, b)
    ensures Files(s, r)
  {}

  lemma FilesTrans(s: State, q: State, r: State)
    requires Files(s, q) && Files(q, r)
    ensures Files(s, r)
  {
    hide NamedBy;
    forall k, b | Entered(s.pool, r.pool, k, b) ensures NamedBy(s, k)
    {
      EnteredVia(s.pool, q.pool, r.pool, k, b);
      if Entered(q.pool, r.pool, k, b) { SameNames(s, q, k); }
    }
  }

  lemma SameNames(s: State, q: State, k: HashKey)
    requires q.cfg == s.cfg && q.hashes == s.hashes
    ensures NamedBy(q, k) <==> NamedBy(s, k)
  {
    forall x: Slot ensures Hashes(q, x) == Hashes(s, x) {}
  }

  lemma GrowNothing(slot: Slot, tokens: nat, main: nat, p: Pool, ts: seq<Tm>, k: HashKey, b: Id)
    requires GInv(p, ts) && main > 0 && WantedFrom(ts, slot, tokens, main, 0) <= |p.free|
    ensures !Entered(p, All(Grow(slot, tokens, main), p, ts).pool, k, b)
  {
    hide GInv, WantedFrom, Entered;
    GrowEnters(slot, tokens, main, p, ts, 0, []);
    assert !Entered(p, FanOut(Grow(slot, tokens, main), p, ts, 0, []).pool, k, b);
  }

  lemma FileOfGroups(slot: Slot, hashes: seq<Digest>, hb: Pos, tokens: nat, p: Pool, ts: seq<Tm>, k: HashKey, b: Id)
    requires GInv(p, ts) && Entered(p, All(File(slot, hashes, hb, tokens), p, ts).pool, k, b)
    ensures OfGroups(ts, 0, slot, hashes, hb, tokens, k, b)
  {
    hide GInv, Entered, OfGroups;
    AllFileEnters(slot, hashes, hb, tokens, p, ts, 0, []);
    assert Entered(p, FanOut(File(slot, hashes, hb, tokens), p, ts, 0, []).pool, k, b);
  }

  /** Filing a request's blocks in all groups. */
  lemma CacheFiles(s: State, slot: Slot, tokens: nat)
    requires StateInv(s)
    ensures Files(s, CacheAll(s, slot, tokens))
  {
    hide GInv, ConfigOk, FanOut, OfGroup;
    if s.cfg.caching {
      var upTo := Cacheable(s.cfg, tokens);
      var r := CacheAll(s, slot, tokens);
      forall k, b | Entered(s.pool, r.pool, k, b) ensures NamedBy(s, k)
      {
        FileOfGroups(slot, Hashes(s, slot), s.cfg.hashBlock, upTo, s.pool, s.tms, k, b);
        var g :| 0 <= g < |s.tms| && OfGroup(s.tms[g], slot, Hashes(s, slot), s.cfg.hashBlock, upTo, k, b);
        GroupStride(s, g);
        GroupNames(s, s.tms[g], slot, upTo, k, b);
      }
    }
  }

  lemma GroupNames(s: State, t: Tm, slot: Slot, upTo: nat, k: HashKey, b: Id)
    requires OfGroup(t, slot, Hashes(s, slot), s.cfg.hashBlock, upTo, k, b)
    requires StrideOf(s.cfg, t.group.id) == t.group.blockSize / s.cfg.hashBlock
    ensures NamedBy(s, k)
  {
    var v, stride, g := Blocks(t, slot), t.group.blockSize / s.cfg.hashBlock, t.group.id;
    var i: nat :| NumCached(t, slot) <= i < upTo / Bs(t) && i < |v| && v[i] == b
        && KeyAt(Hashes(s, slot), stride, g, i) == Some(k);
    assert KeyAt(Hashes(s, slot), StrideOf(s.cfg, k.group), k.group, i) == Some(k);
  }

  lemma GroupStride(s: State, g: nat)
    requires StateInv(s) && g < |s.tms|
    ensures s.tms[g].group.id == g && StrideOf(s.cfg, g) == s.tms[g].group.blockSize / s.cfg.hashBlock
  {}

  lemma GrantFiles(s: State, c: Call)
    requires StateInv(s) && CallOk(s, c) && c.newTokens > 0
    requires Admits(s, c, All(Skip(c.slot, Total(s, c)), s.pool, s.tms))
    ensures var f1 := All(Skip(c.slot, Total(s, c)), s.pool, s.tms);
      var f2 := AddAll(f1.pool, f1.tms, c, CallHits(s, c));
      var f3 := All(Grow(c.slot, NeedTokens(s, c), MainTokens(s, c)), f2.pool, f2.tms);
      forall k, b :: !Entered(s.pool, f3.pool, k, b)
  {
    hide GInv, ConfigOk, FanOut, Admits, Blank, HitsExist, NoneGained, WantedFrom, Entered;
    SkipAllOk(s, c);
    var f1 := All(Skip(c.slot, Total(s, c)), s.pool, s.tms);
    AdmittedFits(s, c, f1);
    var f2 := AddAll(f1.pool, f1.tms, c, CallHits(s, c));
    AddSame(s, c, f1);
    var f3 := All(Grow(c.slot, NeedTokens(s, c), MainTokens(s, c)), f2.pool, f2.tms);
    SameCached(s.pool, f2.pool, f3.pool);
    forall k, b ensures !Entered(s.pool, f3.pool, k, b)
    {
      GrowNothing(c.slot, NeedTokens(s, c), MainTokens(s, c), f2.pool, f2.tms, k, b);
      assert Entered(s.pool, f3.pool, k, b) <==> Entered(f2.pool, f3.pool, k, b);
    }
  }

  /** Holding the hit files nothing. */
  lemma AddSame(s: State, c: Call, f1: Fan)
    requires GInv(f1.pool, f1.tms)
    requires (CallHits(s, c) != [] ==> Blank(f1.tms, c.slot) && HitsExist(f1.pool, CallHits(s, c)) && f1.pool.caching)
    ensures AddAll(f1.pool, f1.tms, c, CallHits(s, c)).pool.cached == f1.pool.cached
  {
    hide GInv, FanOut, HitsExist;
    if CallHits(s, c) != [] {
      NotCached(f1.tms, c.slot);
      AddOk(c.slot, CallHits(s, c), c.computed + c.newComputed, f1.pool, f1.tms, 0, []);
    }
  }

  lemma AllocFiles(s: State, c: Call)
    requires StateInv(s) && CallOk(s, c)
    ensures Files(s, AllocateSlots(s, c).0)
  {
    hide GInv, ConfigOk, FanOut, Admits, AddAll, Blank, HitsExist, NoneGained, CacheAll, Files, CallHits, OnlySlots,
         Entered;
    if c.newTokens == 0 {
      FilesNone(s, s);
    } else {
      SkipAllOk(s, c);
      var f1 := All(Skip(c.slot, Total(s, c)), s.pool, s.tms);
      if Admits(s, c, f1) {
        GrantFiles(s, c);
        GrantedOk(s, c);
        var f2 := AddAll(f1.pool, f1.tms, c, CallHits(s, c));
        var f3 := All(Grow(c.slot, NeedTokens(s, c), MainTokens(s, c)), f2.pool, f2.tms);
        var s3 := s.(pool := f3.pool, tms := f3.tms);
        NothingFiled(s, s3);
        GrantedState(s, c, f1, s3);
        CacheFiles(s3, c.slot, Min(MainTokens(s, c), c.reqTokens));
        FilesTrans(s, s3, CacheAll(s3, c.slot, Min(MainTokens(s, c), c.reqTokens)));
      } else {
        FilesNone(s, s.(pool := f1.pool, tms := f1.tms));
      }
    }
  }

  lemma NothingFiled(s: State, r: State)
    requires r.cfg == s.cfg && r.hashes == s.hashes && forall k, b :: !Entered(s.pool, r.pool, k, b)
    ensures Files(s, r)
  {}

  lemma GrantedState(s: State, c: Call, f1: Fan, s3: State)
    requires StateInv(s) && CallOk(s, c) && c.newTokens > 0 && f1 == All(Skip(c.slot, Total(s, c)), s.pool, s.tms)
    requires Admits(s, c, f1)
    requires var f2 := AddAll(f1.pool, f1.tms, c, CallHits(s, c));
      var f3 := All(Grow(c.slot, NeedTokens(s, c), MainTokens(s, c)), f2.pool, f2.tms);
      s3 == s.(pool := f3.pool, tms := f3.tms)
    ensures StateInv(s3)
  {
    hide GInv, ConfigOk, FanOut, Admits, AddAll, Blank, HitsExist, NoneGained, CallOk;
    SkipAllOk(s, c);
    GrantedOk(s, c);
    var f2 := AddAll(f1.pool, f1.tms, c, CallHits(s, c));
    OnlySlotsTrans(s.tms, f1.tms, f2.tms, c.slot);
    OnlySlotsTrans(s.tms, f2.tms, s3.tms, c.slot);
    GroupsKept(s, s3, c.slot);
  }

  lemma FreeFiles(s: State, slot: Slot)
    requires StateInv(s)
    ensures Files(s, FreeSlot(s, slot))
  {
    hide StateInv, FreeSlot;
    FreeSlotKeeps(s, slot);
    FreeParts(s, slot);
    FilesNone(s, FreeSlot(s, slot));
  }

  // ---- one step ---------------------------------------------------------------------

  lemma {:induction false} TryFiles(s: State, running: seq<Entry>, preempted: seq<Slot>, e: Entry, n: nat, prm: Params)
    requires StateInv(s) && n > 0
    ensures Files(s, TryAllocate(s, running, preempted, e, n, prm).state)
    decreases |running|
  {
    hide AllocateSlots, FreeSlot, StateInv, Files, CallOk;
    RunningCallOk(s, e, n, prm);
    AllocFiles(s, RunningCall(e, n, prm));
    AllOrNothing(s, RunningCall(e, n, prm));
    var (s1, out) := AllocateSlots(s, RunningCall(e, n, prm));
    if out.Refused? && running != [] {
      var victim := running[|running| - 1];
      FreeFiles(s1, victim.slot);
      FreeSlotKeeps(s1, victim.slot);
      var s2 := FreeSlot(s1, victim.slot);
      FilesTrans(s, s1, s2);
      if victim.slot != e.slot {
        TryFiles(s2, running[..|running| - 1], preempted + [victim.slot], e, n, prm);
        FilesTrans(s, s2, TryAllocate(s, running, preempted, e, n, prm).state);
      }
    }
  }

  lemma {:induction false} RunningFiles(s: State, running: seq<Entry>, i: nat, budget: nat, d: Decisions, prm: Params)
    requires StateInv(s)
    ensures Files(s, RunRunning(s, running, i, budget, d, prm).state)
    decreases |running| - i
  {
    hide TryAllocate, RunningTokens, StateInv, Files, Progress;
    FilesNone(s, s);
    if i < |running| && budget > 0 {
      var n := RunningTokens(running[i], budget, prm);
      if n == 0 {
        RunningFiles(s, running, i + 1, budget, d, prm);
      } else {
        var slots := SlotSet(running) + {running[i].slot};
        TryKeeps(s, running, d.preempted, running[i], n, prm, slots);
        TryFiles(s, running, d.preempted, running[i], n, prm);
        var t := TryAllocate(s, running, d.preempted, running[i], n, prm);
        ProgressInv(s, t.state, slots);
        TryShorter(s, running, d.preempted, running[i], n, prm);
        if t.outcome.Granted? {
          var d2 := Record(d.(preempted := t.preempted), running[i].slot, n, t.outcome.blocks);
          RunningFiles(t.state, t.running, i + 1, Monus(budget, n), d2, prm);
          FilesTrans(s, t.state, RunRunning(s, running, i, budget, d, prm).state);
        }
      }
    }
  }

  lemma {:induction false} WaitingFiles(s: State, running: seq<Entry>, waiting: seq<Entry>, k: nat, budget: nat,
                                        d: Decisions, prm: Params)
    requires StateInv(s) && k <= |waiting| && QueueOk(s.tms, waiting, k)
    ensures Files(s, RunWaiting(s, running, waiting, k, budget, d, prm).state)
    decreases |waiting| - k
  {
    hide AllocateSlots, AskOf, WaitingTokens, StateInv, CallOk, HitsExist, Blank, Files;
    FilesNone(s, s);
    if k < |waiting| && budget > 0 && |running| < prm.maxRunning {
      var e := waiting[k];
      AskKeeps(s, e, prm);
      var a := AskOf(s, e, prm);
      FilesNone(s, a.state);
      NoHit(s, e, prm);
      AskableTokens(s, e, prm);
      var n := WaitingTokens(a, e, budget, prm);
      if n > 0 && !(!prm.chunked && a.tokens > budget) {
        WaitingCallOk(s, a, e, n, prm, running != []);
        var c := WaitingCall(e, n, a.hit, prm, running != []);
        AllOrNothing(a.state, c);
        AllocFiles(a.state, c);
        var (s2, out) := AllocateSlots(a.state, c);
        FilesTrans(s, a.state, s2);
        if out.Granted? {
          BlankOthers(a.state, s2, waiting, k);
          WaitingFiles(s2, running + [e], waiting, k + 1, Monus(budget, n),
                       d.(admitted := d.admitted + [Admitted(e.slot, n, a.computed)]), prm);
          FilesTrans(s, s2, RunWaiting(s, running, waiting, k, budget, d, prm).state);
        }
      }
    }
  }

  lemma ArrangeFiles(s: State, waiting: seq<Entry>, prm: Params)
    requires StateInv(s)
    ensures Files(s, Arrange(s, waiting, prm).0)
  {
    hide StateInv, StartStep, Pick, SortKeys, Files;
    StartStepKeeps(s);
    if prm.sjf { KeysFromKeeps(StartStep(s), waiting, 0, [], prm); }
    FilesNone(s, Arrange(s, waiting, prm).0);
  }

  lemma PrefixFiles(s: State, slot: Slot)
    requires StateInv(s)
    ensures Files(s, CommonPrefixAll(s, slot).0)
  {
    hide StateInv, FanOut, Files;
    CommonPrefixKeeps(s, slot);
    PrefixPool(slot, s.pool, s.tms, 0, []);
    FilesNone(s, CommonPrefixAll(s, slot).0);
  }

  lemma EpilogueFiles(w: Wait, queue: seq<Entry>, prm: Params)
    requires StateInv(w.state) && w.taken <= |queue|
    ensures Files(w.state, Epilogue(w, queue, prm).state)
  {
    hide StateInv, Files, CommonPrefixAll, Commit;
    var s := w.state;
    FilesNone(s, s);
    if w.running != [] {
      PrefixFiles(s, w.running[0].slot);
      s := CommonPrefixAll(s, w.running[0].slot).0;
    }
    var d := Epilogue(w, queue, prm).decisions;
    CommitTable(s, d, w.running, prm);
    FilesNone(s, Commit(s, d, w.running, prm));
    FilesTrans(w.state, s, Commit(s, d, w.running, prm));
  }

  lemma StepFiles(s: State, running: seq<Entry>, waiting: seq<Entry>, prm: Params)
    requires WellPosed(s, running, waiting)
    ensures Run(s, running, waiting, prm).Ok? && Files(s, Run(s, running, waiting, prm).state)
  {
    hide Arrange, RunRunning, RunWaiting, Epilogue, StateInv, Progress, QueueOk, Files;
    StepKeeps(s, running, waiting, prm);
    ArrangeKeeps(s, waiting, prm);
    ArrangePermutes(s, waiting, prm);
    ArrangeFiles(s, waiting, prm);
    var (s0, queue) := Arrange(s, waiting, prm);
    RunningKeeps(s0, running, 0, prm.maxTokens, NONE, prm, SlotSet(running));
    RunningFiles(s0, running, 0, prm.maxTokens, NONE, prm);
    var l := RunRunning(s0, running, 0, prm.maxTokens, NONE, prm);
    ProgressInv(s0, l.state, SlotSet(running));
    FilesTrans(s, s0, l.state);
    forall f | f in queue
      ensures f.slot !in SlotSet(running)
    {
      assert f in multiset(queue);
      assert f in multiset(waiting);
    }
    ProgressQueue(s0, l.state, SlotSet(running), queue);
    if l.d.preempted == [] {
      WaitingKeeps(l.state, l.running, queue, 0, l.budget, l.d, prm);
      WaitingFiles(l.state, l.running, queue, 0, l.budget, l.d, prm);
      FilesTrans(s, l.state, Waiting(l, queue, prm).state);
    }
    var w := Waiting(l, queue, prm);
    EpilogueFiles(w, queue, prm);
    FilesTrans(s, w.state, Epilogue(w, queue, prm).state);
  }

  // ---- whole runs -------------------------------------------------------------------

  /** The pool's part of `Files`, for events that may also touch hashes. */
  ghost predicate Indexes(s: State, r: State) {
    r.cfg == s.cfg && forall k, b :: Entered(s.pool, r.pool, k, b) ==> NamedBy(s, k)
  }

  lemma IndexesNone(s: State, r: State)
    requires r.cfg == s.cfg && forall k, b :: Contain(r.pool.cached, k, b) ==> Contain(s.pool.cached, k, b)
    ensures Indexes(s, r)
  {}

  lemma FilesIndexes(s: State, r: State)
    requires Files(s, r)
    ensures Indexes(s, r)
  {}

  /** Entry points that leave the index alone. */
  lemma QuietIndexes(m: Mutation, s: State)
    requires StateInv(s)
    requires m.Putting? || m.Hashing? || m.Reporting? || m.Bursting? || m.Looking? || m.Peeking? || m.Starting?
             || m.Skipping?
             || m.Clearing? || m.Forgetting?
    ensures Indexes(s, Apply(m, s))
  {
    hide StateInv, Indexes, StartStep, SkipSlot, HitTable, HitLength, Uncached, UpdateTable, BurstTable, OnlySlots,
         NoneGained;
    match m {
      case Reporting(reports) => UpdateTableOnly(s, reports);
      case Bursting(slots, delta) => BurstTableOnly(s, slots, delta);
      case Starting => StartStepKeeps(s);
      case Skipping(slot, total) => SkipSlotKeeps(s, slot, total);
      case _ =>
    }
    IndexesNone(s, Apply(m, s));
  }

  /** Entry points that only take mappings away. */
  lemma ShrinkIndexes(m: Mutation, s: State)
    requires StateInv(s) && Allowed(m, s) && (m.Evicting? || m.Resetting?)
    ensures Indexes(s, Apply(m, s))
  {
    hide Inv, ConfigOk, TablesOk, Counted, Indexes, EvictAll, ResetCache, InRange;
    if m.Evicting? { EvictAllOk(s.pool, m.ids); } else { ResetOk(s.pool); }
    IndexesNone(s, Apply(m, s));
  }

  lemma EventIndexes(m: Mutation, s: State)
    requires StateInv(s) && Allowed(m, s)
    ensures Indexes(s, Apply(m, s))
  {
    hide GInv, ConfigOk, Indexes, Files, Run, Resync, Load, QueueOk, AllocateSlots, FreeSlot, CacheAll,
         CommonPrefixAll, EvictAll, ResetCache,
         CallOk, Hashed, CanFile, InRange;
    if m.Scheduling? {
      StepIndexes(m, s);
    } else if m.Marshalling? {
      StepIndexes(m, s);
    } else if m.Allocating? {
      AllocFiles(s, m.call);
      FilesIndexes(s, Apply(m, s));
    } else if m.Freeing? {
      FreeFiles(s, m.slot);
      FilesIndexes(s, Apply(m, s));
    } else if m.Filing? {
      CacheFiles(s, m.slot, m.tokens);
      FilesIndexes(s, Apply(m, s));
    } else if m.Counting? {
      PrefixFiles(s, m.slot);
      FilesIndexes(s, Apply(m, s));
    } else if m.Evicting? || m.Resetting? {
      ShrinkIndexes(m, s);
    } else {
      QuietIndexes(m, s);
    }
  }

  lemma StepIndexes(m: Mutation, s: State)
    requires StateInv(s) && Allowed(m, s) && (m.Scheduling? || m.Marshalling?)
    ensures Indexes(s, Apply(m, s))
  {
    hide StateInv, Indexes, Files, Run, Resync, Load, QueueOk, Hashed;
    if m.Scheduling? {
      if Load(s, m.slots).Some? {
        StepFiles(s, Load(s, m.slots).value, m.queue, m.params);
        FilesIndexes(s, Apply(m, s));
      } else {
        IndexesNone(s, s);
      }
    } else {
      var q := Resync(s, m.marshalled);
      ResyncPosed(s, m.marshalled, m.queue);
      ResyncOnly(s, m.marshalled);
      FilesNone(s, q);
      StepFiles(q, m.marshalled, m.queue, m.params);
      FilesTrans(s, q, Apply(m, s));
      FilesIndexes(s, Apply(m, s));
    }
  }

  /** What a request's hashes are computed from. */
  datatype Prompt = Prompt(tokens: seq<P.I64>, extra: Option<seq<P.Key>>)

  /** The hash of the first `n` hash blocks of a prompt. */
  ghost predicate NamesPrompt(sha: C.Sha, seed: Digest, c: Config, k: HashKey, q: Prompt, n: nat) {
    0 < n && n * c.hashBlock <= |q.tokens| && k.hash == C.LastOf(C.Chain(sha, seed, c.hashBlock, q.tokens, q.extra, n))
  }

  /** The hashes of each request are the chain of its prompt. */
  ghost predicate Chained(sha: C.Sha, seed: Digest, s: State, prompts: map<Slot, Prompt>) {
    forall x: Slot :: x in s.hashes ==> ChainedAt(sha, seed, s, prompts, x)
  }

  ghost predicate ChainedAt(sha: C.Sha, seed: Digest, s: State, prompts: map<Slot, Prompt>, x: Slot) {
    && x in prompts && |Hashes(s, x)| * s.cfg.hashBlock <= |prompts[x].tokens|
    && Hashes(s, x) == C.Chain(sha, seed, s.cfg.hashBlock, prompts[x].tokens, prompts[x].extra, |Hashes(s, x)|)
  }

  /** Pushing the hashes of the next blocks keeps a request's list the chain of its prompt. */
  lemma PushChains(sha: C.Sha, seed: Digest, s: State, prompts: map<Slot, Prompt>, x: Slot, ds: seq<Digest>)
    requires x in prompts && (|Hashes(s, x)| + |ds|) * s.cfg.hashBlock <= |prompts[x].tokens|
    requires var chain := C.Chain(sha, seed, s.cfg.hashBlock, prompts[x].tokens, prompts[x].extra,
                                  |Hashes(s, x)| + |ds|);
      Hashes(s, x) + ds == chain
    ensures ChainedAt(sha, seed, PushHashes(s, x, ds), prompts, x)
    ensures forall y: Slot :: y != x ==> Hashes(PushHashes(s, x, ds), y) == Hashes(s, y)
  {
    hide C.Chain;
  }

  /** Every mapping in the index is under the hash of a prefix of one of these prompts. */
  ghost predicate Traced(sha: C.Sha, seed: Digest, s: State, seen: set<Prompt>) {
    forall k, b :: Contain(s.pool.cached, k, b) ==> Origin(sha, seed, s.cfg, k, seen)
  }

  ghost predicate Origin(sha: C.Sha, seed: Digest, c: Config, k: HashKey, seen: set<Prompt>) {
    exists q, n: nat :: q in seen && NamesPrompt(sha, seed, c, k, q, n)
  }

  /** The key of a request's `i`-th block is the hash of its prompt up to that block's end. */
  lemma KeyNames(sha: C.Sha, seed: Digest, s: State, prompts: map<Slot, Prompt>, x: Slot, i: nat, g: nat, k: HashKey)
    requires Chained(sha, seed, s, prompts) && KeyAt(Hashes(s, x), StrideOf(s.cfg, g), g, i) == Some(k)
    ensures x in prompts && NamesPrompt(sha, seed, s.cfg, k, prompts[x], (i + 1) * StrideOf(s.cfg, g))
  {
    hide C.Chain, StrideOf;
    var n := (i + 1) * StrideOf(s.cfg, g);
    assert x in s.hashes && ChainedAt(sha, seed, s, prompts, x);
    C.ChainAt(sha, seed, s.cfg.hashBlock, prompts[x].tokens, prompts[x].extra, n, |Hashes(s, x)|);
  }

  lemma NamedOrigin(sha: C.Sha, seed: Digest, s: State, prompts: map<Slot, Prompt>, k: HashKey)
    requires Chained(sha, seed, s, prompts) && NamedBy(s, k)
    ensures Origin(sha, seed, s.cfg, k, prompts.Values)
  {
    hide Chained, NamesPrompt;
    var x: Slot, i: nat :| KeyAt(Hashes(s, x), StrideOf(s.cfg, k.group), k.group, i) == Some(k);
    KeyNames(sha, seed, s, prompts, x, i, k.group, k);
    assert prompts[x] in prompts.Values && NamesPrompt(sha, seed, s.cfg, k, prompts[x], BlockEnd(s.cfg, k.group, i));
  }

  lemma MoreSeen(sha: C.Sha, seed: Digest, c: Config, k: HashKey, seen: set<Prompt>, more: set<Prompt>)
    requires Origin(sha, seed, c, k, seen) && seen <= more
    ensures Origin(sha, seed, c, k, more)
  {
    hide NamesPrompt;
  }

  lemma EventTraced(m: Mutation, s: State, sha: C.Sha, seed: Digest, prompts: map<Slot, Prompt>, seen: set<Prompt>)
    requires StateInv(s) && Allowed(m, s) && Chained(sha, seed, s, prompts) && Traced(sha, seed, s, seen)
    ensures Traced(sha, seed, Apply(m, s), seen + prompts.Values)
  {
    hide StateInv, Allowed, Apply, Chained, Origin, NamedBy;
    EventIndexes(m, s);
    var r := Apply(m, s);
    forall k, b | Contain(r.pool.cached, k, b) ensures Origin(sha, seed, r.cfg, k, seen + prompts.Values)
    {
      if Contain(s.pool.cached, k, b) {
        MoreSeen(sha, seed, s.cfg, k, seen, seen + prompts.Values);
      } else {
        assert Entered(s.pool, r.pool, k, b);
        NamedOrigin(sha, seed, s, prompts, k);
        MoreSeen(sha, seed, s.cfg, k, prompts.Values, seen + prompts.Values);
      }
    }
  }

  /** Before every event, and after the last, hashes are the chains of the prompts then current. */
  ghost predicate AllChained(sha: C.Sha, seed: Digest, ms: seq<Mutation>, s: State, ps: seq<map<Slot, Prompt>>)
    decreases |ms|
  {
    && |ps| == |ms| + 1 && Chained(sha, seed, s, ps[0])
    && (ms != [] ==> AllChained(sha, seed, ms[1..], Apply(ms[0], s), ps[1..]))
  }

  /** Every prompt a request ever had. */
  function Seen(ps: seq<map<Slot, Prompt>>): set<Prompt> {
    if ps == [] then {} else ps[0].Values + Seen(ps[1..])
  }

  lemma {:induction false} RunTraced(ms: seq<Mutation>, s: State, sha: C.Sha, seed: Digest, ps: seq<map<Slot, Prompt>>,
                                     seen: set<Prompt>)
    requires StateInv(s) && AllAllowed(ms, s) && AllChained(sha, seed, ms, s, ps) && Traced(sha, seed, s, seen)
    ensures Traced(sha, seed, ApplyAll(ms, s), seen + Seen(ps))
    ensures |ps| > 0 && Chained(sha, seed, ApplyAll(ms, s), ps[|ps| - 1]) && ps[|ps| - 1].Values <= Seen(ps)
    ensures ApplyAll(ms, s).cfg == s.cfg
    decreases |ms|
  {
    hide StateInv, Allowed, Apply, Chained, Traced;
    if ms == [] {
      assert Seen(ps[1..]) == {};
      TracedMore(sha, seed, s, seen, seen + Seen(ps));
    } else {
      EventTraced(ms[0], s, sha, seed, ps[0], seen);
      ApplyKeeps(ms[0], s);
      EventCfg(ms[0], s);
      RunTraced(ms[1..], Apply(ms[0], s), sha, seed, ps[1..], seen + ps[0].Values);
      assert seen + ps[0].Values + Seen(ps[1..]) == seen + Seen(ps);
    }
  }

  lemma EventCfg(m: Mutation, s: State)
    requires StateInv(s) && Allowed(m, s)
    ensures Apply(m, s).cfg == s.cfg
  {
    hide StateInv, Allowed, Apply, NamedBy;
    EventIndexes(m, s);
  }

  lemma TracedMore(sha: C.Sha, seed: Digest, s: State, seen: set<Prompt>, more: set<Prompt>)
    requires Traced(sha, seed, s, seen) && seen <= more
    ensures Traced(sha, seed, s, more)
  {
    hide Origin, Contain;
    forall k, b | Contain(s.pool.cached, k, b)
      ensures Origin(sha, seed, s.cfg, k, more)
    {
      MoreSeen(sha, seed, s.cfg, k, seen, more);
    }
  }

  /** Everything hashed for these prompts is among `inputs`. */
  ghost predicate HashedWithin(sha: C.Sha, seed: Digest, hb: Pos, seen: set<Prompt>, inputs: set<P.Bytes>) {
    forall q, n: nat :: q in seen && n * hb <= |q.tokens| ==> C.Inputs(sha, seed, hb, q.tokens, q.extra, n) <= inputs
  }

  /** The two prompts agree up to the end of the block. */
  ghost predicate SamePrefix(hb: Pos, p: Prompt, q: Prompt, n: nat) {
    n * hb <= |p.tokens| && n * hb <= |q.tokens| && C.Head(p.tokens, hb, n) == C.Head(q.tokens, hb, n)
      && p.extra == q.extra
  }

  /** Hash blocks up to the end of the group's `i`-th block. */
  function BlockEnd(c: Config, g: nat, i: nat): nat { (i + 1) * StrideOf(c, g) }

  /** Some current request has the key at the end of its first `n` hash blocks, which are those of `p`. */
  ghost predicate Owned(s: State, prompts: map<Slot, Prompt>, k: HashKey, p: Prompt, n: nat) {
    exists x: Slot, i: nat ::
      && x in prompts && KeyAt(Hashes(s, x), StrideOf(s.cfg, k.group), k.group, i) == Some(k)
      && BlockEnd(s.cfg, k.group, i) == n && SamePrefix(s.cfg.hashBlock, prompts[x], p, n)
  }

  /** The block is filed under the key, and is so after every event of the run. */
  ghost predicate Stays(ms: seq<Mutation>, s: State, k: HashKey, b: Id)
    decreases |ms|
  {
    Contain(s.pool.cached, k, b) && (ms == [] || Stays(ms[1..], Apply(ms[0], s), k, b))
  }

  /** Some event of the run filed the block under the key, where it stayed; and the event found a
      request whose key that was and whose first `n` hash blocks were those of `p`. */
  ghost predicate FiledFor(ms: seq<Mutation>, s: State, ps: seq<map<Slot, Prompt>>, k: HashKey, b: Id, p: Prompt,
                           n: nat)
    decreases |ms|
  {
    && ms != [] && |ps| == |ms| + 1
    && var r := Apply(ms[0], s);
       || (Entered(s.pool, r.pool, k, b) && Owned(s, ps[0], k, p, n) && Stays(ms[1..], r, k, b))
       || FiledFor(ms[1..], r, ps[1..], k, b, p, n)
  }

  /** The block was there from the start, for one of the prompts the first index stems from. */
  ghost predicate KeptFor(ms: seq<Mutation>, s: State, sha: C.Sha, seed: Digest, seen: set<Prompt>, k: HashKey, b: Id,
                          p: Prompt, n: nat) {
    && Stays(ms, s, k, b)
    && exists q :: q in seen && NamesPrompt(sha, seed, s.cfg, k, q, n) && SamePrefix(s.cfg.hashBlock, q, p, n)
  }

  /** The key belongs to the first `n` hash blocks of `p` and to no others of these prompts. */
  ghost predicate NamesOnly(sha: C.Sha, seed: Digest, c: Config, seen: set<Prompt>, k: HashKey, p: Prompt, n: nat) {
    && NamesPrompt(sha, seed, c, k, p, n)
    && forall q, m: nat :: q in seen && NamesPrompt(sha, seed, c, k, q, m) ==>
         m == n && SamePrefix(c.hashBlock, q, p, n)
  }

  /** One key, two prompts. */
  lemma SameKey(sha: C.Sha, seed: Digest, c: Config, k: HashKey, p: Prompt, m: nat, q: Prompt, n: nat,
                inputs: set<P.Bytes>)
    requires NamesPrompt(sha, seed, c, k, p, m) && NamesPrompt(sha, seed, c, k, q, n)
    requires C.Inputs(sha, seed, c.hashBlock, p.tokens, p.extra, m) <= inputs
    requires C.Inputs(sha, seed, c.hashBlock, q.tokens, q.extra, n) <= inputs
    requires C.CollisionFree(sha, seed, inputs)
    ensures m == n && SamePrefix(c.hashBlock, p, q, n)
  {
    hide C.Chain, C.Inputs;
    C.EqualHashEqualPrefix(sha, seed, c.hashBlock, p.tokens, p.extra, m, q.tokens, q.extra, n);
  }

  lemma OnlyOne(sha: C.Sha, seed: Digest, c: Config, seen: set<Prompt>, inputs: set<P.Bytes>, k: HashKey, p: Prompt,
                n: nat)
    requires HashedWithin(sha, seed, c.hashBlock, seen, inputs) && C.CollisionFree(sha, seed, inputs)
    requires p in seen && NamesPrompt(sha, seed, c, k, p, n)
    ensures NamesOnly(sha, seed, c, seen, k, p, n)
  {
    hide HashedWithin, C.CollisionFree, NamesPrompt, SamePrefix;
    WithinInputs(sha, seed, c, k, p, n, seen, inputs);
    forall q, m: nat | q in seen && NamesPrompt(sha, seed, c, k, q, m)
      ensures m == n && SamePrefix(c.hashBlock, q, p, n)
    {
      WithinInputs(sha, seed, c, k, q, m, seen, inputs);
      SameKey(sha, seed, c, k, q, m, p, n, inputs);
    }
  }

  /** What an event files is filed for a request whose prefix the key names. */
  lemma EventOwned(m: Mutation, s: State, sha: C.Sha, seed: Digest, prompts: map<Slot, Prompt>, seen: set<Prompt>,
                   k: HashKey, b: Id, p: Prompt, n: nat)
    requires StateInv(s) && Allowed(m, s) && Chained(sha, seed, s, prompts) && prompts.Values <= seen
    requires NamesOnly(sha, seed, s.cfg, seen, k, p, n) && Entered(s.pool, Apply(m, s).pool, k, b)
    ensures Owned(s, prompts, k, p, n)
  {
    hide StateInv, Allowed, Apply, Chained, NamesPrompt, SamePrefix, Entered, KeyAt, StrideOf;
    EventIndexes(m, s);
    assert NamedBy(s, k);
    var x: Slot, i: nat :| KeyAt(Hashes(s, x), StrideOf(s.cfg, k.group), k.group, i) == Some(k);
    KeyNames(sha, seed, s, prompts, x, i, k.group, k);
    assert prompts[x] in prompts.Values && NamesPrompt(sha, seed, s.cfg, k, prompts[x], BlockEnd(s.cfg, k.group, i));
  }

  /** Whatever is filed at the end of a run was filed by it, or was there all along. */
  lemma {:induction false} RunFiles(ms: seq<Mutation>, s: State, sha: C.Sha, seed: Digest, ps: seq<map<Slot, Prompt>>,
                                    seen: set<Prompt>, k: HashKey, b: Id, p: Prompt, n: nat)
    requires StateInv(s) && AllAllowed(ms, s) && AllChained(sha, seed, ms, s, ps) && Seen(ps) <= seen
    requires NamesOnly(sha, seed, s.cfg, seen, k, p, n) && Contain(ApplyAll(ms, s).pool.cached, k, b)
    ensures Stays(ms, s, k, b) || FiledFor(ms, s, ps, k, b, p, n)
    decreases |ms|
  {
    hide StateInv, Allowed, Apply, Chained, NamesOnly, Owned, Contain;
    if ms != [] {
      EventCfg(ms[0], s);
      ApplyKeeps(ms[0], s);
      var r := Apply(ms[0], s);
      RunFiles(ms[1..], r, sha, seed, ps[1..], seen, k, b, p, n);
      if Entered(s.pool, r.pool, k, b) { EventOwned(ms[0], s, sha, seed, ps[0], seen, k, b, p, n); }
    }
  }

  /** A mapping that was there from the start stems from the prompts the start stems from. */
  lemma StartOwned(ms: seq<Mutation>, s: State, sha: C.Sha, seed: Digest, seen: set<Prompt>, more: set<Prompt>,
                   k: HashKey, b: Id, p: Prompt, n: nat)
    requires Traced(sha, seed, s, seen) && NamesOnly(sha, seed, s.cfg, seen + more, k, p, n) && Stays(ms, s, k, b)
    ensures KeptFor(ms, s, sha, seed, seen, k, b, p, n)
  {
    hide Traced, NamesPrompt, SamePrefix;
    var q, m := TracedTo(sha, seed, s, seen, k, b);
    assert q in seen + more;
  }

  lemma NothingStays(ms: seq<Mutation>, s: State, k: HashKey, b: Id)
    ensures s.pool.cached == map[] ==> !Stays(ms, s, k, b)
  {}

  /**
   * After any run, let the lookup find block `b` for block `i` of request `y` in group `g`. Then the
   * key it is filed under is the hash of `y`'s own tokens up to the end of that block; an event of
   * the run filed `b` there, for a request with the same tokens and extra keys that far, or `b` was
   * there from the start, for such a prompt; and no prompt ever seen with other tokens or extra keys
   * has that key: if nothing that was hashed collides.
   */
  lemma HitIsSound(ms: seq<Mutation>, s: State, sha: C.Sha, seed: Digest, ps: seq<map<Slot, Prompt>>, seen: set<Prompt>,
                   inputs: set<P.Bytes>, y: Slot, g: nat, i: nat, k: HashKey, b: Id)
    requires StateInv(s) && AllAllowed(ms, s) && AllChained(sha, seed, ms, s, ps) && Traced(sha, seed, s, seen)
    requires HashedWithin(sha, seed, s.cfg.hashBlock, seen + Seen(ps), inputs) && C.CollisionFree(sha, seed, inputs)
    requires KeyAt(Hashes(ApplyAll(ms, s), y), StrideOf(s.cfg, g), g, i) == Some(k)
    requires GetOne(ApplyAll(ms, s).pool.cached, k) == Some(b)
    ensures ps != [] && y in ps[|ps| - 1]
    ensures NamesOnly(sha, seed, s.cfg, seen + Seen(ps), k, ps[|ps| - 1][y], BlockEnd(s.cfg, g, i))
    ensures FiledFor(ms, s, ps, k, b, ps[|ps| - 1][y], BlockEnd(s.cfg, g, i))
         || KeptFor(ms, s, sha, seed, seen, k, b, ps[|ps| - 1][y], BlockEnd(s.cfg, g, i))
    ensures s.pool.cached == map[] ==> FiledFor(ms, s, ps, k, b, ps[|ps| - 1][y], BlockEnd(s.cfg, g, i))
  {
    hide StateInv, AllAllowed, AllChained, ApplyAll, Traced, Chained, HashedWithin, C.CollisionFree, NamesPrompt, Seen,
         SamePrefix, KeyAt, StrideOf, FiledFor, Stays, NamesOnly, KeptFor;
    RunTraced(ms, s, sha, seed, ps, seen);
    var prompts := ps[|ps| - 1];
    var n := BlockEnd(s.cfg, g, i);
    KeyNames(sha, seed, ApplyAll(ms, s), prompts, y, i, g, k);
    assert prompts[y] in prompts.Values;
    OnlyOne(sha, seed, s.cfg, seen + Seen(ps), inputs, k, prompts[y], n);
    RunFiles(ms, s, sha, seed, ps, seen + Seen(ps), k, b, prompts[y], n);
    NothingStays(ms, s, k, b);
    if Stays(ms, s, k, b) { StartOwned(ms, s, sha, seed, seen, Seen(ps), k, b, prompts[y], n); }
  }

  lemma TracedTo(sha: C.Sha, seed: Digest, s: State, seen: set<Prompt>, k: HashKey, b: Id) returns (q: Prompt, n: nat)
    requires Traced(sha, seed, s, seen) && Contain(s.pool.cached, k, b)
    ensures q in seen && NamesPrompt(sha, seed, s.cfg, k, q, n)
  {
    hide NamesPrompt;
    assert Origin(sha, seed, s.cfg, k, seen);
    q, n :| q in seen && NamesPrompt(sha, seed, s.cfg, k, q, n);
  }

  lemma WithinInputs(sha: C.Sha, seed: Digest, c: Config, k: HashKey, q: Prompt, n: nat, seen: set<Prompt>,
                     inputs: set<P.Bytes>)
    requires HashedWithin(sha, seed, c.hashBlock, seen, inputs) && q in seen && NamesPrompt(sha, seed, c, k, q, n)
    ensures n * c.hashBlock <= |q.tokens| && C.Inputs(sha, seed, c.hashBlock, q.tokens, q.extra, n) <= inputs
  {
    hide C.Chain, C.Inputs;
  }
}
