/**
 * The speculative worker (spec.rs): the next step is run early on the real manager, under one
 * lock, and is later either kept by dropping the journal or undone by replaying it.
 *
 * `Abs()` is the manager with any pending run undone. Kicks, worker runs and misses leave it
 * unchanged, every mutation acts on it, and a hit hands back exactly the decisions and the state
 * of a direct resident step with an empty waiting queue. `Interleave` states this for every
 * order of events, and that a take hits exactly when it asks for the last completed run.
 */
module Speculation {
  import opened Basics
  import opened PoolSpec
  import opened PoolInv
  import opened TypeSpec
  import opened HitSpec
  import opened ManagerSpec
  import opened ManagerInv
  import opened Admission
  import opened Served
  import opened CacheReset
  import opened SchedSpec
  import opened RunInv
  import opened TableSpec
  import opened Mutations
  import opened Journal
  import opened BlockPools
  import opened TypeManagers
  import opened Coordinators
  import opened Managers
  import opened ScheduleCores

  datatype Message = Message(generation: nat, slots: seq<Slot>, params: Params)

  datatype Pending = Pending(slots: seq<Slot>, params: Params, decisions: Decisions)

  datatype Event =
    | Kick(message: Message)
    | Work
    | Take(generation: nat, slots: seq<Slot>, params: Params)
    | Mutate(mutation: Mutation)

  /** The events are within the program's contract, whatever the takes answer. */
  ghost predicate Fit(s: State, mail: Option<Message>, events: seq<Event>)
    decreases |events|
  {
    events == [] ||
    match events[0]
    case Kick(message) => Fit(s, Some(message), events[1..])
    case Work => (mail.Some? ==> ResidentOk(s, mail.value.slots, [])) && Fit(s, None, events[1..])
    case Take(_, slots, prm) =>
      && Fit(s, mail, events[1..])
      && (SchedSpec.ScheduleResident(s, slots, [], prm).Ok? ==>
            Fit(SchedSpec.ScheduleResident(s, slots, [], prm).state, mail, events[1..]))
    case Mutate(m) => Allowed(m, s) && Fit(Apply(m, s), mail, events[1..])
  }

  /** What an event reports: a take its answer, a worker's run how it ended and how long its log was. */
  datatype Reply = Quiet | Answer(decisions: Option<Decisions>) | Ran(ending: Ending, entries: nat)

  function Answered(r: Reply): Option<Decisions> { if r.Answer? then r.decisions else None }

  /** What a reply may be, given the message in the mailbox and that of the pending run. Only a take
      answers: with what a direct step would decide now, and exactly when the pending run is the
      one asked for. A run fails to complete only for want of an entry or over the log's cap. */
  predicate Honest(s: State, mail: Option<Message>, last: Option<Message>, off: bool, ev: Event, r: Reply) {
    match ev
    case Take(generation, slots, prm) =>
      && r.Answer?
      && (r.decisions.Some? <==> last == Some(Message(generation, slots, prm)))
      && (r.decisions.Some? ==>
            SchedSpec.ScheduleResident(s, slots, [], prm).Ok?
            && SchedSpec.ScheduleResident(s, slots, [], prm).decisions == r.decisions.value)
    case Work =>
      if mail.None? || off then r == Quiet
      else
        && r.Ran? && (r.ending.Turned? <==> Load(s, mail.value.slots).None?)
        && (r.ending.OverCap? ==> r.entries > SOFT_CAP)
    case _ => r == Quiet
  }

  /** Direct scheduling: a hit is a direct step, a mutation acts, nothing else happens. */
  function Direct(s: State, ev: Event, answer: Option<Decisions>): State {
    match ev
    case Take(_, slots, prm) => if answer.Some? then SchedSpec.ScheduleResident(s, slots, [], prm).state else s
    case Mutate(m) => Apply(m, s)
    case _ => s
  }

  function NextMail(mail: Option<Message>, ev: Event): Option<Message> {
    match ev case Kick(message) => Some(message) case Work => None case _ => mail
  }

  /** Whose run is pending after the event: a completed run replaces it, a take or a mutation ends it. */
  function NextLast(mail: Option<Message>, last: Option<Message>, ev: Event, r: Reply): Option<Message> {
    match ev
    case Kick(_) => last
    case Work => if r.Quiet? then last else if r.Ran? && r.ending.Done? then mail else None
    case _ => None
  }

  /** The replies are those of direct scheduling, which ends in `end`. */
  predicate Explained(s: State, mail: Option<Message>, last: Option<Message>, off: bool,
                      events: seq<Event>, replies: seq<Reply>, end: State)
    decreases |events|
  {
    if events == [] then replies == [] && end == s
    else
      && replies != [] && Honest(s, mail, last, off, events[0], replies[0])
      && Explained(Direct(s, events[0], Answered(replies[0])), NextMail(mail, events[0]),
                   NextLast(mail, last, events[0], replies[0]), off, events[1..], replies[1..], end)
  }

  predicate WritesEntry(m: Mutation) {
    m.Hashing? || m.Putting? || m.Reporting? || m.Bursting? || m.Clearing? || m.Forgetting?
  }

  predicate TakesAway(m: Mutation) {
    m.Filing? || m.Skipping? || m.Evicting? || m.Resetting?
  }

  class Shared {
    const manager: Manager
    const core: ScheduleCore
    var pending: Option<Pending>
    var genAtKick: nat
    var hits: nat
    var misses: nat
    var rollbacks: nat
    var disabled: bool
    var mail: Option<Message>

    constructor (m: Manager)
      requires m.Ready() && m.coord.pool.journal.None?
      ensures manager == m && fresh(core) && Good() && Abs() == m.St() && pending.None? && mail.None? && !disabled
    {
      manager := m;
      core := new ScheduleCore();
      pending, genAtKick, hits, misses, rollbacks, disabled, mail := None, 0, 0, 0, 0, false, None;
      new;
      m.Unarmed();
    }

    /** The manager with any pending run undone. */
    ghost function Abs(): State
      reads manager, manager.coord, manager.coord.pool, manager.coord.managers
    {
      manager.Undone()
    }

    /** The journal is armed exactly when a run is pending; the undone state is in good standing;
        and a pending run is what a direct step from it would do. */
    ghost predicate Good()
      reads this, manager, manager.coord, manager.coord.pool, manager.coord.managers
    {
      && manager.Ready() && manager.Sound()
      && (manager.coord.pool.journal.Some? <==> pending.Some?)
      && (pending.Some? ==> Foretold(pending.value))
    }

    /** The message whose run is pending. */
    function Last(): Option<Message>
      reads this
    {
      if pending.Some? then Some(Message(genAtKick, pending.value.slots, pending.value.params)) else None
    }

    ghost predicate Foretold(p: Pending)
      reads manager, manager.coord, manager.coord.pool, manager.coord.managers
    {
      SchedSpec.ScheduleResident(Abs(), p.slots, [], p.params) == Result.Ok(manager.St(), p.decisions)
    }

    // ---- consuming and undoing ------------------------------------------------------

    method RollbackPending()
      requires Good() && pending.Some?
      modifies this`pending, this`rollbacks, manager`hitLen, manager`table, manager.coord.pool, manager.coord.managers
      ensures Good() && pending.None? && Abs() == old(Abs()) && manager.St() == Abs()
    {
      hide Manager.St, Manager.Ready, Manager.Base, Manager.Undone, Manager.Sound, Manager.Now, Foretold;
      manager.Wires();
      pending := None;
      manager.Rollback();
      manager.Unarmed();
      rollbacks := rollbacks + 1;
    }

    /** Every state-changing entry point starts here. */
    method Invalidate()
      requires Good()
      modifies this`pending, this`rollbacks, manager`hitLen, manager`table, manager.coord.pool, manager.coord.managers
      ensures Good() && pending.None? && Abs() == old(Abs()) && manager.St() == Abs()
    {
      hide Manager.St, Manager.Ready, Manager.Base, Manager.Undone, Manager.Sound, Foretold;
      if pending.Some? {
        RollbackPending();
      } else {
        manager.Unarmed();
      }
    }

    /** `take_speculative`: the stored decisions, and with them the run, if generation, order and
        params are those of the kick; otherwise a miss, and the run is undone. */
    method TakeSpeculative(generation: nat, slots: seq<Slot>, prm: Params) returns (answer: Option<Decisions>)
      requires Good()
      modifies this`pending, this`hits, this`misses, this`rollbacks
      modifies manager`hitLen, manager`table, manager.coord.pool, manager.coord.managers
      ensures Good() && pending.None? && Abs() == Direct(old(Abs()), Take(generation, slots, prm), answer)
      ensures answer.Some? <==> old(Last()) == Some(Message(generation, slots, prm))
      ensures answer.Some? ==>
                SchedSpec.ScheduleResident(old(Abs()), slots, [], prm).Ok?
                && SchedSpec.ScheduleResident(old(Abs()), slots, [], prm).decisions == answer.value
      ensures manager.St() == Abs()
    {
      hide Manager.St, Manager.Ready, Manager.Base, Manager.Undone, Manager.Sound, SchedSpec.ScheduleResident;
      manager.Unarmed();
      if pending.None? {
        misses := misses + 1;
        return None;
      }
      var p := pending.value;
      if generation != genAtKick || p.slots != slots || p.params != prm {
        RollbackPending();
        misses := misses + 1;
        return None;
      }
      pending := None;
      manager.CommitJournal();
      manager.Unarmed();
      hits := hits + 1;
      answer := Some(p.decisions);
    }

    // ---- the worker -----------------------------------------------------------------

    /** `kick`: a message still in the mailbox is overwritten. */
    method Kicked(message: Message)
      requires Good()
      modifies this`mail
      ensures Good() && Abs() == old(Abs()) && mail == Some(message)
    {
      hide Manager.St, Manager.Ready, Manager.Base, Manager.Undone, Manager.Sound, Foretold;
      mail := Some(message);
    }

    /** `run_speculative`: run the next step on the real manager with the journal armed. The result
        left is the message's; a run completes unless a slot has no entry or the log outgrew its cap. */
    method RunSpeculative(message: Message) returns (reply: Reply)
      requires Good() && (!disabled ==> ResidentOk(Abs(), message.slots, []))
      modifies this`pending, this`genAtKick, this`misses, this`rollbacks, core
      modifies manager`hitLen, manager`pending, manager`table, manager.coord`uncached, manager.coord.pool,
               manager.coord.managers
      ensures Good() && Abs() == old(Abs())
      ensures disabled ==> reply == Quiet && Last() == old(Last())
      ensures !disabled ==> reply.Ran? && Last() == if reply.ending.Done? then Some(message) else None
      ensures !disabled ==> (reply.ending.Turned? <==> Load(Abs(), message.slots).None?)
      ensures !disabled ==> (reply.ending.OverCap? ==> reply.entries > SOFT_CAP)
    {
      hide Manager.St, Manager.Ready, Manager.Base, Manager.Undone, Manager.Sound, Foretold, ResidentOk,
           SchedSpec.ScheduleResident;
      if disabled { return Quiet; }
      Invalidate();
      reply := Speculate(message);
    }

    method Speculate(message: Message) returns (reply: Reply)
      requires Good() && pending.None? && ResidentOk(manager.St(), message.slots, [])
      modifies this`pending, this`genAtKick, this`misses, core
      modifies manager`hitLen, manager`pending, manager`table, manager.coord`uncached, manager.coord.pool,
               manager.coord.managers
      ensures Good() && Abs() == old(Abs())
      ensures reply.Ran? && Last() == if reply.ending.Done? then Some(message) else None
      ensures reply.ending.Turned? <==> Load(Abs(), message.slots).None?
      ensures reply.ending.OverCap? ==> reply.entries > SOFT_CAP
    {
      hide Manager.St, Manager.Ready, Manager.Base, Manager.Undone, Manager.Sound, ResidentOk,
           SchedSpec.ScheduleResident, Load;
      ghost var s := manager.St();
      manager.Unarmed();
      manager.ArmJournal();
      var end, entries := RunArmed(message, s);
      if end.Done? {
        genAtKick := message.generation;
        pending := Some(Pending(message.slots, message.params, core.decisions));
      } else {
        Abandon();
      }
      reply := Ran(end, entries);
    }

    /** A run that did not complete leaves no result, and is undone. */
    method Abandon()
      requires manager.Ready() && manager.Sound() && manager.coord.pool.journal.Some? && pending.None?
      modifies this`misses, manager`hitLen, manager`table, manager.coord.pool, manager.coord.managers
      ensures Good() && pending.None? && Abs() == old(manager.Undone())
    {
      hide Manager.St, Manager.Ready, Manager.Base, Manager.Undone, Manager.Sound, Manager.Now, Foretold;
      manager.Wires();
      manager.Rollback();
      manager.Unarmed();
      misses := misses + 1;
    }

    /** The armed run itself, and how long its log is when it ends. */
    method RunArmed(message: Message, ghost s: State) returns (end: Ending, entries: nat)
      requires manager.Ready() && manager.Sound() && manager.coord.pool.journal == Some([])
      requires manager.St() == s == manager.Undone() && ResidentOk(s, message.slots, [])
      modifies core
      modifies manager`hitLen, manager`pending, manager`table, manager.coord`uncached, manager.coord.pool,
               manager.coord.managers
      ensures manager.Ready() && manager.Sound() && manager.coord.pool.journal.Some? && manager.Undone() == s
      ensures end.Done? ==>
                SchedSpec.ScheduleResident(s, message.slots, [], message.params)
                == Result.Ok(manager.St(), core.decisions)
      ensures entries == |manager.coord.pool.journal.value|
      ensures end.Turned? <==> Load(s, message.slots).None?
      ensures end.OverCap? ==> entries > SOFT_CAP
    {
      hide Manager.St, Manager.Ready, Manager.Base, Manager.Undone, Manager.Sound, ResidentOk,
           SchedSpec.ScheduleResident, Load;
      end := core.ScheduleResident(manager, message.slots, [], message.params);
      manager.StillUndone();
      entries := |manager.coord.pool.journal.value|;
    }

    /** The worker's turn: take the message, if there is one. */
    method Worked() returns (reply: Reply)
      requires Good() && (mail.Some? && !disabled ==> ResidentOk(Abs(), mail.value.slots, []))
      modifies this`mail, this`pending, this`genAtKick, this`misses, this`rollbacks, core
      modifies manager`hitLen, manager`pending, manager`table, manager.coord`uncached, manager.coord.pool,
               manager.coord.managers
      ensures Good() && Abs() == old(Abs()) && mail.None?
      ensures Honest(old(Abs()), old(mail), old(Last()), disabled, Work, reply)
      ensures Last() == NextLast(old(mail), old(Last()), Work, reply)
    {
      hide Manager.St, Manager.Ready, Manager.Base, Manager.Undone, Manager.Sound, Foretold, ResidentOk,
           SchedSpec.ScheduleResident, Load;
      if mail.None? { return Quiet; }
      var message := mail.value;
      mail := None;
      reply := RunSpeculative(message);
    }

    // ---- mutations ------------------------------------------------------------------

    /** An entry point under the write guard: undo what is pending, then act. */
    method Mutated(m: Mutation)
      requires Good() && Allowed(m, Abs())
      modifies this`pending, this`rollbacks, core
      modifies manager`hashes, manager`hitLen, manager`pending, manager`table, manager.coord`uncached,
               manager.coord.pool, manager.coord.managers
      ensures Good() && pending.None? && Abs() == Apply(m, old(Abs())) && manager.St() == Abs()
    {
      hide Manager.St, Manager.Ready, Manager.Base, Manager.Undone, Manager.Sound, Foretold, Apply, Allowed;
      Invalidate();
      Act(m);
      manager.Unarmed();
    }

    method Act(m: Mutation)
      requires manager.Ready() && manager.coord.pool.journal.None? && Allowed(m, manager.St())
      modifies core
      modifies manager`hashes, manager`hitLen, manager`pending, manager`table, manager.coord`uncached,
               manager.coord.pool, manager.coord.managers
      ensures manager.Ready() && manager.coord.pool.journal.None? && manager.St() == Apply(m, old(manager.St()))
    {
      hide Manager.St, Manager.Ready, Manager.Base, Allowed, Apply;
      if WritesEntry(m) {
        ActTable(m);
      } else if TakesAway(m) {
        ActAway(m);
      } else if m.Looking? || m.Peeking? || m.Starting? || m.Counting? {
        ActQuiet(m);
      } else {
        ActStep(m);
      }
    }

    /** Admission, release, and whole steps. */
    method ActStep(m: Mutation)
      requires m.Allocating? || m.Freeing? || m.Scheduling? || m.Marshalling?
      requires manager.Ready() && manager.coord.pool.journal.None? && Allowed(m, manager.St())
      modifies core
      modifies manager`hashes, manager`hitLen, manager`pending, manager`table, manager.coord`uncached,
               manager.coord.pool, manager.coord.managers
      ensures manager.Ready() && manager.coord.pool.journal.None? && manager.St() == Apply(m, old(manager.St()))
    {
      hide Manager.St, Manager.Ready, Manager.Base, ResidentOk, WellPosed, AllHashed, Hashed, CallOk, SchedSpec.Run,
           Resync, Load,
           InRange, CanFile, CacheAll, SkipSlot, EvictIds, ResetAll, TableClear, Forget;
      match m
      case Allocating(c) => var _ := manager.AllocateSlots(c);
      case Freeing(slot) => manager.FreeSlot(slot);
      case Scheduling(slots, queue, prm) => var _ := core.ScheduleResident(manager, slots, queue, prm);
      case Marshalling(marshalled, queue, prm) => var _ := core.Schedule(manager, marshalled, queue, prm);
    }

    /** The entry points that only touch the resident table and the request's own maps. */
    method ActTable(m: Mutation)
      requires WritesEntry(m)
      requires manager.Ready() && manager.coord.pool.journal.None? && Allowed(m, manager.St())
      modifies manager`hashes, manager`hitLen, manager`pending, manager`table, manager.coord`uncached,
               manager.coord.pool, manager.coord.managers
      ensures manager.Ready() && manager.coord.pool.journal.None? && manager.St() == Apply(m, old(manager.St()))
    {
      hide Manager.St, Manager.Ready, Manager.Base, ResidentOk, WellPosed, AllHashed, Hashed, CallOk, SchedSpec.Run,
           Resync, Load,
           InRange, CanFile, CacheAll, SkipSlot, EvictIds, ResetAll, TableClear, Forget;
      match m
      case Hashing(slot, ds) => manager.PushHashes(slot, ds);
      case Putting(slot, e) => manager.TableSet(slot, e);
      case Reporting(reports) => manager.UpdateStep(reports);
      case Bursting(slots, delta) => manager.TableBurst(slots, delta);
      case Clearing(slot) => manager.TableClear(slot);
      case Forgetting(slot) => manager.Forget(slot);
    }

    /** The entry points that file blocks or take mappings and blocks away. */
    method ActAway(m: Mutation)
      requires TakesAway(m)
      requires manager.Ready() && manager.coord.pool.journal.None? && Allowed(m, manager.St())
      modifies manager`hashes, manager`hitLen, manager`pending, manager`table, manager.coord`uncached,
               manager.coord.pool, manager.coord.managers
      ensures manager.Ready() && manager.coord.pool.journal.None? && manager.St() == Apply(m, old(manager.St()))
    {
      hide Manager.St, Manager.Ready, Manager.Base, ResidentOk, WellPosed, AllHashed, Hashed, CallOk, SchedSpec.Run,
           Resync, Load,
           InRange, CanFile, CacheAll, SkipSlot, EvictIds, ResetAll, TableClear, Forget;
      match m
      case Filing(slot, tokens) => manager.FileBlocks(slot, tokens);
      case Skipping(slot, total) => manager.SkipBlocks(slot, total);
      case Evicting(ids) => manager.EvictBlocks(ids);
      case Resetting => var _ := manager.ResetPrefixCache();
    }

    /** Lookups, and what opens a step. */
    method ActQuiet(m: Mutation)
      requires m.Looking? || m.Peeking? || m.Starting? || m.Counting?
      requires manager.Ready() && manager.coord.pool.journal.None? && Allowed(m, manager.St())
      modifies manager`hashes, manager`hitLen, manager`pending, manager`table, manager.coord`uncached,
               manager.coord.pool, manager.coord.managers
      ensures manager.Ready() && manager.coord.pool.journal.None? && manager.St() == Apply(m, old(manager.St()))
    {
      hide Manager.St, Manager.Ready, Manager.Base, ResidentOk, WellPosed, AllHashed, Hashed, CallOk, SchedSpec.Run,
           Resync, Load,
           InRange, CanFile, CacheAll, SkipSlot, EvictIds, ResetAll, TableClear, Forget;
      match m
      case Looking(slot, tokens, skip) => var _ := manager.GetComputedBlocks(slot, tokens, skip);
      case Peeking(slot, tokens) => var _ := manager.PeekCacheHit(slot, tokens);
      case Starting => manager.NewStepStarts();
      case Counting(slot) => var _ := manager.CommonPrefixBlocks(slot);
    }

    // ---- every interleaving ---------------------------------------------------------

    /** One event. */
    method Step(ev: Event) returns (reply: Reply)
      requires Good() && Fit(Abs(), mail, [ev])
      modifies this, core
      modifies manager`hashes, manager`hitLen, manager`pending, manager`table, manager.coord`uncached,
               manager.coord.pool, manager.coord.managers
      ensures Good() && Honest(old(Abs()), old(mail), old(Last()), disabled, ev, reply)
      ensures Abs() == Direct(old(Abs()), ev, Answered(reply))
      ensures mail == NextMail(old(mail), ev) && Last() == NextLast(old(mail), old(Last()), ev, reply)
      ensures disabled == old(disabled)
    {
      hide Manager.St, Manager.Ready, Manager.Base, Manager.Undone, Manager.Sound, Foretold, ResidentOk, Apply, Allowed,
           SchedSpec.ScheduleResident, Load;
      reply := Quiet;
      match ev
      case Kick(message) => Kicked(message);
      case Work => reply := Worked();
      case Take(generation, slots, prm) =>
        var answer := TakeSpeculative(generation, slots, prm);
        reply := Answer(answer);
      case Mutate(m) => Mutated(m);
    }

    /** Kicks, worker runs, takes and mutations in any order are explained by direct scheduling, and
        a take hits exactly when the last run completed was kicked with what it asks for. */
    method Interleave(events: seq<Event>) returns (replies: seq<Reply>)
      requires Good() && Fit(Abs(), mail, events)
      modifies this, core
      modifies manager`hashes, manager`hitLen, manager`pending, manager`table, manager.coord`uncached,
               manager.coord.pool, manager.coord.managers
      ensures Good() && disabled == old(disabled)
      ensures Explained(old(Abs()), old(mail), old(Last()), disabled, events, replies, Abs())
      decreases |events|
    {
      hide Manager.St, Manager.Ready, Manager.Base, Manager.Undone, Manager.Sound, Foretold, ResidentOk, Apply, Allowed,
           SchedSpec.ScheduleResident, Honest, Direct, NextMail, NextLast, Good, Last;
      if events == [] { return []; }
      ghost var s := Abs();
      FitHead(s, mail, events);
      var reply := Step(events[0]);
      FitTail(s, old(mail), old(Last()), disabled, events, reply);
      var rest := Interleave(events[1..]);
      replies := [reply] + rest;
      assert replies[1..] == rest;
    }
  }

  /** A resident step under an armed journal, to whatever end: what a rollback would give back stays. */
  method RunRecorded(kv: Manager, core: ScheduleCore, slots: seq<Slot>, prm: Params) returns (end: Ending)
    requires kv.Ready() && kv.Sound() && kv.coord.pool.journal == Some([]) && ResidentOk(kv.St(), slots, [])
    modifies core
    modifies kv`hitLen, kv`pending, kv`table, kv.coord`uncached, kv.coord.pool, kv.coord.managers
    ensures kv.Ready() && kv.Sound() && kv.coord.pool.journal.Some?
    ensures kv.Undone() == old(kv.Undone()) && kv.Base() == old(kv.Base())
  {
    hide Manager.St, Manager.Ready, Manager.Base, Manager.Undone, Manager.Sound, ResidentOk, SchedSpec.ScheduleResident;
    end := core.ScheduleResident(kv, slots, [], prm);
    kv.StillUndone();
  }

  /**
   * Rollback is exact: arm, run a resident step to whatever end (done, turned away, or over the
   * journal's soft cap), roll back; every cell is as it was, links included.
   */
  method RunThenRollback(kv: Manager, core: ScheduleCore, slots: seq<Slot>, prm: Params) returns (end: Ending)
    requires kv.Ready() && kv.coord.pool.journal.None? && ResidentOk(kv.St(), slots, [])
    modifies core
    modifies kv`hitLen, kv`pending, kv`table, kv.coord`uncached, kv.coord.pool, kv.coord.managers
    ensures kv.Ready() && kv.coord.pool.journal.None?
    ensures kv.Now() == old(kv.Now()) && kv.St() == old(kv.St())
  {
    hide Manager.St, Manager.Now, Manager.Ready, Manager.Base, Manager.Undone, Manager.Sound, ResidentOk,
         SchedSpec.ScheduleResident;
    kv.Unarmed();
    kv.ArmJournal();
    end := RunRecorded(kv, core, slots, prm);
    kv.Wires();
    kv.Rollback();
  }

  lemma FitHead(s: State, mail: Option<Message>, events: seq<Event>)
    requires events != [] && Fit(s, mail, events)
    ensures Fit(s, mail, [events[0]])
  {
    hide ResidentOk, Apply, Allowed, SchedSpec.ScheduleResident;
    assert [events[0]][1..] == [];
  }

  lemma FitTail(s: State, mail: Option<Message>, last: Option<Message>, off: bool, events: seq<Event>, reply: Reply)
    requires events != [] && Fit(s, mail, events) && Honest(s, mail, last, off, events[0], reply)
    ensures Fit(Direct(s, events[0], Answered(reply)), NextMail(mail, events[0]), events[1..])
  {
    hide ResidentOk, Apply, Allowed, SchedSpec.ScheduleResident, Load;
  }
}
