/** What reported outputs and multi-token bursts do to the resident table. */
module TableSpec {
  import opened Basics
  import opened ManagerSpec
  import opened SchedSpec

  /** One slot's verdict: the count before the append, and how many tokens were accepted. Slots
      the stop rules refused are not reported. */
  datatype Report = Report(slot: Slot, tokens: nat, accepted: nat)

  /** `update_step` on one entry: sync the token counts, retire the placeholders. */
  function Updated(e: Entry, r: Report): Entry {
    var tokens := r.tokens + r.accepted;
    e.(tokens := tokens,
       tokensWithSpec := Max(e.tokensWithSpec + tokens - e.tokens, 0),
       placeholders := Monus(e.placeholders, r.accepted))
  }

  /** `table_burst` on one entry: more tokens executed, or the surplus given back. */
  function Burst(e: Entry, delta: int): Entry {
    if delta >= 0 then Advance(e, delta, delta)
    else
      var computed, placeholders := Monus(e.computed, -delta), Monus(e.placeholders, -delta);
      e.(computed := computed, placeholders := placeholders, prefillChunk := computed < e.tokens + placeholders)
  }

  function UpdateTable(s: State, reports: seq<Report>): State
    decreases |reports|
  {
    if reports == [] then s
    else
      var e := TableGet(s, reports[0].slot);
      UpdateTable(if e.Some? then TableSet(s, reports[0].slot, Updated(e.value, reports[0])) else s, reports[1..])
  }

  function BurstTable(s: State, slots: seq<Slot>, delta: int): State
    decreases |slots|
  {
    if slots == [] then s
    else
      var e := TableGet(s, slots[0]);
      BurstTable(if e.Some? then TableSet(s, slots[0], Burst(e.value, delta)) else s, slots[1..], delta)
  }

  /** `push_hashes`. */
  function PushHashes(s: State, slot: Slot, ds: seq<Digest>): State {
    s.(hashes := s.hashes[slot := Hashes(s, slot) + ds])
  }
}
