/** Asynchronous host-to-device staging: a ring of pinned slots and a list of spills, with
    the window credit of the bytes they hold. */
module Staging {
  import opened Payload
  import opened Cuda
  import opened Windows
  import opened SyncCopy

  const SLOT_COUNT: nat := 4

  datatype SlotState = Available | InFlight | Quarantined

  datatype Slot = Slot(ptr: Option<nat>, size: nat, allocationContext: nat, completion: Option<nat>,
                       eventContext: nat, state: SlotState, held: nat)

  datatype Spill = Spill(key: nat, ptr: Option<nat>, allocationContext: nat, completion: Option<nat>,
                         eventContext: nat, recorded: bool, queued: bool, held: nat)

  const EmptySlot := Slot(None, 0, 0, None, 0, Available, 0)

  // Slots own their handles under their index; then come the pool, the retained buffer
  // and, by number, the spills.
  const NOBODY: nat := RETAINED_KEY + 1
  const SPILL_KEY: nat := NOBODY + 1

  // -------------------------------------------------------------- invariants

  function SlotGuard(s: Slot): Guard {
    match s.state
    case Available => Free
    case InFlight => Flying
    case Quarantined => Unknown
  }

  function SpillGuard(s: Spill): Guard {
    if s.recorded then Flying else if s.queued then Unknown else Free
  }

  ghost predicate SlotOk(g: Gpu, i: nat, s: Slot) {
    && Guarded(g, i, s.ptr, s.completion, SlotGuard(s))
    && (s.ptr.Some? ==> s.size == SLOT_BYTES == |g.buffers[s.ptr.value]|)
  }

  ghost predicate SpillOk(g: Gpu, s: Spill) {
    && SPILL_KEY <= s.key < g.next
    && Guarded(g, s.key, s.ptr, s.completion, SpillGuard(s))
    && (s.recorded ==> s.queued)
  }

  /** Every staging record keeps its claim, but for the one whose key is `except`. */
  ghost predicate Claims(g: Gpu, slots: seq<Slot>, spills: seq<Spill>, pool: Pool, retained: Retained, except: nat) {
    && |slots| == SLOT_COUNT && SPILL_KEY <= g.next
    && (forall i: nat :: i < SLOT_COUNT && i != except ==> SlotOk(g, i, slots[i]))
    && (POOL_KEY != except ==> PoolOk(g, pool))
    && (RETAINED_KEY != except ==> RetainedOk(g, retained))
    && (forall k: nat :: k < |spills| && spills[k].key != except ==> SpillOk(g, spills[k]))
    && (forall k: nat :: k < |spills| ==> SPILL_KEY <= spills[k].key)
    && (forall k: nat, m: nat :: k < m < |spills| ==> spills[k].key < spills[m].key)
  }

  function SlotsHeld(slots: seq<Slot>): nat
    decreases |slots|
  {
    if slots == [] then 0 else slots[0].held + SlotsHeld(slots[1..])
  }

  function SpillsHeld(spills: seq<Spill>): nat
    decreases |spills|
  {
    if spills == [] then 0 else spills[0].held + SpillsHeld(spills[1..])
  }

  /** What the window withholds is what the staging records hold. */
  ghost predicate Ledger(l: Link, slots: seq<Slot>, spills: seq<Spill>) {
    && l.Conserved()
    && !l.hold && l.holdBytes == 0
    && (!l.failed ==> l.windowHeld == SlotsHeld(slots) + SpillsHeld(spills))
  }

  /** Only what is in flight withholds credit. */
  ghost predicate Settled(l: Link, slots: seq<Slot>, spills: seq<Spill>, except: nat) {
    !l.failed ==>
      && (forall i: nat :: i < |slots| && i != except && !slots[i].state.InFlight? ==> slots[i].held == 0)
      && (forall k: nat :: k < |spills| && spills[k].key != except && !spills[k].recorded ==> spills[k].held == 0)
  }

  // ------------------------------------------------------------------- lemmas

  lemma {:induction false} NothingHeld(slots: seq<Slot>)
    requires forall i: nat :: i < |slots| ==> slots[i].held == 0
    ensures SlotsHeld(slots) == 0
    decreases |slots|
  {
    if slots != [] {
      NothingHeld(slots[1..]);
    }
  }

  lemma {:induction false} NoSpillHeld(spills: seq<Spill>)
    requires forall k: nat :: k < |spills| ==> spills[k].held == 0
    ensures SpillsHeld(spills) == 0
    decreases |spills|
  {
    if spills != [] {
      NoSpillHeld(spills[1..]);
    }
  }

  ghost predicate NoneInFlight(slots: seq<Slot>, spills: seq<Spill>) {
    && (forall i: nat :: i < |slots| ==> !slots[i].state.InFlight?)
    && (forall k: nat :: k < |spills| ==> !spills[k].recorded)
  }

  /** No credit is lost: once nothing is in flight, every byte received is credited, even
      if copies had to be quarantined. And the window never closes: half of it is beyond
      the reach of staging. */
  lemma CreditReturned(l: Link, slots: seq<Slot>, spills: seq<Spill>)
    requires Ledger(l, slots, spills) && Settled(l, slots, spills, NOBODY) && |slots| == SLOT_COUNT && !l.failed
    requires forall k: nat :: k < |spills| ==> SPILL_KEY <= spills[k].key
    ensures l.received == l.credited + SlotsHeld(slots) + SpillsHeld(spills) && l.received - l.credited <= MAX_HELD
    ensures NoneInFlight(slots, spills) ==> l.received == l.credited
  {
    if NoneInFlight(slots, spills) {
      NothingHeld(slots);
      NoSpillHeld(spills);
    }
  }

  lemma {:induction false} SlotsHeldUpdate(slots: seq<Slot>, i: nat, s: Slot)
    requires i < |slots|
    ensures SlotsHeld(slots[i := s]) == SlotsHeld(slots) - slots[i].held + s.held
    ensures slots[i].held <= SlotsHeld(slots)
    decreases |slots|
  {
    if i == 0 {
      assert slots[i := s][1..] == slots[1..];
    } else {
      SlotsHeldUpdate(slots[1..], i - 1, s);
      assert slots[i := s][1..] == slots[1..][i - 1 := s];
    }
  }

  lemma {:induction false} SpillsHeldUpdate(spills: seq<Spill>, k: nat, s: Spill)
    requires k < |spills|
    ensures SpillsHeld(spills[k := s]) == SpillsHeld(spills) - spills[k].held + s.held
    ensures spills[k].held <= SpillsHeld(spills)
    decreases |spills|
  {
    if k == 0 {
      assert spills[k := s][1..] == spills[1..];
    } else {
      SpillsHeldUpdate(spills[1..], k - 1, s);
      assert spills[k := s][1..] == spills[1..][k - 1 := s];
    }
  }

  function Without(spills: seq<Spill>, k: nat): seq<Spill>
    requires k < |spills|
  {
    spills[..k] + spills[k + 1..]
  }

  lemma {:induction false} SpillsHeldWithout(spills: seq<Spill>, k: nat)
    requires k < |spills|
    ensures SpillsHeld(Without(spills, k)) == SpillsHeld(spills) - spills[k].held
    decreases |spills|
  {
    if k == 0 {
      assert Without(spills, k) == spills[1..];
    } else {
      SpillsHeldWithout(spills[1..], k - 1);
      assert Without(spills, k)[1..] == Without(spills[1..], k - 1);
    }
  }

  lemma {:induction false} SpillsHeldAppend(spills: seq<Spill>, s: Spill)
    ensures SpillsHeld(spills + [s]) == SpillsHeld(spills) + s.held
    decreases |spills|
  {
    if spills == [] {
      assert (spills + [s])[1..] == [];
    } else {
      SpillsHeldAppend(spills[1..], s);
      assert (spills + [s])[1..] == spills[1..] + [s];
    }
  }

  lemma PoolFrame(g: Gpu, h: Gpu, pool: Pool, key: nat)
    requires g.Valid() && OnlyFor(g, h, key) && key != POOL_KEY && PoolOk(g, pool)
    ensures PoolOk(h, pool)
  {
    var guard := if pool.disabled then Unknown else Free;
    forall j: nat | j < POOL_COUNT
      ensures PoolSlotOk(h, pool.slots[j], guard)
    {
      assert PoolSlotOk(g, pool.slots[j], guard);
      OthersGuarded(g, h, key, POOL_KEY, pool.slots[j], None, guard);
    }
  }

  /** A change made for one record leaves all other records' claims alone. */
  lemma Frame(g: Gpu, h: Gpu, slots: seq<Slot>, spills: seq<Spill>, pool: Pool, retained: Retained, key: nat)
    requires g.Valid() && OnlyFor(g, h, key)
    requires Claims(g, slots, spills, pool, retained, key)
    ensures Claims(h, slots, spills, pool, retained, key)
  {
    forall j: nat | j < SLOT_COUNT && j != key
      ensures SlotOk(h, j, slots[j])
    {
      OthersGuarded(g, h, key, j, slots[j].ptr, slots[j].completion, SlotGuard(slots[j]));
    }
    if POOL_KEY != key {
      PoolFrame(g, h, pool, key);
    }
    if RETAINED_KEY != key {
      OthersGuarded(g, h, key, RETAINED_KEY, retained.ptr, None, Free);
    }
    forall k: nat | k < |spills| && spills[k].key != key
      ensures SpillOk(h, spills[k])
    {
      OthersGuarded(g, h, key, spills[k].key, spills[k].ptr, spills[k].completion, SpillGuard(spills[k]));
    }
  }

  /** Copies completing takes nothing from anybody's claim. */
  lemma ProgressClaims(g: Gpu, h: Gpu, slots: seq<Slot>,
      spills: seq<Spill>, pool: Pool, retained: Retained, except: nat)
    requires Claims(g, slots, spills, pool, retained, except) && Progress(g, h)
    ensures Claims(h, slots, spills, pool, retained, except)
  {
    forall j: nat | j < SLOT_COUNT && j != except
      ensures SlotOk(h, j, slots[j])
    {
      assert SlotOk(g, j, slots[j]);
    }
    forall k: nat | k < |spills| && spills[k].key != except
      ensures SpillOk(h, spills[k])
    {
      assert SpillOk(g, spills[k]);
    }
    if POOL_KEY != except {
      PoolProgress(g, h, pool);
    }
  }

  /** Making an exception of one record. */
  lemma Except(g: Gpu, slots: seq<Slot>, spills: seq<Spill>, pool: Pool, retained: Retained, key: nat)
    requires Claims(g, slots, spills, pool, retained, NOBODY)
    ensures Claims(g, slots, spills, pool, retained, key)
  {
    hide SlotOk, PoolOk, RetainedOk, SpillOk;
  }

  /** Dropping a record drops its claim. */
  lemma WithoutClaims(g: Gpu, slots: seq<Slot>, spills: seq<Spill>, pool: Pool, retained: Retained, k: nat)
    requires k < |spills| && Claims(g, slots, spills, pool, retained, spills[k].key)
    ensures Claims(g, slots, Without(spills, k), pool, retained, NOBODY)
    ensures forall m: nat :: m < |spills| && m != k ==> spills[m].key != spills[k].key
  {
    hide SlotOk, PoolOk, RetainedOk, SpillOk;
    var r := Without(spills, k);
    forall m: nat | m < |r|
      ensures r[m] == spills[if m < k then m else m + 1]
    {
    }
  }

  // ------------------------------------------------------------------ records

  /** lupine_async_htod_destroy_event: whatever CUDA answers, the handle is dropped. */
  method DestroyRecordEvent(g: Gpu, event: Option<nat>) returns (h: Gpu)
    requires g.Valid()
    ensures h.Valid() && h.log == g.log && h.buffers == g.buffers && h.jobs <= g.jobs && h.owner == g.owner
    ensures forall k :: (event.Some? ==> event.value in g.owner && g.owner[event.value] == k) ==> OnlyFor(g, h, k)
  {
    h := Elapse(g);
    var ok: bool := *;
    if event.Some? && ok {
      h := h.(marks := h.marks - {event.value});
    }
  }

  /** lupine_async_htod_free_host. */
  method FreeRecordHost(g: Gpu, ptr: Option<nat>) returns (h: Gpu)
    requires g.Valid() && Idle(g.jobs, ptr)
    ensures h.Valid() && h.log == g.log
    ensures forall k :: (ptr.Some? ==> ptr.value in g.owner && g.owner[ptr.value] == k) ==> OnlyFor(g, h, k)
  {
    h := g;
    var current: bool := *;     // whether the owning context could be made current
    if ptr.Some? && current {
      var ok;
      ok, h := FreeHost(g, ptr.value);
    }
  }

  /** Drop both handles of a record whose buffer is idle. */
  method FreeRecord(g: Gpu, k: nat, ptr: Option<nat>, event: Option<nat>) returns (h: Gpu)
    requires g.Valid() && Guarded(g, k, ptr, event, Free)
    ensures h.Valid() && h.log == g.log && OnlyFor(g, h, k)
  {
    var d := DestroyRecordEvent(g, event);
    h := FreeRecordHost(d, ptr);
    OnlyForTwice(g, d, h, k);
  }

  /** lupine_async_htod_query. */
  method QueryRecord(g: Gpu, event: Option<nat>) returns (r: Status, h: Gpu)
    requires g.Valid()
    ensures h.Valid() && Progress(g, h)
    ensures r.Success? ==> event.Some? && (event.value in g.marks ==> Passed(h.jobs, g.marks[event.value]))
  {
    h := g;
    var current: bool := *;
    if event.None? || !current {
      return Failure, h;
    }
    r, h := EventQuery(g, event.value);
  }

  /** lupine_read_staged_payload: read the next part of the payload into a buffer, and
      charge the bytes that arrive meanwhile to it. */
  method ReadStaged(g: Gpu, l: Link, ptr: nat, off: nat, size: nat) returns (ok: bool, held: nat, h: Gpu, m: Link)
    requires g.Valid() && ptr in g.buffers && off + size <= |g.buffers[ptr]| && Untouched(g.jobs, ptr, off, size)
    requires l.Conserved() && !l.hold && l.holdBytes == 0 && Cuts(l, size)
    ensures h.Valid() && OnlyFor(g, h, g.owner[ptr])
    ensures ptr in h.buffers && |h.buffers[ptr]| == |g.buffers[ptr]|
    ensures h == g.(buffers := g.buffers[ptr := h.buffers[ptr]])
    ensures m.Conserved() && !m.hold && m.holdBytes == 0 && m.windowHeld == l.windowHeld + held
    ensures m.payload == l.payload && Later(l.feed, m.feed)
    ensures ok ==> m.consumed == l.consumed + size && m.failed == l.failed
    ensures ok ==> h.buffers[ptr][off..off + size] == l.payload[l.consumed..l.consumed + size]
    ensures !ok ==> m.failed
  {
    m := HoldBegin(l);
    var data;
    ok, data, m := ReadPart(m, size);
    held, m := HoldEnd(m);
    h := WriteHost(g, ptr, off, data);
  }

  // ------------------------------------------------------- which slot is taken

  /** The pass of the search that considers the slot first. */
  function Rank(s: Slot, context: nat): nat {
    if s.ptr.None? then 1 else if s.allocationContext == context then 0 else 2
  }

  /** Of the available slots that could be prepared, the one taken is of the best rank, and
      the first of that rank in the ring; if none is taken, all were tried. */
  ghost predicate Choice(seen: seq<Slot>, context: nat, found: Option<nat>, tried: set<nat>) {
    forall j: nat :: j < |seen| && seen[j].state.Available? && j !in tried ==>
      && found.Some?
      && (found.value < |seen| && found.value !in tried ==>
            || Rank(seen[found.value], context) < Rank(seen[j], context)
            || (Rank(seen[found.value], context) == Rank(seen[j], context) && found.value <= j))
  }

  /** The slots not tried are as they were, and their turn is yet to come. */
  ghost predicate Searched(seen: seq<Slot>, slots: seq<Slot>, context: nat, tried: set<nat>, pass: nat, i: nat) {
    && |slots| == |seen|
    && forall j: nat :: j < |seen| && j !in tried ==>
      && slots[j] == seen[j]
      && (seen[j].state.Available? ==>
            pass < Rank(seen[j], context) || (pass == Rank(seen[j], context) && i <= j))
  }

  lemma AllRanked(slots: seq<Slot>, context: nat)
    ensures Searched(slots, slots, context, {}, 0, 0)
  {
  }

  // -------------------------------------------------------------- the server

  /** What a connection's link may have gone through while records changed hands. */
  ghost predicate SameStream(l: Link, r: Link) {
    r.payload == l.payload && r.consumed == l.consumed && r.feed == l.feed && (l.failed ==> r.failed)
  }

  class Server {
    var gpu: Gpu
    var link: Link
    var slots: seq<Slot>
    var spills: seq<Spill>
    var pool: Pool
    var retained: Retained

    ghost predicate ValidBut(key: nat)
      reads this
    {
      && gpu.Valid()
      && Claims(gpu, slots, spills, pool, retained, key)
      && Ledger(link, slots, spills)
      && Settled(link, slots, spills, key)
    }

    ghost predicate Valid()
      reads this
    {
      ValidBut(NOBODY)
    }

    /** A connection just set up. */
    constructor (g: Gpu, l: Link)
      requires g.Valid() && SPILL_KEY <= g.next
      requires l.Conserved() && !l.hold && l.holdBytes == 0 && l.windowHeld == 0
      ensures Valid() && gpu == g && link == l
    {
      gpu, link := g, l;
      slots, spills := seq(SLOT_COUNT, _ => EmptySlot), [];
      pool, retained := EmptyPool, NothingRetained;
      new;
      NothingHeld(slots);
    }

    /** The next request announces its payload: its header has been read, and the payload
        and what follows it are to come. */
    method Announce(payload: seq<byte>, feed: Feed)
      requires Valid() && link.consumed == |link.payload| && Stands(feed, payload)
      modifies this`link
      ensures Valid() && link == old(link).(feed := feed, payload := payload, consumed := 0)
    {
      hide Guarded, Stands;
      link := link.(feed := feed, payload := payload, consumed := 0);
      assert link.payload[link.consumed..] == payload;
    }

    /** Replace a slot that is no longer in flight and credit what it held. */
    method SettleSlot(i: nat, s: Slot)
      requires ValidBut(i) && i < SLOT_COUNT && SlotOk(gpu, i, s) && s.held == 0
      modifies this`slots, this`link
      ensures Valid() && slots == old(slots)[i := s] && SameStream(old(link), link)
    {
      hide Guarded, Stands;
      SlotsHeldUpdate(slots, i, s);
      link := Release(link, slots[i].held);
      slots := slots[i := s];
    }

    /** The same for a spill. */
    method SettleSpill(k: nat, s: Spill)
      requires k < |spills| && s.key == spills[k].key && ValidBut(s.key) && SpillOk(gpu, s) && s.held == 0
      modifies this`spills, this`link
      ensures Valid() && spills == old(spills)[k := s] && SameStream(old(link), link)
    {
      hide Guarded, Stands;
      SpillsHeldUpdate(spills, k, s);
      link := Release(link, spills[k].held);
      spills := spills[k := s];
    }

    /** Forget a spill and credit what it held. */
    method EraseSpill(k: nat)
      requires k < |spills| && ValidBut(spills[k].key)
      modifies this`spills, this`link
      ensures Valid() && spills == Without(old(spills), k) && SameStream(old(link), link)
    {
      hide Guarded, Stands;
      SpillsHeldWithout(spills, k);
      WithoutClaims(gpu, slots, spills, pool, retained, k);
      SpillsHeldUpdate(spills, k, spills[k]);
      link := Release(link, spills[k].held);
      spills := Without(spills, k);
    }

    /** The slots' half of lupine_async_htod_reclaim, for one slot. */
    method ReclaimSlot(i: nat, context: nat)
      requires Valid() && i < SLOT_COUNT
      modifies this`gpu, this`slots, this`link
      ensures Valid() && SameStream(old(link), link) && gpu.log == old(gpu.log)
      ensures |slots| == |old(slots)| && (slots == old(slots)
        || (old(slots[i].state).InFlight? && old(slots[i].eventContext) == context && !slots[i].state.InFlight?
            && slots == old(slots)[i := old(slots[i]).(state := slots[i].state, held := 0)]))
    {
      hide Guarded, Ledger, Settled;
      var s := slots[i];
      if !s.state.InFlight? || s.eventContext != context || s.completion.None? {
        return;
      }
      var r := ProbeSlot(i);
      if r.Success? {
        SettleSlot(i, s.(state := Available, held := 0));
      } else if !r.NotReady? {
        // An error cannot prove that the copy is finished.
        SettleSlot(i, s.(state := Quarantined, held := 0));
      }
    }

    /** Query the event of a slot in flight. Success means that the slot is idle. */
    method ProbeSlot(i: nat) returns (r: Status)
      requires Valid() && i < SLOT_COUNT && slots[i].state.InFlight?
      modifies this`gpu
      ensures Valid() && ValidBut(i) && gpu.log == old(gpu.log)
      ensures r.Success? ==> SlotOk(gpu, i, slots[i].(state := Available, held := 0))
      ensures !r.NotReady? ==> SlotOk(gpu, i, slots[i].(state := Quarantined, held := 0))
    {
      hide Ledger, Settled;
      var s := slots[i];
      ghost var g := gpu;
      assert SlotOk(g, i, s);
      r, gpu := QueryRecord(gpu, s.completion);
      ProgressClaims(g, gpu, slots, spills, pool, retained, NOBODY);
      Except(gpu, slots, spills, pool, retained, i);
      if r.Success? {
        QueryFrees(g, gpu, i, s.ptr, s.completion);
      }
      assert SlotOk(gpu, i, s);
      SettledExcept(link, slots, spills, i);
    }

    /** Query the event of a recorded spill. */
    method ProbeSpill(k: nat) returns (r: Status)
      requires Valid() && k < |spills| && spills[k].recorded
      modifies this`gpu
      ensures Valid() && ValidBut(spills[k].key) && gpu.log == old(gpu.log)
      ensures r.Success? ==> Guarded(gpu, spills[k].key, spills[k].ptr, spills[k].completion, Free)
      ensures SpillOk(gpu, spills[k].(recorded := false, held := 0))
    {
      hide Ledger, Settled;
      var s := spills[k];
      ghost var g := gpu;
      assert SpillOk(g, s);
      r, gpu := QueryRecord(gpu, s.completion);
      ProgressClaims(g, gpu, slots, spills, pool, retained, NOBODY);
      Except(gpu, slots, spills, pool, retained, s.key);
      if r.Success? {
        QueryFrees(g, gpu, s.key, s.ptr, s.completion);
      }
      assert SpillOk(gpu, s);
      SettledExcept(link, slots, spills, s.key);
    }

    /** Free a spill whose buffer is idle, credit what it held and forget it. */
    method RetireSpill(k: nat)
      requires k < |spills| && ValidBut(spills[k].key)
      requires Guarded(gpu, spills[k].key, spills[k].ptr, spills[k].completion, Free)
      modifies this`gpu, this`spills, this`link
      ensures Valid() && SameStream(old(link), link) && gpu.log == old(gpu.log) && spills == Without(old(spills), k)
    {
      hide Ledger, Settled;
      ghost var g := gpu;
      gpu := FreeRecord(gpu, spills[k].key, spills[k].ptr, spills[k].completion);
      Frame(g, gpu, slots, spills, pool, retained, spills[k].key);
      EraseSpill(k);
    }

    /** The spills' half of lupine_async_htod_reclaim, for one spill. */
    method ReclaimSpill(k: nat, context: nat) returns (erased: bool)
      requires Valid() && k < |spills|
      modifies this`gpu, this`spills, this`link
      ensures Valid() && SameStream(old(link), link) && gpu.log == old(gpu.log)
      ensures erased ==> spills == Without(old(spills), k)
      ensures !erased ==>
        spills == old(spills) || spills == old(spills)[k := old(spills[k]).(recorded := false, held := 0)]
    {
      hide Guarded, Ledger, Settled;
      erased := false;
      var s := spills[k];
      if !s.recorded || s.eventContext != context {
        return;
      }
      var r := ProbeSpill(k);
      if r.NotReady? {
        return;
      }
      if !r.Success? {
        SettleSpill(k, s.(recorded := false, held := 0));
        return;
      }
      RetireSpill(k);
      erased := true;
    }

    /** lupine_async_htod_reclaim. */
    method Reclaim(context: nat)
      requires Valid()
      modifies this`gpu, this`slots, this`spills, this`link
      ensures Valid() && SameStream(old(link), link) && gpu.log == old(gpu.log)
    {
      hide Valid;
      for i := 0 to SLOT_COUNT
        invariant Valid() && SameStream(old(link), link) && gpu.log == old(gpu.log)
      {
        ReclaimSlot(i, context);
      }
      var k := 0;
      while k < |spills|
        invariant Valid() && SameStream(old(link), link) && gpu.log == old(gpu.log)
        decreases |spills| - k
      {
        var erased := ReclaimSpill(k, context);
        if !erased {
          k := k + 1;
        }
      }
    }

    // ------------------------------------------------------ acquiring a slot

    /** Give an available slot other handles, or none. */
    method ReplaceIdle(i: nat, h: Gpu, s: Slot)
      requires Valid() && i < SLOT_COUNT && slots[i].state.Available?
      requires h.Valid() && OnlyFor(gpu, h, i) && SlotOk(h, i, s) && s.state.Available? && (s.held == 0 || link.failed)
      modifies this`gpu, this`slots
      ensures Valid() && gpu == h && slots == old(slots)[i := s]
    {
      hide Guarded;
      Except(gpu, slots, spills, pool, retained, i);
      ReplaceSlot(gpu, h, slots, spills, pool, retained, i, s);
      SlotsHeldUpdate(slots, i, s);
      gpu, slots := h, slots[i := s];
    }

    /** lupine_async_htod_reset_available_slot. */
    method ResetSlot(i: nat)
      requires Valid() && i < SLOT_COUNT && slots[i].state.Available?
      modifies this`gpu, this`slots
      ensures Valid() && gpu.log == old(gpu.log) && slots == old(slots)[i := EmptySlot]
    {
      hide Ledger, Settled;
      assert SlotOk(gpu, i, slots[i]);
      var h := FreeRecord(gpu, i, slots[i].ptr, slots[i].completion);
      ReplaceIdle(i, h, EmptySlot);
    }

    method AllocateSlot(i: nat, context: nat) returns (ok: bool)
      requires Valid() && i < SLOT_COUNT && slots[i].state.Available? && slots[i].ptr.None?
      modifies this`gpu, this`slots
      ensures Valid() && gpu.log == old(gpu.log) && slots[i].state.Available? && slots == old(slots)[i := slots[i]]
      ensures ok ==> slots[i].ptr.Some? && slots[i].allocationContext == context
    {
      hide Ledger;
      var s := slots[i];
      assert SlotOk(gpu, i, s);
      var ptr, h := HostAlloc(gpu, i, SLOT_BYTES);
      ok := ptr.Some?;
      if ok {
        s := s.(ptr := ptr, size := SLOT_BYTES, allocationContext := context);
      }
      ReplaceIdle(i, h, s);
    }

    method RenewEvent(i: nat, context: nat) returns (ok: bool)
      requires Valid() && i < SLOT_COUNT && slots[i].state.Available?
      modifies this`gpu, this`slots
      ensures Valid() && gpu.log == old(gpu.log) && slots[i].state.Available? && slots == old(slots)[i := slots[i]]
      ensures slots[i].ptr == old(slots[i].ptr) && slots[i].allocationContext == old(slots[i].allocationContext)
      ensures ok ==> slots[i].completion.Some? && slots[i].eventContext == context
    {
      hide Ledger;
      var s := slots[i];
      assert SlotOk(gpu, i, s);
      var h := gpu;
      if s.completion.Some? && s.eventContext != context {
        h := DestroyRecordEvent(h, s.completion);
        s := s.(completion := None);
        assert SlotOk(h, i, s);
      }
      ok := true;
      if s.completion.None? {
        ghost var d := h;
        var event;
        event, h := EventCreate(h, i);
        ok := event.Some?;
        s := s.(completion := event, eventContext := if ok then context else s.eventContext);
        OnlyForTwice(gpu, d, h, i);
      }
      ReplaceIdle(i, h, s);
    }

    /** lupine_async_htod_prepare_slot. */
    method PrepareSlot(i: nat, context: nat) returns (ok: bool)
      requires Valid() && i < SLOT_COUNT
      modifies this`gpu, this`slots
      ensures Valid() && gpu.log == old(gpu.log) && slots == old(slots)[i := slots[i]]
      ensures ok ==> Ready(i, context)
      ensures !old(slots[i]).state.Available? ==> !ok && slots == old(slots) && gpu == old(gpu)
    {
      hide Guarded, Ledger, Settled;
      if !slots[i].state.Available? {
        return false;
      }
      if slots[i].ptr.Some? && (slots[i].allocationContext != context || slots[i].size < SLOT_BYTES) {
        ResetSlot(i);
      }
      if slots[i].ptr.None? {
        ok := AllocateSlot(i, context);
        if !ok {
          return;
        }
      }
      ok := RenewEvent(i, context);
    }

    /** Slot `i` can be filled: it is available, and its buffer and event are this
        context's own. */
    predicate Ready(i: nat, context: nat)
      reads this
    {
      && i < |slots| == SLOT_COUNT && slots[i].state.Available?
      && slots[i].ptr.Some? && slots[i].allocationContext == context
      && slots[i].completion.Some? && slots[i].eventContext == context
    }

    predicate Candidate(i: nat, pass: nat, context: nat)
      requires i < |slots|
      reads this
    {
      if pass == 0 then slots[i].ptr.Some? && slots[i].allocationContext == context
      else if pass == 1 then slots[i].ptr.None?
      else slots[i].ptr.Some?
    }

    /** The three passes over the ring: a slot of this context, an empty one, any one.
        `tried` are the slots whose preparation failed. */
    method FindSlot(context: nat) returns (found: Option<nat>, ghost tried: set<nat>)
      requires Valid()
      modifies this`gpu, this`slots
      ensures Valid() && gpu.log == old(gpu.log)
      ensures found.Some? ==> Ready(found.value, context)
      ensures Choice(old(slots), context, found, tried)
    {
      hide Guarded, Ledger, Settled;
      tried := {};
      AllRanked(slots, context);
      for pass := 0 to 3
        invariant Valid() && gpu.log == old(gpu.log) && |slots| == |old(slots)| == SLOT_COUNT
        invariant Searched(old(slots), slots, context, tried, pass, 0)
      {
        for i := 0 to SLOT_COUNT
          invariant Valid() && gpu.log == old(gpu.log) && |slots| == |old(slots)| == SLOT_COUNT
          invariant Searched(old(slots), slots, context, tried, pass, i)
        {
          if slots[i].state.Available? && Candidate(i, pass, context) {
            var ok := PrepareSlot(i, context);
            if ok {
              return Some(i), tried;
            }
            tried := tried + {i};
          }
        }
      }
      found := None;
    }

    /** lupine_async_htod_acquire_slot; the polling budget is counted in clock ticks, of
        which each round takes at least one. `seen` are the slots at the last look. */
    method AcquireSlot(context: nat, budget: nat)
      returns (found: Option<nat>, left: nat, ghost seen: seq<Slot>, ghost tried: set<nat>)
      requires Valid()
      modifies this`gpu, this`slots, this`spills, this`link
      ensures Valid() && SameStream(old(link), link) && gpu.log == old(gpu.log)
      ensures found.Some? ==> Ready(found.value, context)
      ensures found.None? ==> left == 0
      ensures Choice(seen, context, found, tried)
    {
      hide Valid, Choice;
      left := budget;
      Reclaim(context);
      seen := slots;
      found, tried := FindSlot(context);
      while found.None? && left != 0
        invariant Valid() && SameStream(old(link), link) && gpu.log == old(gpu.log)
        invariant found.Some? ==> Ready(found.value, context)
        invariant Choice(seen, context, found, tried)
        decreases left
      {
        var elapsed: nat :| 1 <= elapsed;
        if left <= elapsed {
          left := 0;
          return;
        }
        left := left - elapsed;
        Reclaim(context);
        seen := slots;
        found, tried := FindSlot(context);
      }
    }

    // ------------------------------------------------------ copying by slots

    /** Slot `i` is being filled or copied from: its handles are its own, and the copies
        from it are all on `stream`. */
    ghost predicate Busy(i: nat, stream: nat)
      reads this
    {
      && ValidBut(i) && i < SLOT_COUNT && slots[i].ptr.Some? && slots[i].completion.Some?
      && SlotOk(gpu, i, slots[i].(state := Quarantined))
      && (forall j :: j in gpu.jobs && j.buf == slots[i].ptr.value ==> j.stream == stream)
    }

    method FillSlot(i: nat, size: nat, ghost context: nat, ghost stream: nat) returns (ok: bool)
      requires Valid() && Ready(i, context) && size <= SLOT_BYTES && Cuts(link, size)
      modifies this`gpu, this`link, this`slots
      ensures gpu.log == old(gpu.log) && link.payload == old(link.payload)
      ensures Later(old(link.feed), link.feed) && |slots| == SLOT_COUNT
      ensures ok ==> Busy(i, stream) && link.consumed == old(link.consumed) + size && slots[i].ptr == old(slots[i].ptr)
      ensures ok ==> gpu.buffers[slots[i].ptr.value][..size] == link.payload[old(link.consumed)..link.consumed]
      ensures !ok ==> Valid() && link.failed
    {
      hide Settled, Stands;
      var s := slots[i];
      assert SlotOk(gpu, i, s);
      Except(gpu, slots, spills, pool, retained, i);
      assert |slots| == SLOT_COUNT && Settled(link, slots, spills, NOBODY);
      SettledExcept(link, slots, spills, i);
      ghost var g, l := gpu, link;
      var held;
      ok, held, gpu, link := ReadStaged(gpu, link, s.ptr.value, 0, size);
      s := s.(held := s.held + held);
      SlotsHeldUpdate(slots, i, s);
      ReplaceSlot(g, gpu, slots, spills, pool, retained, i, s);
      SettledHeld(l, link, slots, spills, i, s);
      slots := slots[i := s];
      Except(gpu, slots, spills, pool, retained, i);
    }

    /** The copy out of a filled slot. */
    method SubmitSlot(i: nat, size: nat, dst: nat, stream: nat) returns (ok: bool, ghost job: Job)
      requires Busy(i, stream) && size <= SLOT_BYTES
      modifies this`gpu
      ensures Busy(i, stream) && gpu.log == old(gpu.log) + [job]
      ensures job.stream == stream && job.dst == dst && job.data == old(gpu.buffers)[slots[i].ptr.value][..size]
    {
      hide Ledger, Settled;
      ghost var g := gpu;
      ok, gpu, job := CopyAsync(gpu, slots[i].ptr.value, 0, size, dst, stream);
      Frame(g, gpu, slots, spills, pool, retained, i);
    }

    /** lupine_async_htod_publish_slot. */
    method PublishSlot(i: nat, stream: nat) returns (ok: bool)
      requires Busy(i, stream)
      modifies this`gpu, this`link, this`slots
      ensures Valid() && SameStream(old(link), link) && gpu.log == old(gpu.log)
      ensures |slots| == |old(slots)|
      ensures var s := old(slots[i]);
        slots == old(slots)[i := if ok then s.(state := InFlight) else s.(state := Quarantined, held := 0)]
    {
      hide Ledger;
      ghost var g := gpu;
      var s := slots[i];
      ok, gpu := EventRecord(gpu, s.completion.value, stream);
      Frame(g, gpu, slots, spills, pool, retained, i);
      if ok {
        s := s.(state := InFlight);
        SlotsHeldUpdate(slots, i, s);
        ProgressOnly(gpu, gpu, i);
        ReplaceSlot(gpu, gpu, slots, spills, pool, retained, i, s);
        LedgerSame(link, slots, spills, i, s);
        slots := slots[i := s];
      } else {
        SettleSlot(i, s.(state := Quarantined, held := 0));
      }
    }

    /** One round of the ring: fill a slot, copy out of it, publish its event. */
    method StageChunk(i: nat, size: nat, dst: nat, ghost context: nat, stream: nat)
      returns (alive: bool, success: bool, ghost job: Job)
      requires Valid() && Ready(i, context) && size <= SLOT_BYTES && Cuts(link, size)
      modifies this`gpu, this`link, this`slots
      ensures Valid() && link.payload == old(link.payload) && Later(old(link.feed), link.feed)
      ensures !alive ==> link.failed
      ensures alive ==> gpu.log == old(gpu.log) + [job] && link.consumed == old(link.consumed) + size
      ensures alive ==>
        job.stream == stream && job.dst == dst && job.data == link.payload[old(link.consumed)..link.consumed]
    {
      hide ValidBut, Guarded, SlotOk, Cuts;
      success := false;
      job := Job(0, 0, 0, 0, 0, []);
      alive := FillSlot(i, size, context, stream);
      if !alive {
        return;
      }
      var copied, published;
      copied, job := SubmitSlot(i, size, dst, stream);
      published := PublishSlot(i, stream);
      success := copied && published;
    }

    /** The ring loop of lupine_server_copy_htod_async. */
    method CopyBySlots(usable: bool, context: nat, dst: nat, stream: nat, budget: nat)
      returns (alive: bool, success: bool, offset: nat, ghost copies: seq<Job>)
      requires Valid() && link.consumed == 0
      modifies this`gpu, this`link, this`slots, this`spills
      ensures Valid() && link.payload == old(link.payload)
      ensures Later(old(link.feed), link.feed) && offset <= |link.payload|
      ensures !alive ==> link.failed
      ensures alive && success ==> usable
      ensures alive && success ==> link.consumed == offset && (offset == |link.payload| || Whole(offset))
      ensures alive && success ==>
        gpu.log == old(gpu.log) + copies && Carries(copies, stream, dst, link.payload[..offset])
      ensures alive && !success ==> link.consumed == if offset == 0 then 0 else |link.payload|
    {
      hide Valid, Carries;
      alive, success, offset := true, usable, 0;
      copies := [];
      var left := budget;
      CarriesNothing(stream, dst);
      while success && offset < |link.payload|
        invariant alive && Valid() && link.payload == old(link.payload) && Later(old(link.feed), link.feed)
        invariant offset <= |link.payload| && (offset == |link.payload| || Whole(offset))
        invariant link.consumed == offset && (!success ==> offset == 0) && (success ==> usable)
        invariant gpu.log == old(gpu.log) + copies && Carries(copies, stream, dst, link.payload[..offset])
        decreases |link.payload| - offset
      {
        var found;
        ghost var seen, tried;
        found, left, seen, tried := AcquireSlot(context, left);
        if found.None? {
          break;
        }
        var chunk := Min(SLOT_BYTES, |link.payload| - offset);
        SlotCuts(link);
        ghost var job;
        alive, success, job := StageChunk(found.value, chunk, dst + offset, context, stream);
        if !alive {
          return;
        }
        CarriesNext(copies, stream, dst, link.payload, offset, chunk, job);
        copies := copies + [job];
        WholeMore(offset, chunk);
        offset := offset + chunk;
        if !success {
          alive := DrainRest(|link.payload| - offset);
          break;
        }
      }
    }

    method DrainRest(size: nat) returns (alive: bool)
      requires Valid() && link.consumed + size == |link.payload|
      modifies this`link
      ensures Valid() && link.payload == old(link.payload) && Later(old(link.feed), link.feed)
      ensures alive ==> link.consumed == |link.payload|
      ensures !alive ==> link.failed
    {
      hide Guarded;
      alive, link := Drain(link, size);
    }

    // ------------------------------------------------------ copying by spill

    /** The last spill is being filled: the copies from it are all on `stream` and read
        below `offset`. */
    ghost predicate Open(p: nat, size: nat, offset: nat, stream: nat)
      reads this
    {
      && spills != []
      && var s := spills[|spills| - 1];
      && ValidBut(s.key) && SPILL_KEY <= s.key < gpu.next
      && s.ptr == Some(p) && s.completion.Some? && !s.recorded
      && Guarded(gpu, s.key, s.ptr, s.completion, Unknown) && |gpu.buffers[p]| == size
      && offset <= size
      && (forall j :: j in gpu.jobs && j.buf == p ==> j.stream == stream && j.off + |j.data| <= offset)
      && (!s.queued ==> Idle(gpu.jobs, s.ptr))
    }

    /** The record behind a spill's copies: if it stands, it accounts for all of them. */
    static method RecordSpill(g: Gpu, s: Spill, stream: nat, ghost p: nat) returns (ok: bool, h: Gpu)
      requires g.Valid() && SPILL_KEY <= s.key < g.next && s.queued && !s.recorded
      requires s.ptr == Some(p) && s.completion.Some? && Guarded(g, s.key, s.ptr, s.completion, Unknown)
      requires forall j :: j in g.jobs && j.buf == p ==> j.stream == stream
      ensures h.Valid() && OnlyFor(g, h, s.key) && h.log == g.log
      ensures SpillOk(h, if ok then s.(recorded := true) else s.(held := 0))
    {
      ok, h := EventRecord(g, s.completion.value, stream);
    }

    /** lupine_async_htod_publish_spill. */
    method PublishSpill(ghost p: nat, ghost size: nat, ghost offset: nat, stream: nat) returns (ok: bool)
      requires Open(p, size, offset, stream) && spills[|spills| - 1].queued
      modifies this`gpu, this`link, this`spills
      ensures Valid() && SameStream(old(link), link) && gpu.log == old(gpu.log) && |spills| == |old(spills)|
      ensures var k := |old(spills)| - 1;
        var s := old(spills)[k];
        spills == old(spills)[k := if ok then s.(recorded := true) else s.(recorded := false, held := 0)]
    {
      hide Ledger, Settled, Stands, Guarded;
      ghost var g := gpu;
      var k := |spills| - 1;
      var s := spills[k];
      ok, gpu := RecordSpill(gpu, s, stream, p);
      Frame(g, gpu, slots, spills, pool, retained, s.key);
      if ok {
        s := s.(recorded := true);
        ProgressOnly(gpu, gpu, s.key);
        ReplaceSpill(gpu, gpu, slots, spills, pool, retained, k, s);
        SpillRecorded(link, slots, spills, k, s);
        spills := spills[k := s];
      } else {
        SettleSpill(k, s.(recorded := false, held := 0));
      }
    }

    /** lupine_async_htod_discard_spill, and the removal of the record. */
    method DiscardSpill()
      requires spills != [] && ValidBut(spills[|spills| - 1].key)
      requires Guarded(gpu, spills[|spills| - 1].key, spills[|spills| - 1].ptr, spills[|spills| - 1].completion, Free)
      modifies this`gpu, this`link, this`spills
      ensures Valid() && SameStream(old(link), link) && gpu.log == old(gpu.log)
    {
      RetireSpill(|spills| - 1);
    }

    method FillSpill(p: nat, size: nat, offset: nat, chunk: nat, ghost stream: nat) returns (ok: bool)
      requires Open(p, size, offset, stream) && offset + chunk <= size && Cuts(link, chunk)
      modifies this`gpu, this`link, this`spills
      ensures Open(p, size, offset, stream)
      ensures gpu.log == old(gpu.log) && link.payload == old(link.payload) && Later(old(link.feed), link.feed)
      ensures |spills| == |old(spills)| && spills[|spills| - 1].queued == old(spills[|spills| - 1].queued)
      ensures ok ==> link.consumed == old(link.consumed) + chunk
      ensures ok ==> gpu.buffers[p][offset..offset + chunk] == link.payload[old(link.consumed)..link.consumed]
      ensures !ok ==> link.failed
    {
      hide Ledger, Settled, Claims, Stands;
      var k := |spills| - 1;
      var s := spills[k];
      ghost var g, l := gpu, link;
      LinkOpen(link, slots, spills);
      var held;
      ok, held, gpu, link := ReadStaged(gpu, link, p, offset, chunk);
      s := s.(held := s.held + held);
      Frame(g, gpu, slots, spills, pool, retained, s.key);
      SpillCharged(gpu, l, link, slots, spills, pool, retained, k, s);
      spills := spills[k := s];
    }

    method SubmitSpill(p: nat, size: nat, offset: nat, chunk: nat, dst: nat, stream: nat)
      returns (ok: bool, ghost job: Job)
      requires Open(p, size, offset, stream) && offset + chunk <= size
      modifies this`gpu, this`spills
      ensures Open(p, size, offset + chunk, stream) && spills[|spills| - 1].queued
      ensures gpu.log == old(gpu.log) + [job] && job.stream == stream
      ensures job.dst == dst && job.data == old(gpu.buffers[p])[offset..offset + chunk]
    {
      hide Ledger, Settled, Claims;
      var k := |spills| - 1;
      var s := spills[k];
      ghost var g := gpu;
      ok, gpu, job := CopyAsync(gpu, p, offset, chunk, dst, stream);
      Frame(g, gpu, slots, spills, pool, retained, s.key);
      s := s.(queued := true);
      LinkOpen(link, slots, spills);
      SpillCharged(gpu, link, link, slots, spills, pool, retained, k, s);
      spills := spills[k := s];
    }

    /** A new record at the end of the list. */
    method AppendSpill(context: nat)
      requires Valid()
      modifies this`gpu, this`spills
      ensures Valid() && gpu.log == old(gpu.log)
      ensures spills == old(spills) + [Spill(old(gpu.next), None, context, None, context, false, false, 0)]
      ensures SPILL_KEY <= old(gpu.next) < gpu.next && SpillOk(gpu, spills[|spills| - 1])
    {
      hide Ledger, Settled;
      var s := Spill(gpu.next, None, context, None, context, false, false, 0);
      ghost var g := gpu;
      gpu := gpu.(next := gpu.next + 1);
      Frame(g, gpu, slots, spills, pool, retained, NOBODY);
      SpillAppended(gpu, link, slots, spills, pool, retained, s);
      spills := spills + [s];
    }

    /** Give the last spill its buffer and its event, or remove it again. */
    method OpenSpill(context: nat, size: nat, ghost stream: nat) returns (p: Option<nat>)
      requires Valid() && 0 < size
      modifies this`gpu, this`spills, this`link
      ensures SameStream(old(link), link) && gpu.log == old(gpu.log)
      ensures p.None? ==> Valid()
      ensures p.Some? ==> spills != [] && Open(p.value, size, 0, stream) && !spills[|spills| - 1].queued
    {
      hide Ledger, Settled, Claims, OnlyFor;
      AppendSpill(context);
      var s := spills[|spills| - 1];
      var event: Option<nat> := None;
      var h;
      p, h := HostAlloc(gpu, s.key, size);
      if p.Some? {
        ghost var mid := h;
        event, h := EventCreate(h, s.key);
        OnlyForTwice(gpu, mid, h, s.key);
      }
      s := s.(ptr := p, completion := event);
      InstallSpill(h, s);
      if event.None? {
        DiscardSpill();
        return None;
      }
    }

    method InstallSpill(h: Gpu, s: Spill)
      requires Valid() && spills != [] && h.Valid() && OnlyFor(gpu, h, s.key) && SpillOk(h, s)
      requires s == spills[|spills| - 1].(ptr := s.ptr, completion := s.completion)
      modifies this`gpu, this`spills
      ensures ValidBut(s.key) && gpu == h && spills == old(spills)[|old(spills)| - 1 := s]
    {
      hide Ledger, Settled;
      var k := |spills| - 1;
      ghost var was := spills;
      Except(gpu, slots, spills, pool, retained, s.key);
      Frame(gpu, h, slots, spills, pool, retained, s.key);
      SettledExcept(link, slots, spills, s.key);
      LinkOpen(link, slots, spills);
      SpillCharged(h, link, link, slots, spills, pool, retained, k, s);
      gpu, spills := h, spills[k := s];
    }

    /** The body of the spill's loop: read a chunk and copy it. `dead` is a transport
        failure; after it, and after a failed copy, the spill is no longer open. */
    method SpillChunk(p: nat, size: nat, offset: nat, chunk: nat, dst: nat, stream: nat)
      returns (dead: bool, copied: bool, ghost job: Job)
      requires Open(p, size, offset, stream) && offset + chunk <= size && Cuts(link, chunk)
      modifies this`gpu, this`link, this`spills
      ensures link.payload == old(link.payload) && Later(old(link.feed), link.feed)
      ensures dead ==> Valid() && link.failed
      ensures !dead ==> link.consumed == old(link.consumed) + chunk && gpu.log == old(gpu.log) + [job]
      ensures !dead ==>
        job.stream == stream && job.dst == dst && job.data == link.payload[old(link.consumed)..link.consumed]
      ensures !dead ==>
        if copied then spills != [] && Open(p, size, offset + chunk, stream) && spills[|spills| - 1].queued else Valid()
    {
      hide Ledger, Settled, Claims, Cuts;
      copied, job := false, Job(0, 0, 0, 0, 0, []);
      var ok := FillSpill(p, size, offset, chunk, stream);
      dead := !ok;
      if dead {
        if spills[|spills| - 1].queued {
          var _ := PublishSpill(p, size, offset, stream);
        } else {
          DiscardSpill();
        }
        return;
      }
      copied, job := SubmitSpill(p, size, offset, chunk, dst, stream);
      if !copied {
        var _ := PublishSpill(p, size, offset + chunk, stream);
      }
    }

    /** The spill's loop. It ends with everything copied, or after a failed copy. */
    method SpillChunks(p: nat, size: nat, dst: nat, stream: nat)
      returns (dead: bool, copied: bool, offset: nat, ghost copies: seq<Job>)
      requires Open(p, size, 0, stream) && 0 < size && link.consumed + size == |link.payload|
      modifies this`gpu, this`link, this`spills
      ensures link.payload == old(link.payload) && Later(old(link.feed), link.feed)
      ensures dead ==> Valid() && link.failed
      ensures !dead ==> offset <= size && link.consumed == old(link.consumed) + offset
      ensures !dead && !copied ==> Valid()
      ensures !dead && copied ==>
        offset == size && spills != [] && Open(p, size, size, stream) && spills[|spills| - 1].queued
      ensures !dead && copied ==>
        gpu.log == old(gpu.log) + copies && Carries(copies, stream, dst, link.payload[old(link.consumed)..])
    {
      hide Valid, Open, Carries, Cuts, Staged;
      ghost var from, data := link.consumed, link.payload;
      dead, copied, offset, copies := false, true, 0, [];
      StagedNothing(gpu.log, stream, dst, data, from);
      while offset < size && copied
        invariant !dead && offset <= size && link.payload == data && Later(old(link.feed), link.feed)
        invariant link.consumed == from + offset
        invariant Staged(old(gpu.log), gpu.log, copies, stream, dst, data, from, link.consumed)
        invariant if copied then Open(p, size, offset, stream) else Valid()
        invariant copied && 0 < offset ==> spills != [] && spills[|spills| - 1].queued
        decreases size - offset
      {
        var chunk := Min(CHUNK_BYTES, size - offset);
        SlotCuts(link);
        ghost var job, log := *, gpu.log;
        dead, copied, job := SpillChunk(p, size, offset, chunk, dst + offset, stream);
        if dead {
          return;
        }
        StagedMore(old(gpu.log), log, copies, stream, dst, data, from, from + offset, chunk, job);
        copies := copies + [job];
        offset := offset + chunk;
      }
      StagedAll(old(gpu.log), gpu.log, copies, stream, dst, data, from, link.consumed);
    }

    /** lupine_async_htod_enqueue_spill: stage the rest of the payload in one allocation. */
    method EnqueueSpill(dst: nat, size: nat, stream: nat, context: nat)
      returns (success: bool, consumed: bool, dead: bool, ghost copies: seq<Job>)
      requires Valid() && 0 < size && link.consumed + size == |link.payload|
      modifies this`gpu, this`link, this`spills
      ensures Valid() && link.payload == old(link.payload) && Later(old(link.feed), link.feed)
      ensures dead ==> link.failed
      ensures !dead ==> link.consumed == if consumed then |link.payload| else old(link.consumed)
      ensures !dead && success ==> consumed && gpu.log == old(gpu.log) + copies
      ensures !dead && success ==> Carries(copies, stream, dst, link.payload[old(link.consumed)..])
    {
      hide Valid, Open, Carries, Cuts;
      success, consumed, dead, copies := false, false, false, [];
      var p := OpenSpill(context, size, stream);
      if p.None? {
        return;
      }
      var copied, offset;
      dead, copied, offset, copies := SpillChunks(p.value, size, dst, stream);
      if dead {
        return;
      }
      if !copied {
        consumed := DrainRest(size - offset);
        dead := !consumed;
        return;
      }
      consumed := true;
      success := PublishSpill(p.value, size, offset, stream);
    }

    /** lupine_server_copy_htod_async: ring slots while there are any, then one spill for
        the rest. `usable` is whether a staging operation could be acquired. Unless the
        transport fails, the announced payload is consumed to the byte; on success the
        copies submitted carry it to `dst`. */
    method CopyHtodAsync(usable: bool, context: nat, dst: nat, stream: nat, budget: nat)
      returns (alive: bool, success: bool, ghost copies: seq<Job>)
      requires Valid() && link.consumed == 0
      modifies this`gpu, this`link, this`slots, this`spills
      ensures Valid() && link.payload == old(link.payload) && Later(old(link.feed), link.feed)
      ensures alive ==> link.consumed == |link.payload|
      ensures !alive ==> link.failed
      ensures alive && success ==> gpu.log == old(gpu.log) + copies && Carries(copies, stream, dst, link.payload)
      ensures alive && success ==> Delivers(copies, dst, link.payload)
      ensures alive && success ==> usable
    {
      hide Valid, Carries;
      hide Delivers;
      ghost var data := link.payload;
      var offset;
      alive, success, offset, copies := CopyBySlots(usable, context, dst, stream, budget);
      if !alive {
        return;
      }
      var remaining := |link.payload| - offset;
      if success && 0 < remaining {
        ghost var first := copies;
        var consumed, dead;
        success, consumed, dead, copies := EnqueueSpill(dst + offset, remaining, stream, context);
        if dead {
          return false, false, [];
        }
        if success {
          CarriesBoth(first, copies, stream, dst, data[..offset], data[offset..]);
          assert data[..offset] + data[offset..] == data;
          copies := first + copies;
        }
        if !consumed {
          alive := DrainRest(remaining);
        }
      } else if !success && offset == 0 {
        alive := DrainRest(|link.payload|);
      } else {
        assert success ==> data[..offset] == data;
      }
      if alive && success {
        CarriedIsDelivered(copies, stream, dst, data);
      }
    }

    // ------------------------------------------------------ synchronous copies

    /** The link moved on without touching the window's holds. */
    method MoveLink(m: Link)
      requires Valid() && ReadOn(link, m)
      modifies this`link
      ensures Valid() && link == m
    {
      hide Guarded;
      link := m;
    }

    method MovePool(h: Gpu, p: Pool)
      requires Valid() && h.Valid() && OnlyFor(gpu, h, POOL_KEY) && PoolOk(h, p)
      modifies this`gpu, this`pool
      ensures Valid() && gpu == h && pool == p
    {
      hide Ledger, Settled;
      Except(gpu, slots, spills, pool, retained, POOL_KEY);
      Frame(gpu, h, slots, spills, pool, retained, POOL_KEY);
      gpu, pool := h, p;
    }

    method MoveRetained(h: Gpu, r: Retained)
      requires Valid() && h.Valid() && OnlyFor(gpu, h, RETAINED_KEY) && RetainedOk(h, r)
      modifies this`gpu, this`retained
      ensures Valid() && gpu == h && retained == r
    {
      hide Ledger, Settled;
      Except(gpu, slots, spills, pool, retained, RETAINED_KEY);
      Frame(gpu, h, slots, spills, pool, retained, RETAINED_KEY);
      gpu, retained := h, r;
    }

    lemma Parts()
      requires Valid()
      ensures gpu.Valid() && PoolOk(gpu, pool) && RetainedOk(gpu, retained) && Quiet(link)
    {
      hide SlotOk, SpillOk;
    }

    /** The synchronous copy: the pipeline, or the serial path when it declines. Unless
        the transport fails, the payload is consumed to the byte; on success the copies
        carry it to `dst` and none of them is outstanding any more. */
    method CopyHtod(context: nat, dst: nat) returns (alive: bool, success: bool, declined: bool, ghost copies: seq<Job>)
      requires Valid() && link.consumed == 0
      modifies this`gpu, this`link, this`pool, this`retained
      ensures Valid() && link.payload == old(link.payload) && Later(old(link.feed), link.feed)
      ensures !alive ==> link.failed
      ensures alive ==> link.consumed == |link.payload|
      ensures alive && success ==> Staged(old(gpu.log), gpu.log, copies, LEGACY, dst, link.payload, 0, |link.payload|)
      ensures alive && success ==> Delivers(copies, dst, link.payload) && gpu.jobs <= old(gpu.jobs)
      ensures alive && declined && !success ==> link.payload != []
      ensures |link.payload| <= SLOT_BYTES ==> declined
    {
      hide Valid, ValidBut, Staged, OnlyFor, PoolOk, RetainedOk, Delivers;
      ghost var log := gpu.log;
      Parts();
      var route, mid, h, m, p, r;
      route, success, mid, h, m, p, r, copies := CopyPipelined(gpu, link, dst, pool, retained, context);
      MovePool(mid, p);
      MoveRetained(h, r);
      MoveLink(m);
      alive, declined := !route.TransportFailed?, route.Declined?;
      if declined {
        Parts();
        alive, success, h, m, r, copies := CopySerial(gpu, link, dst, |link.payload|, retained, context);
        MoveRetained(h, r);
        MoveLink(m);
      }
      if alive && success {
        StagedIsDelivered(log, gpu.log, copies, dst, link.payload);
      }
    }

    /** handle_manual_cuMemcpyHtoD_v2 up to its response. `usable` is whether the context
        and a staging operation were had. When the pipeline declined and the serial path met
        a CUDA error, that path has drained the payload, and the handler drains it again.
        The connection is left at the first byte after the payload if and only if that did
        not happen; when it did, the drain fails or takes bytes of what follows. A payload
        of at most a slot is always declined by the pipeline. */
    method HandleHtod(usable: bool, context: nat, dst: nat) returns (alive: bool, success: bool, declined: bool)
      requires Valid() && link.consumed == 0
      modifies this`gpu, this`link, this`pool, this`retained
      ensures Valid() && link.payload == old(link.payload)
      ensures !alive ==> link.failed
      ensures alive ==> link.consumed == |link.payload|
      ensures !link.failed ==> link.feed.unread == link.feed.tail
      ensures !link.failed ==> (link.feed.unread == old(link.feed.tail) <==> !(usable && declined && !success))
      ensures !link.failed && usable && declined && !success ==>
        && Skipped(link.feed.codec, link.feed.framed, old(link.feed.tail), |link.payload|) == Some(link.feed.unread)
        && |link.feed.unread| < |old(link.feed.tail)|
        && link.feed.unread == old(link.feed.tail)[|old(link.feed.tail)| - |link.feed.unread|..]
      ensures usable && |link.payload| <= SLOT_BYTES ==> declined
      ensures Same(old(link.feed), link.feed)
    {
      hide Valid, Staged, Delivers, Skipped;
      ghost var feed := link.feed;
      success, declined := false, true;
      if usable {
        ghost var copies;
        alive, success, declined, copies := CopyHtod(context, dst);
        if alive && declined && !success {
          alive := DrainAgain(|link.payload|);
          if alive {
            SkippedShrinks(feed.codec, feed.framed, feed.tail, |link.payload|);
          }
          return;
        }
      } else {
        alive := DrainRest(|link.payload|);
      }
      if !link.failed {
        AtTail();
      }
    }

    /** With the payload consumed, the connection stands at the tail. */
    lemma AtTail()
      requires Valid() && link.consumed == |link.payload| && !link.failed
      ensures link.feed.unread == link.feed.tail
    {
      hide Guarded, SlotOk, SpillOk;
      EncodedNothing(link.feed.codec, link.feed.framed, link.payload[link.consumed..]);
    }

    method DrainAgain(size: nat) returns (alive: bool)
      requires Valid() && link.consumed == |link.payload|
      modifies this`link
      ensures Valid() && link.payload == old(link.payload) && link.consumed == old(link.consumed)
      ensures Same(old(link.feed), link.feed)
      ensures alive ==> !link.failed && link.feed.unread == link.feed.tail
      ensures alive ==> Skipped(link.feed.codec, link.feed.framed, old(link.feed.tail), size) == Some(link.feed.unread)
      ensures !alive ==> link.failed
    {
      hide Guarded, SlotOk, SpillOk, Stands, Skipped;
      alive, link := Windows.DrainAgain(link, size);
    }

    // ---------------------------------------------- retiring and forgetting

    /** lupine_async_htod_retire_context, for one slot. What the context leaves behind
        may still be in use. */
    method RetireSlot(i: nat, context: nat)
      requires Valid() && i < SLOT_COUNT && context != 0
      modifies this`gpu, this`slots, this`link
      ensures Valid() && SameStream(old(link), link) && gpu.log == old(gpu.log)
      ensures |slots| == |old(slots)| && slots == old(slots)[i := slots[i]]
      ensures slots[i].state.Available? ==> slots[i].allocationContext != context && slots[i].eventContext != context
    {
      hide Guarded, Ledger, Settled;
      var s := slots[i];
      var allocationOwned, eventOwned := s.allocationContext == context, s.eventContext == context;
      if (!allocationOwned && !eventOwned) || s.state.Quarantined? {
        return;
      }
      if s.state.InFlight? {
        var r := ProbeSlot(i);
        if r.NotReady? {
          return;
        }
        if !r.Success? {
          SettleSlot(i, s.(state := Quarantined, held := 0));
          return;
        }
        SettleSlot(i, s.(state := Available, held := 0));
      }
      if allocationOwned {
        ResetSlot(i);
      } else {
        DropEvent(i);
      }
    }

    /** Only the event belonged to the context that goes away. */
    method DropEvent(i: nat)
      requires Valid() && i < SLOT_COUNT && slots[i].state.Available?
      modifies this`gpu, this`slots
      ensures Valid() && gpu.log == old(gpu.log)
      ensures slots == old(slots)[i := old(slots[i]).(completion := None, eventContext := 0)]
    {
      hide Ledger;
      assert SlotOk(gpu, i, slots[i]);
      var h := DestroyRecordEvent(gpu, slots[i].completion);
      ReplaceIdle(i, h, slots[i].(completion := None, eventContext := 0));
    }

    /** The same for one spill. */
    method RetireSpillOf(k: nat, context: nat) returns (erased: bool)
      requires Valid() && k < |spills|
      modifies this`gpu, this`spills, this`link
      ensures Valid() && SameStream(old(link), link) && gpu.log == old(gpu.log)
      ensures erased ==> spills == Without(old(spills), k)
      ensures !erased ==> |spills| == |old(spills)| && spills == old(spills)[k := spills[k]]
      ensures !erased ==>
        spills[k].queued || (spills[k].allocationContext != context && spills[k].eventContext != context)
    {
      hide Ledger, Settled;
      erased := false;
      var s := spills[k];
      if (s.allocationContext != context && s.eventContext != context) || (s.queued && !s.recorded) {
        return;
      }
      assert SpillOk(gpu, s);
      Except(gpu, slots, spills, pool, retained, s.key);
      SettledExcept(link, slots, spills, s.key);
      if s.queued {
        var r := ProbeSpill(k);
        if r.NotReady? {
          return;
        }
        if !r.Success? {
          SettleSpill(k, s.(recorded := false, held := 0));
          return;
        }
      }
      RetireSpill(k);
      erased := true;
    }

    /** lupine_async_htod_retire_context. */
    method RetireContext(context: nat)
      requires Valid()
      modifies this`gpu, this`slots, this`spills, this`link, this`pool, this`retained
      ensures Valid() && SameStream(old(link), link) && gpu.log == old(gpu.log)
      ensures context != 0 ==> pool.context != context && retained.context != context
      ensures context != 0 ==>
        forall i: nat :: i < |slots| && slots[i].state.Available? ==>
          slots[i].allocationContext != context && slots[i].eventContext != context
      ensures context != 0 ==>
        forall k: nat :: k < |spills| ==>
          spills[k].queued || (spills[k].allocationContext != context && spills[k].eventContext != context)
    {
      hide ValidBut, PoolOk, RetainedOk, OnlyFor;
      if context == 0 {
        return;
      }
      SlotsCounted();
      for i := 0 to SLOT_COUNT
        invariant Valid() && SameStream(old(link), link) && gpu.log == old(gpu.log) && |slots| == SLOT_COUNT
        invariant forall j: nat :: j < i && slots[j].state.Available? ==>
          slots[j].allocationContext != context && slots[j].eventContext != context
      {
        RetireSlot(i, context);
      }
      var k: nat := 0;
      ghost var kept := slots;
      while k < |spills|
        invariant Valid() && SameStream(old(link), link) && gpu.log == old(gpu.log) && slots == kept && k <= |spills|
        invariant forall j: nat :: j < k ==>
          spills[j].queued || (spills[j].allocationContext != context && spills[j].eventContext != context)
        decreases |spills| - k
      {
        var erased := RetireSpillOf(k, context);
        if !erased {
          k := k + 1;
        }
      }
      RetireSynchronous(retained.context == context, pool.context == context);
    }

    lemma SlotsCounted()
      requires Valid()
      ensures |slots| == SLOT_COUNT
    {
    }

    /** Free the synchronous staging, which is idle between copies unless disabled. */
    method RetireSynchronous(dropRetained: bool, dropPool: bool)
      requires Valid()
      modifies this`gpu, this`pool, this`retained
      ensures Valid() && gpu.log == old(gpu.log)
      ensures retained == if dropRetained then NothingRetained else old(retained)
      ensures pool == if dropPool then EmptyPool else old(pool)
    {
      hide Valid, ValidBut, PoolOk, RetainedOk, OnlyFor;
      if dropRetained {
        Parts();
        var h, r := DropRetained(gpu, retained);
        MoveRetained(h, r);
      }
      if dropPool {
        Parts();
        var h, p := RetirePool(gpu, pool);
        MovePool(h, p);
      }
    }

    /** lupine_async_htod_forget_context: credit what the context's records held and drop
        them, without freeing anything. */
    method ForgetContext(context: nat)
      requires Valid()
      modifies this`slots, this`spills, this`link, this`pool, this`retained
      ensures Valid() && SameStream(old(link), link)
      ensures forall i: nat :: i < |slots| ==>
        slots[i] == EmptySlot || (slots[i].allocationContext != context && slots[i].eventContext != context)
      ensures forall k: nat :: k < |spills| ==>
        spills[k].allocationContext != context && spills[k].eventContext != context
      ensures pool == (if old(pool).context == context then EmptyPool else old(pool))
      ensures retained == (if old(retained).context == context then NothingRetained else old(retained))
    {
      hide Guarded, Ledger, Settled;
      for i := 0 to SLOT_COUNT
        invariant Valid() && SameStream(old(link), link)
        invariant pool == old(pool) && retained == old(retained)
        invariant forall k: nat :: k < i ==>
          slots[k] == EmptySlot || (slots[k].allocationContext != context && slots[k].eventContext != context)
      {
        if slots[i].allocationContext == context || slots[i].eventContext == context {
          ForgetSlot(i);
        }
      }
      var k := 0;
      ghost var kept := slots;
      while k < |spills|
        invariant Valid() && SameStream(old(link), link) && k <= |spills| && slots == kept
        invariant pool == old(pool) && retained == old(retained)
        invariant forall n: nat :: n < k ==> spills[n].allocationContext != context && spills[n].eventContext != context
        decreases |spills| - k
      {
        if spills[k].allocationContext == context || spills[k].eventContext == context {
          ForgetSpill(k);
        } else {
          k := k + 1;
        }
      }
      ForgetSynchronous(retained.context == context, pool.context == context);
    }

    method ForgetSlot(i: nat)
      requires Valid() && i < SLOT_COUNT
      modifies this`slots, this`link
      ensures Valid() && SameStream(old(link), link) && slots == old(slots)[i := EmptySlot]
    {
      hide Ledger;
      Except(gpu, slots, spills, pool, retained, i);
      SettledExcept(link, slots, spills, i);
      SettleSlot(i, EmptySlot);
    }

    method ForgetSpill(k: nat)
      requires Valid() && k < |spills|
      modifies this`spills, this`link
      ensures Valid() && SameStream(old(link), link) && spills == Without(old(spills), k)
    {
      hide Ledger;
      Except(gpu, slots, spills, pool, retained, spills[k].key);
      SettledExcept(link, slots, spills, spills[k].key);
      EraseSpill(k);
    }

    method ForgetSynchronous(dropRetained: bool, dropPool: bool)
      requires Valid()
      modifies this`pool, this`retained
      ensures Valid()
      ensures retained == if dropRetained then NothingRetained else old(retained)
      ensures pool == if dropPool then EmptyPool else old(pool)
    {
      hide Ledger, Settled;
      if dropRetained {
        retained := NothingRetained;
      }
      if dropPool {
        pool := EmptyPool;
      }
    }

    // ----------------------------------------------------------- connection end

    /** lupine_server_cleanup_connection, once the transport is gone: free what is known
        to be idle and leave the rest to CUDA. */
    method Cleanup()
      requires Valid() && link.failed
      modifies this`gpu, this`slots, this`spills, this`pool, this`retained
      ensures Valid() && gpu.log == old(gpu.log) && |slots| == |old(slots)| && |spills| == |old(spills)|
      ensures forall i: nat :: i < |slots| && old(slots)[i].state.Available? ==> slots[i].ptr.None?
      ensures forall k: nat :: k < |spills| && !old(spills)[k].queued ==> spills[k].ptr.None?
      ensures pool == EmptyPool && retained.ptr.None?
    {
      hide ValidBut, PoolOk, RetainedOk, OnlyFor;
      SlotsCounted();
      for i := 0 to SLOT_COUNT
        invariant Valid() && gpu.log == old(gpu.log) && spills == old(spills) && |slots| == |old(slots)| == SLOT_COUNT
        invariant forall j: nat :: i <= j < SLOT_COUNT ==> slots[j] == old(slots)[j]
        invariant forall j: nat :: j < i && old(slots)[j].state.Available? ==> slots[j].ptr.None?
      {
        CleanSlot(i);
      }
      ghost var kept := slots;
      for k := 0 to |spills|
        invariant Valid() && gpu.log == old(gpu.log) && |spills| == |old(spills)| && slots == kept
        invariant forall j: nat :: k <= j < |spills| ==> spills[j] == old(spills)[j]
        invariant forall j: nat :: j < k && !old(spills)[j].queued ==> spills[j].ptr.None?
      {
        CleanSpill(k);
      }
      RetireSynchronous(retained.ptr.Some?, true);
    }

    method CleanSlot(i: nat)
      requires Valid() && link.failed && i < SLOT_COUNT
      modifies this`gpu, this`slots
      ensures Valid() && gpu.log == old(gpu.log)
      ensures |slots| == |old(slots)| && slots == old(slots)[i := slots[i]]
      ensures old(slots[i]).state.Available? ==> slots[i].ptr.None?
    {
      var s := slots[i];
      var complete := s.state.Available?;
      assert SlotOk(gpu, i, s);
      if s.state.InFlight? {
        var r := ProbeSlot(i);
        complete := r.Success?;
      }
      if complete {
        ghost var g := gpu;
        gpu := FreeRecord(gpu, i, s.ptr, s.completion);
        s := s.(ptr := None, completion := None, state := Available);
        Except(g, slots, spills, pool, retained, i);
        ReplaceSlot(g, gpu, slots, spills, pool, retained, i, s);
        slots := slots[i := s];
      }
    }

    method CleanSpill(k: nat)
      requires Valid() && link.failed && k < |spills|
      modifies this`gpu, this`spills
      ensures Valid() && gpu.log == old(gpu.log) && |spills| == |old(spills)| && spills == old(spills)[k := spills[k]]
      ensures !old(spills[k]).queued ==> spills[k].ptr.None?
    {
      var s := spills[k];
      var complete := !s.queued;
      assert SpillOk(gpu, s);
      if s.recorded {
        var r := ProbeSpill(k);
        complete := r.Success?;
      }
      if complete {
        ghost var g := gpu;
        gpu := FreeRecord(gpu, s.key, s.ptr, s.completion);
        s := s.(ptr := None, completion := None, recorded := false);
        Except(g, slots, spills, pool, retained, s.key);
        ReplaceSpill(g, gpu, slots, spills, pool, retained, k, s);
        spills := spills[k := s];
      }
    }
  }

  lemma ReplaceSlot(g: Gpu, h: Gpu, slots: seq<Slot>,
      spills: seq<Spill>, pool: Pool, retained: Retained, i: nat, s: Slot)
    requires g.Valid() && OnlyFor(g, h, i) && i < SLOT_COUNT && SlotOk(h, i, s)
    requires Claims(g, slots, spills, pool, retained, i)
    ensures Claims(h, slots[i := s], spills, pool, retained, NOBODY)
  {
    Frame(g, h, slots, spills, pool, retained, i);
    hide SlotOk, PoolOk, RetainedOk, SpillOk;
  }

  lemma ReplaceSpill(g: Gpu, h: Gpu, slots: seq<Slot>,
      spills: seq<Spill>, pool: Pool, retained: Retained, k: nat, s: Spill)
    requires k < |spills| && s.key == spills[k].key && g.Valid() && OnlyFor(g, h, s.key) && SpillOk(h, s)
    requires Claims(g, slots, spills, pool, retained, s.key)
    ensures Claims(h, slots, spills[k := s], pool, retained, NOBODY)
  {
    Frame(g, h, slots, spills, pool, retained, s.key);
    hide SlotOk, PoolOk, RetainedOk, SpillOk;
  }

  /** Charging bytes to slot `i` leaves the others settled. */
  lemma SettledHeld(l: Link, m: Link, slots: seq<Slot>, spills: seq<Spill>, i: nat, s: Slot)
    requires i < |slots| == SLOT_COUNT && Settled(l, slots, spills, i) && (l.failed ==> m.failed)
    ensures Settled(m, slots[i := s], spills, i)
    ensures m.failed ==> Settled(m, slots[i := s], spills, NOBODY)
  {
  }

  lemma LedgerSame(l: Link, slots: seq<Slot>, spills: seq<Spill>, i: nat, s: Slot)
    requires i < |slots| == SLOT_COUNT && Ledger(l, slots, spills) && Settled(l, slots, spills, i)
    requires s.held == slots[i].held && s.state.InFlight?
    requires forall k: nat :: k < |spills| ==> SPILL_KEY <= spills[k].key
    ensures Ledger(l, slots[i := s], spills) && Settled(l, slots[i := s], spills, NOBODY)
  {
    SlotsHeldUpdate(slots, i, s);
  }

  /** A spill that is in flight may withhold credit. */
  lemma SpillRecorded(l: Link, slots: seq<Slot>, spills: seq<Spill>, k: nat, s: Spill)
    requires k < |spills| && |slots| == SLOT_COUNT && Ledger(l, slots, spills) && Settled(l, slots, spills, s.key)
    requires s.key == spills[k].key && s.held == spills[k].held && s.recorded
    requires forall m: nat :: m < |spills| ==> SPILL_KEY <= spills[m].key
    requires forall m: nat :: m < |spills| && m != k ==> spills[m].key != s.key
    ensures Ledger(l, slots, spills[k := s]) && Settled(l, slots, spills[k := s], NOBODY)
  {
    SpillsHeldUpdate(spills, k, s);
  }

  lemma SpillAppended(g: Gpu, l: Link, slots: seq<Slot>, spills: seq<Spill>, pool: Pool, retained: Retained, s: Spill)
    requires Claims(g, slots, spills, pool, retained, NOBODY) && SpillOk(g, s) && s.held == 0
    requires forall k: nat :: k < |spills| ==> spills[k].key < s.key
    requires Ledger(l, slots, spills) && Settled(l, slots, spills, NOBODY)
    ensures Claims(g, slots, spills + [s], pool, retained, NOBODY)
    ensures Ledger(l, slots, spills + [s]) && Settled(l, slots, spills + [s], NOBODY)
  {
    LedgerAppended(l, slots, spills, s);
    assert SPILL_KEY <= s.key;
    hide SlotOk, PoolOk, RetainedOk, SpillOk, Ledger, Settled;
  }

  lemma LedgerAppended(l: Link, slots: seq<Slot>, spills: seq<Spill>, s: Spill)
    requires Ledger(l, slots, spills) && Settled(l, slots, spills, NOBODY) && s.held == 0
    ensures Ledger(l, slots, spills + [s]) && Settled(l, slots, spills + [s], NOBODY)
  {
    SpillsHeldAppend(spills, s);
    hide Stands;
  }

  /** The window withholds `bytes` more than it did. */
  ghost predicate Charged(l: Link, m: Link, bytes: int) {
    m.Conserved() && !m.hold && m.holdBytes == 0 && (l.failed ==> m.failed) && m.windowHeld == l.windowHeld + bytes
  }

  /** Changing the open spill's record, which claims nothing yet. */
  lemma SpillCharged(g: Gpu, l: Link, m: Link, slots: seq<Slot>,
      spills: seq<Spill>, pool: Pool, retained: Retained, k: nat, s: Spill)
    requires k < |spills| && s.key == spills[k].key
    requires Claims(g, slots, spills, pool, retained, s.key)
    requires Settled(l, slots, spills, s.key) && (l.failed ==> m.failed)
    ensures Claims(g, slots, spills[k := s], pool, retained, s.key)
    ensures Settled(m, slots, spills[k := s], s.key)
    ensures Ledger(l, slots, spills) && Charged(l, m, s.held - spills[k].held) ==> Ledger(m, slots, spills[k := s])
  {
    SpillsHeldUpdate(spills, k, s);
    hide SlotOk, PoolOk, RetainedOk, SpillOk;
  }

  lemma LinkOpen(l: Link, slots: seq<Slot>, spills: seq<Spill>)
    requires Ledger(l, slots, spills)
    ensures l.Conserved() && !l.hold && l.holdBytes == 0
  {
  }

  lemma CarriesNext(copies: seq<Job>, stream: nat, dst: nat, data: seq<byte>, offset: nat, chunk: nat, job: Job)
    requires offset + chunk <= |data| && Carries(copies, stream, dst, data[..offset])
    requires job.stream == stream && job.dst == dst + offset && job.data == data[offset..offset + chunk]
    ensures Carries(copies + [job], stream, dst, data[..offset + chunk])
  {
    CarriesMore(copies, stream, dst, data[..offset], job);
    assert data[..offset] + job.data == data[..offset + chunk];
  }

  lemma StagedIsDelivered(before: seq<Job>, log: seq<Job>, copies: seq<Job>, dst: nat, data: seq<byte>)
    requires Staged(before, log, copies, LEGACY, dst, data, 0, |data|)
    ensures Delivers(copies, dst, data)
  {
    assert data[0..|data|] == data;
    CarriedIsDelivered(copies, LEGACY, dst, data);
  }

  lemma CarriesNothing(stream: nat, dst: nat)
    ensures Carries([], stream, dst, [])
  {
  }

  /** A slot's worth of payload ends on a block boundary. */
  lemma SlotCuts(l: Link)
    requires l.consumed <= |l.payload|
    ensures Cuts(l, Min(SLOT_BYTES, |l.payload| - l.consumed))
    ensures Cuts(l, Min(CHUNK_BYTES, |l.payload| - l.consumed))
  {
    WholeIsMultiple(SLOT_BYTES);
    WholeIsMultiple(CHUNK_BYTES);
  }

  lemma WholeMore(offset: nat, chunk: nat)
    requires Whole(offset)
    ensures chunk == SLOT_BYTES ==> Whole(offset + chunk)
  {
    WholeIsMultiple(offset);
    WholeIsMultiple(offset + SLOT_BYTES);
  }

  lemma SettledExcept(l: Link, slots: seq<Slot>, spills: seq<Spill>, key: nat)
    requires |slots| == SLOT_COUNT && Settled(l, slots, spills, NOBODY)
    requires forall k: nat :: k < |spills| ==> SPILL_KEY <= spills[k].key
    ensures Settled(l, slots, spills, key)
  {
  }
}
