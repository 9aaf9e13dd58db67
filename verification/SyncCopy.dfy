/** Synchronous host-to-device copies: a serial path through one staging buffer, and a
    pipeline of two pinned slots that overlaps receipt with the copies. */
module SyncCopy {
  import opened Payload
  import opened Cuda
  import opened Windows

  const SLOT_BYTES: nat := 8388608      // 8 MiB
  const CHUNK_BYTES: nat := 67108864    // 64 MiB
  const RETAIN_BYTES: nat := 8388608
  const POOL_COUNT: nat := 2

  // The keys under which the pool's and the serial path's handles are owned.
  const POOL_KEY: nat := 4
  const RETAINED_KEY: nat := 5

  /** lupine_sync_htod_pool. */
  datatype Pool = Pool(slots: seq<Option<nat>>, context: nat, disabled: bool)

  /** lupine_retained_staging. */
  datatype Retained = Retained(ptr: Option<nat>, size: nat, context: nat)

  const EmptyPool := Pool([None, None], 0, false)
  const NothingRetained := Retained(None, 0, 0)

  ghost predicate PoolSlotOk(g: Gpu, ptr: Option<nat>, guard: Guard) {
    Guarded(g, POOL_KEY, ptr, None, guard) && (ptr.Some? ==> |g.buffers[ptr.value]| == SLOT_BYTES)
  }

  /** A pool that is not disabled is idle. */
  ghost predicate PoolOk(g: Gpu, pool: Pool) {
    && |pool.slots| == POOL_COUNT
    && (pool.slots[0].Some? ==> pool.slots[0] != pool.slots[1])
    && forall i: nat :: i < POOL_COUNT ==> PoolSlotOk(g, pool.slots[i], if pool.disabled then Unknown else Free)
  }

  ghost predicate RetainedOk(g: Gpu, r: Retained) {
    Guarded(g, RETAINED_KEY, r.ptr, None, Free) &&
      (if r.ptr.Some? then |g.buffers[r.ptr.value]| == r.size else r.size == 0)
  }

  // ------------------------------------------------------------------- the pool

  /** Free one slot of an idle pool. */
  method FreePoolSlot(g: Gpu, pool: Pool, i: nat) returns (h: Gpu, p: Pool)
    requires g.Valid() && PoolOk(g, pool) && !pool.disabled && i < POOL_COUNT
    ensures h.jobs <= g.jobs
    ensures h.Valid() && OnlyFor(g, h, POOL_KEY) && h.log == g.log
    ensures p == pool.(slots := pool.slots[i := None]) && PoolOk(h, p)
  {
    h := g;
    p := pool.(slots := pool.slots[i := None]);
    assert PoolSlotOk(g, pool.slots[i], Free);
    if pool.slots[i].Some? {
      var ok;
      ok, h := FreeHost(g, pool.slots[i].value);
    }
    forall j: nat | j < POOL_COUNT
      ensures PoolSlotOk(h, p.slots[j], Free)
    {
      assert PoolSlotOk(g, pool.slots[j], Free);
    }
  }

  /** lupine_sync_htod_retire: a disabled pool is forgotten, not freed. */
  method RetirePool(g: Gpu, pool: Pool) returns (h: Gpu, p: Pool)
    requires g.Valid() && PoolOk(g, pool)
    ensures h.jobs <= g.jobs
    ensures h.Valid() && OnlyFor(g, h, POOL_KEY) && h.log == g.log
    ensures p == EmptyPool && PoolOk(h, p)
    ensures pool.disabled ==> h == g
  {
    h, p := g, EmptyPool;
    ProgressOnly(g, g, POOL_KEY);
    var current: bool := *;
    if pool.context == 0 || pool.disabled || !current {
      return;
    }
    ghost var mid;
    h, p := FreePoolSlot(h, pool, 0);
    mid := h;
    h, p := FreePoolSlot(h, p, 1);
    OnlyForTwice(g, mid, h, POOL_KEY);
    p := EmptyPool;
  }

  /** The scan of lupine_sync_htod_prepare for slots that CUDA no longer knows. */
  method SlotsKnown(pool: Pool) returns (known: bool)
  {
    known := true;
    for i := 0 to |pool.slots| {
      var ok: bool := *;
      if pool.slots[i].Some? && !ok {
        known := false;
        return;
      }
    }
  }

  method AllocatePoolSlot(g: Gpu, pool: Pool, i: nat) returns (ok: bool, h: Gpu, p: Pool)
    requires g.Valid() && PoolOk(g, pool) && !pool.disabled && i < POOL_COUNT
    ensures h.jobs <= g.jobs
    ensures h.Valid() && OnlyFor(g, h, POOL_KEY) && h.log == g.log
    ensures PoolOk(h, p) && p == pool.(slots := p.slots)
    ensures ok ==> p.slots[i].Some?
    ensures forall j: nat :: j < POOL_COUNT && pool.slots[j].Some? ==> p.slots[j] == pool.slots[j]
  {
    ok, h, p := true, g, pool;
    if pool.slots[i].Some? {
      ProgressOnly(g, g, POOL_KEY);
      return;
    }
    var ptr;
    ptr, h := HostAlloc(g, POOL_KEY, SLOT_BYTES);
    ok := ptr.Some?;
    p := pool.(slots := pool.slots[i := ptr]);
    forall j: nat | j < POOL_COUNT
      ensures PoolSlotOk(h, p.slots[j], Free)
    {
      assert PoolSlotOk(g, pool.slots[j], Free);
    }
    assert PoolSlotOk(g, pool.slots[1 - i], Free);
  }

  /** lupine_sync_htod_prepare. */
  method PreparePool(g: Gpu, pool: Pool, context: nat) returns (ok: bool, h: Gpu, p: Pool)
    requires g.Valid() && PoolOk(g, pool)
    ensures h.jobs <= g.jobs
    ensures h.Valid() && OnlyFor(g, h, POOL_KEY) && h.log == g.log && PoolOk(h, p)
    ensures ok ==> !p.disabled && p.context == context && p.slots[0].Some? && p.slots[1].Some?
    ensures pool.disabled ==> !ok && h == g && p == pool
  {
    hide PoolOk;
    ok, h, p := false, g, pool;
    ProgressOnly(g, g, POOL_KEY);
    if pool.disabled || context == 0 {
      return;
    }
    if pool.context != context {
      h, p := RetirePool(g, pool);
      p := PoolFor(h, p, context);
    }
    var known := SlotsKnown(p);
    if !known {
      p := PoolFor(h, EmptyPool, context);
    }
    ghost var first := h;
    ok, h, p := AllocatePoolSlot(h, p, 0);
    OnlyForTwice(g, first, h, POOL_KEY);
    if ok {
      ghost var second := h;
      ok, h, p := AllocatePoolSlot(h, p, 1);
      OnlyForTwice(g, second, h, POOL_KEY);
    }
  }

  /** An empty pool, bound to a context. */
  method PoolFor(ghost g: Gpu, pool: Pool, context: nat) returns (p: Pool)
    requires pool == EmptyPool
    ensures p == EmptyPool.(context := context) && PoolOk(g, p)
  {
    p := pool.(context := context);
  }

  // ------------------------------------------------------------ the serial path

  /** The link is between payload reads. */
  ghost predicate Quiet(l: Link) { l.Conserved() && !l.hold }

  /** Reading on leaves the window's holds alone. */
  ghost predicate ReadOn(l: Link, m: Link) {
    && Quiet(m) && m.payload == l.payload && m.windowHeld == l.windowHeld && m.holdBytes == l.holdBytes
    && (l.failed ==> m.failed) && Later(l.feed, m.feed)
  }

  /** lupine_acquire_staging. `current` is the current context, 0 when there is none. */
  method AcquireStaging(g: Gpu, size: nat, retained: Retained, current: nat)
    returns (ptr: Option<nat>, owned: bool, h: Gpu, r: Retained)
    requires g.Valid() && RetainedOk(g, retained)
    ensures h.jobs <= g.jobs
    ensures h.Valid() && OnlyFor(g, h, RETAINED_KEY) && h.log == g.log && RetainedOk(h, r)
    ensures ptr.Some? ==> Guarded(h, RETAINED_KEY, ptr, None, Free) && size <= |h.buffers[ptr.value]|
    ensures ptr.Some? ==> if owned then ptr != r.ptr else ptr == r.ptr && r.context == current
  {
    ptr, owned, h, r := None, false, g, retained;
    ProgressOnly(g, g, RETAINED_KEY);
    if size == 0 {
      return;
    }
    if RETAIN_BYTES < size {
      ptr, h := HostAlloc(g, RETAINED_KEY, size);
      owned := ptr.Some?;
      return;
    }
    if current == 0 {
      return;
    }
    if r.context != current && r.ptr.Some? {
      h, r := DropRetained(h, r);
    }
    if r.size < size {
      var grown;
      ghost var mid := h;
      grown, h, r := GrowRetained(h, r, size, current);
      OnlyForTwice(g, mid, h, RETAINED_KEY);
      if !grown {
        return;
      }
    }
    ptr := r.ptr;
  }

  /** Free the retained buffer, as far as CUDA lets us, and forget it. */
  method DropRetained(g: Gpu, retained: Retained) returns (h: Gpu, r: Retained)
    requires g.Valid() && RetainedOk(g, retained)
    ensures h.Valid() && OnlyFor(g, h, RETAINED_KEY) && h.log == g.log && r == NothingRetained && RetainedOk(h, r)
    ensures h.jobs <= g.jobs && h.owner == g.owner
    ensures forall x :: x in g.buffers && Some(x) != retained.ptr ==> x in h.buffers && h.buffers[x] == g.buffers[x]
  {
    h, r := g, NothingRetained;
    var current: bool := *;
    if retained.ptr.Some? && current {
      var ok;
      ok, h := FreeHost(g, retained.ptr.value);
    }
  }

  method GrowRetained(g: Gpu, retained: Retained, size: nat, current: nat) returns (ok: bool, h: Gpu, r: Retained)
    requires g.Valid() && RetainedOk(g, retained)
    ensures h.jobs <= g.jobs
    ensures h.Valid() && OnlyFor(g, h, RETAINED_KEY) && h.log == g.log && RetainedOk(h, r)
    ensures ok ==> r.ptr.Some? && r.size == size && r.context == current
  {
    var grown;
    r := retained;
    grown, h := HostAlloc(g, RETAINED_KEY, size);
    ok := grown.Some?;
    if ok {
      ghost var mid := h;
      assert RetainedOk(mid, retained);
      h, r := DropRetained(h, r);
      OnlyForTwice(g, mid, h, RETAINED_KEY);
      r := Retained(grown, size, current);
    }
  }

  /** lupine_release_staging. */
  method ReleaseStaging(g: Gpu, ptr: Option<nat>, owned: bool, ghost retained: Retained) returns (h: Gpu)
    requires g.Valid() && RetainedOk(g, retained) && Guarded(g, RETAINED_KEY, ptr, None, Free)
    requires owned ==> ptr != retained.ptr
    ensures h.jobs <= g.jobs
    ensures h.Valid() && OnlyFor(g, h, RETAINED_KEY) && h.log == g.log && RetainedOk(h, retained)
  {
    h := g;
    if ptr.Some? && owned {
      var ok;
      ok, h := FreeHost(g, ptr.value);
    }
  }

  /** One turn of the serial loop: read a part and copy it before the next one. */
  method SerialChunk(g: Gpu, l: Link, ptr: nat, size: nat, dst: nat)
    returns (alive: bool, success: bool, h: Gpu, m: Link, ghost job: Job)
    requires g.Valid() && Quiet(l) && Cuts(l, size)
    requires Guarded(g, RETAINED_KEY, Some(ptr), None, Free) && size <= |g.buffers[ptr]|
    ensures h.Valid() && OnlyFor(g, h, RETAINED_KEY) && ReadOn(l, m)
    ensures Guarded(h, RETAINED_KEY, Some(ptr), None, Free) && |h.buffers[ptr]| == |g.buffers[ptr]|
    ensures h.jobs <= g.jobs && (forall x :: x in g.buffers ==> x in h.buffers && |h.buffers[x]| == |g.buffers[x]|)
    ensures !alive ==> m.failed && h.log == g.log
    ensures alive ==> m.consumed == l.consumed + size && h.log == g.log + [job]
    ensures alive ==> job.stream == LEGACY && job.dst == dst && job.data == l.payload[l.consumed..m.consumed]
  {
    success, job := false, Job(0, 0, 0, 0, 0, []);
    var data;
    alive, data, m := ReadPart(l, size);
    h := WriteHost(g, ptr, 0, data);
    if alive {
      success, h, job := CopySync(h, ptr, size, dst);
    }
  }

  lemma ChunkCuts(l: Link, rest: nat)
    requires l.consumed + rest == |l.payload|
    ensures Cuts(l, rest) && Cuts(l, Min(SLOT_BYTES, rest)) && Cuts(l, Min(CHUNK_BYTES, rest))
  {
    WholeIsMultiple(SLOT_BYTES);
    WholeIsMultiple(CHUNK_BYTES);
  }

  /** The serial loop, on a staging buffer. It stops at the end or after a failed copy,
      having drained the rest. */
  method SerialChunks(g: Gpu, l: Link, ptr: nat, chunkBytes: nat, size: nat, dst: nat, ghost retained: Retained)
    returns (alive: bool, success: bool, h: Gpu, m: Link, ghost copies: seq<Job>)
    requires g.Valid() && Quiet(l) && l.consumed + size == |l.payload| && RetainedOk(g, retained)
    requires chunkBytes == Min(CHUNK_BYTES, size)
    requires Guarded(g, RETAINED_KEY, Some(ptr), None, Free) && chunkBytes <= |g.buffers[ptr]|
    ensures h.jobs <= g.jobs
    ensures h.Valid() && OnlyFor(g, h, RETAINED_KEY) && ReadOn(l, m) && RetainedOk(h, retained)
    ensures Guarded(h, RETAINED_KEY, Some(ptr), None, Free)
    ensures alive && !success ==> 0 < size
    ensures !alive ==> m.failed
    ensures alive ==> m.consumed == |l.payload|
    ensures alive && success ==> Staged(g.log, h.log, copies, LEGACY, dst, l.payload, l.consumed, |l.payload|)
  {
    hide Staged, OnlyFor, Cuts, Carries, Quiet;
    alive, success, h, m, copies := true, true, g, l, [];
    ProgressOnly(g, g, RETAINED_KEY);
    StagedNothing(g.log, LEGACY, dst, l.payload, l.consumed);
    var offset := 0;
    while success && offset < size
      invariant alive && h.Valid() && OnlyFor(g, h, RETAINED_KEY)
      invariant ReadOn(l, m) && RetainedOk(h, retained) && h.jobs <= g.jobs
      invariant Guarded(h, RETAINED_KEY, Some(ptr), None, Free) && chunkBytes <= |h.buffers[ptr]|
      invariant offset <= size && (success ==> m.consumed == l.consumed + offset)
      invariant (!success ==> m.consumed == |l.payload|)
      invariant success ==> Staged(g.log, h.log, copies, LEGACY, dst, l.payload, l.consumed, m.consumed)
      decreases size - offset, success
    {
      var chunk := Min(chunkBytes, size - offset);
      assert chunk == Min(CHUNK_BYTES, size - offset);
      ChunkCuts(m, size - offset);
      ghost var before, was, job := h, m.consumed, *;
      alive, success, h, m, job := SerialChunk(h, m, ptr, chunk, dst + offset);
      OnlyForTwice(g, before, h, RETAINED_KEY);
      RetainedKept(before, h, retained);
      if !alive {
        return;
      }
      StagedMore(g.log, before.log, copies, LEGACY, dst, l.payload, l.consumed, was, chunk, job);
      copies := copies + [job];
      offset := offset + chunk;
      if !success {
        alive, m := DrainOn(l, m, size - offset);
        return;
      }
    }
  }

  /** Draining what is left of the payload. */
  method DrainOn(ghost l: Link, m: Link, rest: nat) returns (alive: bool, n: Link)
    requires ReadOn(l, m) && m.consumed + rest == |m.payload|
    ensures ReadOn(l, n) && (if alive then n.consumed == |l.payload| else n.failed)
  {
    hide Stands, Cuts;
    ChunkCuts(m, rest);
    alive, n := Drain(m, rest);
  }

  lemma RetainedKept(g: Gpu, h: Gpu, r: Retained)
    requires g.Valid() && RetainedOk(g, r) && h.jobs <= g.jobs && OnlyFor(g, h, RETAINED_KEY)
    requires forall x :: x in g.buffers ==> x in h.buffers && |h.buffers[x]| == |g.buffers[x]|
    ensures RetainedOk(h, r)
  {
  }

  /** lupine_copy_htod_serial, for the `size` bytes of the payload still to come. Unless
      the transport fails it consumes them all; on success it has copied them to `dst`. */
  method CopySerial(g: Gpu, l: Link, dst: nat, size: nat, retained: Retained, current: nat)
    returns (alive: bool, success: bool, h: Gpu, m: Link, r: Retained, ghost copies: seq<Job>)
    requires g.Valid() && Quiet(l) && l.consumed + size == |l.payload| && RetainedOk(g, retained)
    ensures h.jobs <= g.jobs
    ensures h.Valid() && OnlyFor(g, h, RETAINED_KEY) && ReadOn(l, m) && RetainedOk(h, r)
    ensures alive && !success ==> 0 < size
    ensures !alive ==> m.failed
    ensures alive ==> m.consumed == |l.payload|
    ensures alive && success ==> Staged(g.log, h.log, copies, LEGACY, dst, l.payload, l.consumed, |l.payload|)
  {
    hide Staged, OnlyFor, Cuts, RetainedOk, Carries;
    alive, success, m, copies := true, true, l, [];
    var chunkBytes := Min(CHUNK_BYTES, size);
    var ptr, owned;
    ptr, owned, h, r := AcquireStaging(g, chunkBytes, retained, current);
    if ptr.None? {
      if chunkBytes != 0 {
        success := false;
        ChunkCuts(l, size);
        alive, m := Drain(l, size);
      } else {
        StagedNothing(h.log, LEGACY, dst, l.payload, l.consumed);
      }
      return;
    }
    ghost var mid := h;
    alive, success, h, m, copies := SerialChunks(h, m, ptr.value, chunkBytes, size, dst, r);
    OnlyForTwice(g, mid, h, RETAINED_KEY);
    mid := h;
    h := ReleaseStaging(h, ptr, owned, r);
    OnlyForTwice(g, mid, h, RETAINED_KEY);
  }

  // --------------------------------------------------------------- the pipeline

  /** One slot of the pipeline and its event. */
  ghost predicate Lane(g: Gpu, ptr: Option<nat>, event: nat, inFlight: bool) {
    && ptr.Some? && Guarded(g, POOL_KEY, ptr, Some(event), if inFlight then Flying else Free)
    && |g.buffers[ptr.value]| == SLOT_BYTES
    && forall j :: j in g.jobs && j.buf == ptr.value ==> j.stream == LEGACY
  }

  ghost predicate Lanes(g: Gpu, pool: Pool, events: seq<nat>, inFlight: seq<bool>) {
    && |pool.slots| == |events| == |inFlight| == POOL_COUNT && !pool.disabled
    && pool.slots[0] != pool.slots[1] && events[0] != events[1]
    && Lane(g, pool.slots[0], events[0], inFlight[0]) && Lane(g, pool.slots[1], events[1], inFlight[1])
  }

  /** Whatever is outstanding, the pool may be disabled. */
  lemma LanesDisabled(g: Gpu, pool: Pool, events: seq<nat>, inFlight: seq<bool>)
    requires Lanes(g, pool, events, inFlight)
    ensures PoolOk(g, pool.(disabled := true))
    ensures !inFlight[0] && !inFlight[1] ==> PoolOk(g, pool)
  {
  }

  /** What happens for one lane leaves the other alone. */
  lemma OtherLane(g: Gpu, h: Gpu, ptr: Option<nat>, event: nat, inFlight: bool)
    requires g.Valid() && Lane(g, ptr, event, inFlight)
    requires forall j :: j in h.jobs && j.buf == ptr.value ==> j in g.jobs
    requires ptr.value in h.buffers && h.buffers[ptr.value] == g.buffers[ptr.value]
    requires forall x :: x in g.owner ==> x in h.owner && h.owner[x] == g.owner[x]
    requires event in g.marks ==> event in h.marks && h.marks[event] == g.marks[event]
    ensures Lane(h, ptr, event, inFlight)
  {
  }

  /** cuEventSynchronize on the lane's event. */
  method AwaitLane(g: Gpu, ghost ptr: Option<nat>, event: nat) returns (ok: bool, h: Gpu)
    requires g.Valid() && Lane(g, ptr, event, true)
    ensures h.Valid() && Progress(g, h)
    ensures Lane(h, ptr, event, true) && (ok ==> Lane(h, ptr, event, false))
  {
    ok, h := WaitFor(g, g.marks[event]);
  }

  /** The lane's slot is idle: fill it with the next part of the payload. */
  method FillLane(g: Gpu, l: Link, ptr: Option<nat>, ghost event: nat, size: nat) returns (alive: bool, h: Gpu, m: Link)
    requires g.Valid() && Quiet(l) && Cuts(l, size) && size <= SLOT_BYTES && Lane(g, ptr, event, false)
    ensures h.Valid() && ReadOn(l, m) && OnlyFor(g, h, POOL_KEY) && Lane(h, ptr, event, false)
    ensures h == g.(buffers := g.buffers[ptr.value := h.buffers[ptr.value]])
    ensures !alive ==> m.failed
    ensures alive ==>
      m.consumed == l.consumed + size && h.buffers[ptr.value][..size] == l.payload[l.consumed..m.consumed]
  {
    var data;
    alive, data, m := ReadPart(l, size);
    h := WriteHost(g, ptr.value, 0, data);
  }

  /** Copy out of the lane's slot and record its event. */
  method LaunchLane(g: Gpu, ptr: Option<nat>, event: nat, size: nat, dst: nat)
    returns (copied: bool, recorded: bool, h: Gpu, ghost job: Job)
    requires g.Valid() && size <= SLOT_BYTES && Lane(g, ptr, event, false)
    ensures h.Valid() && OnlyFor(g, h, POOL_KEY) && h.jobs <= g.jobs + {job} && h.buffers == g.buffers
    ensures h.log == g.log + [job] && job.dst == dst && job.buf == ptr.value
    ensures job.stream == LEGACY && job.data == g.buffers[ptr.value][..size]
    ensures forall x :: x in g.owner ==> x in h.owner && h.owner[x] == g.owner[x]
    ensures forall x :: x != event && x in g.marks ==> x in h.marks && h.marks[x] == g.marks[x]
    ensures recorded ==> copied && Lane(h, ptr, event, true)
    ensures PoolSlotOk(h, ptr, Unknown) && forall j :: j in h.jobs && j.buf == ptr.value ==> j.stream == LEGACY
  {
    recorded := false;
    copied, h, job := CopyAsync(g, ptr.value, 0, size, dst, LEGACY);
    if copied {
      ghost var mid := h;
      recorded, h := EventRecord(h, event, LEGACY);
      OnlyForTwice(g, mid, h, POOL_KEY);
    }
  }

  /** Whatever became outstanding reads from the pool. */
  ghost predicate NewOnPool(g: Gpu, h: Gpu, pool: Pool) {
    forall j :: j in h.jobs ==> j in g.jobs || Some(j.buf) in pool.slots
  }

  datatype Turn = Went | WaitFailed | Dead | CopyFailed | RecordFailed

  /** One turn of the pipeline on lane `i`. */
  method PipelineTurn(g: Gpu, l: Link, pool: Pool, events: seq<nat>, inFlight: seq<bool>, i: nat, size: nat, dst: nat)
    returns (turn: Turn, h: Gpu, m: Link, ghost job: Job)
    requires g.Valid() && Quiet(l) && Cuts(l, size) && size <= SLOT_BYTES
    requires i < POOL_COUNT && Lanes(g, pool, events, inFlight)
    ensures h.Valid() && OnlyFor(g, h, POOL_KEY) && ReadOn(l, m) && PoolOk(h, pool.(disabled := true))
    ensures NewOnPool(g, h, pool)
    ensures turn.Dead? ==> m.failed
    ensures turn.WaitFailed? ==> m == l
    ensures turn.Went? || turn.CopyFailed? || turn.RecordFailed? ==>
      && m.consumed == l.consumed + size && h.log == g.log + [job]
      && job.stream == LEGACY && job.dst == dst && job.data == l.payload[l.consumed..m.consumed]
    ensures turn.Went? ==> Lanes(h, pool, events, inFlight[i := true])
    ensures turn.RecordFailed? ==> AllLegacy(h, pool)
  {
    hide Lane, NewOnPool, PoolOk, Stands;
    NothingOnPool(g, pool);
    turn, h, m, job := WaitFailed, g, l, Job(0, 0, 0, 0, 0, []);
    LanesDisabled(g, pool, events, inFlight);
    ProgressOnly(g, g, POOL_KEY);
    ghost var other := 1 - i;
    if inFlight[i] {
      var waited;
      waited, h := AwaitLane(g, pool.slots[i], events[i]);
      OtherProgress(g, h, pool, events, inFlight, other);
      ProgressOnly(g, h, POOL_KEY);
      if !waited {
        LanesAre(h, pool, events, inFlight, i);
        LanesDisabled(h, pool, events, inFlight);
        return;
      }
    }
    ghost var filling := h;
    var alive;
    alive, h, m := FillLane(h, l, pool.slots[i], events[i], size);
    OtherFilled(filling, h, pool, events, inFlight, i);
    OnlyForTwice(g, filling, h, POOL_KEY);
    if !alive {
      turn := Dead;
      LanesAre(h, pool, events, inFlight[i := false], i);
      LanesDisabled(h, pool, events, inFlight[i := false]);
      return;
    }
    ghost var launching := h;
    var copied, recorded;
    copied, recorded, h, job := LaunchLane(h, pool.slots[i], events[i], size, dst);
    OnlyForTwice(g, launching, h, POOL_KEY);
    OtherLaunched(launching, h, pool, events, inFlight, i, job);
    LaunchedOnPool(g, launching, h, pool, i, job);
    turn := if !copied then CopyFailed else if !recorded then RecordFailed else Went;
    if recorded {
      LanesAre(h, pool, events, inFlight[i := true], i);
    }
  }

  /** Everything outstanding from the pool is on the legacy stream. */
  ghost predicate AllLegacy(g: Gpu, pool: Pool) {
    forall j, k: nat :: j in g.jobs && k < |pool.slots| && pool.slots[k] == Some(j.buf) ==> j.stream == LEGACY
  }

  lemma NothingOnPool(g: Gpu, pool: Pool)
    ensures forall h: Gpu :: h.jobs <= g.jobs ==> NewOnPool(g, h, pool)
  {
  }

  lemma LaunchedOnPool(g: Gpu, launching: Gpu, h: Gpu, pool: Pool, i: nat, job: Job)
    requires i < |pool.slots| && pool.slots[i] == Some(job.buf)
    requires launching.jobs <= g.jobs && h.jobs <= launching.jobs + {job}
    ensures NewOnPool(g, h, pool)
  {
  }

  lemma LanesAre(g: Gpu, pool: Pool, events: seq<nat>, inFlight: seq<bool>, i: nat)
    requires |pool.slots| == |events| == |inFlight| == POOL_COUNT && !pool.disabled && i < POOL_COUNT
    requires pool.slots[0] != pool.slots[1] && events[0] != events[1]
    requires Lane(g, pool.slots[i], events[i], inFlight[i])
    requires Lane(g, pool.slots[1 - i], events[1 - i], inFlight[1 - i])
    ensures Lanes(g, pool, events, inFlight)
  {
  }

  lemma OtherProgress(g: Gpu, h: Gpu, pool: Pool, events: seq<nat>, inFlight: seq<bool>, k: nat)
    requires g.Valid() && Lanes(g, pool, events, inFlight) && Progress(g, h) && k < POOL_COUNT
    ensures Lane(h, pool.slots[k], events[k], inFlight[k])
  {
    OtherLane(g, h, pool.slots[k], events[k], inFlight[k]);
  }

  lemma OtherFilled(g: Gpu, h: Gpu, pool: Pool, events: seq<nat>, inFlight: seq<bool>, i: nat)
    requires |pool.slots| == |events| == |inFlight| == POOL_COUNT && i < POOL_COUNT && pool.slots[0] != pool.slots[1]
    requires g.Valid() && pool.slots[i].Some? && Lane(g, pool.slots[1 - i], events[1 - i], inFlight[1 - i])
    requires pool.slots[i].value in h.buffers
    requires h == g.(buffers := g.buffers[pool.slots[i].value := h.buffers[pool.slots[i].value]])
    ensures Lane(h, pool.slots[1 - i], events[1 - i], inFlight[1 - i])
  {
    OtherLane(g, h, pool.slots[1 - i], events[1 - i], inFlight[1 - i]);
  }

  lemma OtherLaunched(g: Gpu, h: Gpu, pool: Pool, events: seq<nat>, inFlight: seq<bool>, i: nat, job: Job)
    requires |pool.slots| == |events| == |inFlight| == POOL_COUNT
    requires i < POOL_COUNT && pool.slots[0] != pool.slots[1] && events[0] != events[1]
    requires g.Valid() && pool.slots[i].Some? && Lane(g, pool.slots[1 - i], events[1 - i], inFlight[1 - i])
    requires h.jobs <= g.jobs + {job} && job.buf == pool.slots[i].value && h.buffers == g.buffers
    requires forall x :: x in g.owner ==> x in h.owner && h.owner[x] == g.owner[x]
    requires forall x :: x != events[i] && x in g.marks ==> x in h.marks && h.marks[x] == g.marks[x]
    requires PoolSlotOk(h, pool.slots[i], Unknown)
    requires forall j :: j in h.jobs && j.buf == pool.slots[i].value ==> j.stream == LEGACY
    ensures Lane(h, pool.slots[1 - i], events[1 - i], inFlight[1 - i])
    ensures PoolOk(h, pool.(disabled := true)) && AllLegacy(h, pool)
  {
    OtherLane(g, h, pool.slots[1 - i], events[1 - i], inFlight[1 - i]);
  }

  /** The pipeline's loop, up to the end of the payload or the first turn that fails. */
  method PipelineTurns(g: Gpu, l: Link, pool: Pool, events: seq<nat>, size: nat, dst: nat)
    returns (turn: Turn, h: Gpu, m: Link, inFlight: seq<bool>, offset: nat, ghost copies: seq<Job>)
    requires g.Valid() && Quiet(l) && l.consumed + size == |l.payload| && Lanes(g, pool, events, [false, false])
    ensures h.Valid() && OnlyFor(g, h, POOL_KEY) && ReadOn(l, m) && PoolOk(h, pool.(disabled := true))
    ensures NewOnPool(g, h, pool)
    ensures turn.Dead? ==> m.failed
    ensures !turn.Dead? ==> offset <= size && m.consumed == l.consumed + offset
    ensures turn.Went? ==> offset == size && Lanes(h, pool, events, inFlight)
    ensures turn.RecordFailed? ==> AllLegacy(h, pool)
    ensures turn.Went? || turn.RecordFailed? ==>
      Staged(g.log, h.log, copies, LEGACY, dst, l.payload, l.consumed, m.consumed)
  {
    hide Staged, OnlyFor, Cuts, Carries, Lanes, PoolOk, AllLegacy, Quiet;
    NothingOnPool(g, pool);
    turn, h, m, inFlight, offset, copies := Went, g, l, [false, false], 0, [];
    LanesDisabled(g, pool, events, inFlight);
    ProgressOnly(g, g, POOL_KEY);
    StagedNothing(g.log, LEGACY, dst, l.payload, l.consumed);
    var slot: nat := 0;
    while offset < size
      invariant turn.Went? && offset <= size && slot < POOL_COUNT && |inFlight| == POOL_COUNT
      invariant h.Valid() && OnlyFor(g, h, POOL_KEY) && ReadOn(l, m) && PoolOk(h, pool.(disabled := true))
      invariant Lanes(h, pool, events, inFlight) && NewOnPool(g, h, pool) && m.consumed == l.consumed + offset
      invariant Staged(g.log, h.log, copies, LEGACY, dst, l.payload, l.consumed, m.consumed)
      decreases size - offset
    {
      var chunk := Min(SLOT_BYTES, size - offset);
      ChunkCuts(m, size - offset);
      ghost var before, was, job := h, m.consumed, *;
      turn, h, m, job := PipelineTurn(h, m, pool, events, inFlight, slot, chunk, dst + offset);
      OnlyForTwice(g, before, h, POOL_KEY);
      if turn.Dead? || turn.WaitFailed? {
        return;
      }
      StagedMore(g.log, before.log, copies, LEGACY, dst, l.payload, l.consumed, was, chunk, job);
      copies := copies + [job];
      offset := offset + chunk;
      if !turn.Went? {
        return;
      }
      inFlight := inFlight[slot := true];
      slot := (slot + 1) % POOL_COUNT;
    }
  }

  /** lupine_wait_sync_htod_events. */
  method AwaitLanes(g: Gpu, pool: Pool, events: seq<nat>, inFlight: seq<bool>) returns (ok: bool, h: Gpu)
    requires g.Valid() && Lanes(g, pool, events, inFlight)
    ensures h.Valid() && Progress(g, h) && PoolOk(h, pool.(disabled := !ok))
  {
    hide Lane;
    ok, h := true, g;
    var waiting := inFlight;
    for i := 0 to POOL_COUNT
      invariant h.Valid() && Progress(g, h) && Lanes(h, pool, events, waiting) && |waiting| == POOL_COUNT
      invariant ok ==> forall k: nat :: k < i ==> !waiting[k]
    {
      if waiting[i] {
        ghost var before := h;
        var waited;
        waited, h := AwaitLane(h, pool.slots[i], events[i]);
        OtherProgress(before, h, pool, events, waiting, 1 - i);
        if waited {
          waiting := waiting[i := false];
        } else {
          ok := false;
        }
        LanesAre(h, pool, events, waiting, i);
      }
    }
    LanesDisabled(h, pool, events, waiting);
  }

  method CreateEvents(g: Gpu) returns (ok: bool, events: seq<nat>, h: Gpu)
    requires g.Valid()
    ensures h.Valid() && h.log == g.log && OnlyFor(g, h, POOL_KEY)
    ensures h.jobs <= g.jobs && h.buffers == g.buffers && h.marks == g.marks
    ensures ok ==> |events| == POOL_COUNT && events[0] != events[1]
    ensures ok ==> forall i: nat :: i < POOL_COUNT ==> events[i] in h.owner && h.owner[events[i]] == POOL_KEY
  {
    events := [];
    var first, second;
    first, h := EventCreate(g, POOL_KEY);
    ok := first.Some?;
    if ok {
      ghost var mid := h;
      second, h := EventCreate(h, POOL_KEY);
      OnlyForTwice(g, mid, h, POOL_KEY);
      ok := second.Some?;
      if ok {
        events := [first.value, second.value];
      }
    }
  }

  lemma FreshLanes(g: Gpu, h: Gpu, pool: Pool, events: seq<nat>)
    requires g.Valid() && PoolOk(g, pool) && !pool.disabled && pool.slots[0].Some? && pool.slots[1].Some?
    requires OnlyFor(g, h, POOL_KEY) && h.jobs <= g.jobs
    requires h.buffers == g.buffers && |events| == POOL_COUNT && events[0] != events[1]
    requires forall i: nat :: i < POOL_COUNT ==> events[i] in h.owner && h.owner[events[i]] == POOL_KEY
    ensures Lanes(h, pool, events, [false, false])
  {
    assert PoolSlotOk(g, pool.slots[0], Free) && PoolSlotOk(g, pool.slots[1], Free);
  }

  /** A pool without events stays as it is. */
  lemma PoolKept(g: Gpu, h: Gpu, pool: Pool)
    requires PoolOk(g, pool) && h.jobs <= g.jobs && h.buffers == g.buffers && OnlyFor(g, h, POOL_KEY)
    ensures PoolOk(h, pool)
  {
    forall i: nat | i < POOL_COUNT
      ensures PoolSlotOk(h, pool.slots[i], if pool.disabled then Unknown else Free)
    {
      assert PoolSlotOk(g, pool.slots[i], if pool.disabled then Unknown else Free);
    }
  }

  /** A stream synchronisation that succeeds makes an all-legacy pool idle. */
  lemma SynchronizedPool(g: Gpu, h: Gpu, pool: Pool)
    requires g.Valid() && PoolOk(g, pool.(disabled := true)) && AllLegacy(g, pool) && Progress(g, h)
    requires Passed(h.jobs, Mark(LEGACY, g.next)) && !pool.disabled
    ensures PoolOk(h, pool)
  {
    forall i: nat | i < POOL_COUNT
      ensures PoolSlotOk(h, pool.slots[i], Free)
    {
      assert PoolSlotOk(g, pool.slots[i], Unknown);
      forall j | j in h.jobs && pool.slots[i].Some?
        ensures j.buf != pool.slots[i].value
      {
        assert j in g.jobs;
      }
    }
  }

  lemma PoolProgress(g: Gpu, h: Gpu, pool: Pool)
    requires PoolOk(g, pool) && Progress(g, h)
    ensures PoolOk(h, pool)
  {
    ProgressOnly(g, h, POOL_KEY);
    PoolKept(g, h, pool);
  }

  /** After a turn that failed: what is left of the payload is drained, or copied serially
      when the stream could be synchronised after a failed record. `mid` separates what
      happened to the pool from what happened to the serial path's buffer. */
  method PipelineFailed(turn: Turn, g: Gpu, l: Link, pool: Pool, retained: Retained, rest: nat, dst: nat, current: nat)
    returns (alive: bool, success: bool, mid: Gpu, h: Gpu, m: Link, p: Pool, r: Retained, ghost copies: seq<Job>)
    requires turn.WaitFailed? || turn.CopyFailed? || turn.RecordFailed?
    requires g.Valid() && Quiet(l) && l.consumed + rest == |l.payload| && RetainedOk(g, retained)
    requires !pool.disabled && PoolOk(g, pool.(disabled := true)) && (turn.RecordFailed? ==> AllLegacy(g, pool))
    ensures mid.Valid() && h.Valid() && OnlyFor(g, mid, POOL_KEY) && OnlyFor(mid, h, RETAINED_KEY)
    ensures ReadOn(l, m) && PoolOk(mid, p) && RetainedOk(h, r)
    ensures mid.jobs <= g.jobs && (alive && success ==> h.jobs <= mid.jobs)
    ensures !alive ==> m.failed
    ensures alive ==> m.consumed == |l.payload|
    ensures alive && success ==>
      p == pool && turn.RecordFailed? && Staged(g.log, h.log, copies, LEGACY, dst, l.payload, l.consumed, |l.payload|)
  {
    hide PoolOk, RetainedOk, Staged, AllLegacy, Cuts;
    success, h, p, r, copies := false, g, pool.(disabled := true), retained, [];
    if turn.RecordFailed? {
      var synchronized;
      synchronized, h := WaitFor(g, Mark(LEGACY, g.next));
      ProgressOnly(g, h, POOL_KEY);
      RetainedStays(g, h, retained);
      mid := h;
      if synchronized {
        SynchronizedPool(g, h, pool);
        p := pool;
        alive, success, h, m, r, copies := CopySerial(h, l, dst, rest, retained, current);
        return;
      }
      PoolProgress(g, h, pool.(disabled := true));
    } else {
      mid := g;
      ProgressOnly(g, g, POOL_KEY);
    }
    ProgressOnly(h, h, RETAINED_KEY);
    ChunkCuts(l, rest);
    alive, m := Drain(l, rest);
  }

  /** An idle pool has nothing outstanding, so nothing new is. */
  lemma NothingNew(g: Gpu, h: Gpu, i: Gpu, pool: Pool)
    requires NewOnPool(g, h, pool) && i.jobs <= h.jobs && PoolOk(i, pool) && !pool.disabled
    ensures i.jobs <= g.jobs
  {
    assert PoolSlotOk(i, pool.slots[0], Free) && PoolSlotOk(i, pool.slots[1], Free);
  }

  lemma RetainedStays(g: Gpu, h: Gpu, retained: Retained)
    requires g.Valid() && OnlyFor(g, h, POOL_KEY) && RetainedOk(g, retained)
    ensures RetainedOk(h, retained)
  {
    OthersGuarded(g, h, POOL_KEY, RETAINED_KEY, retained.ptr, None, Free);
  }

  /** What lupine_copy_htod_pipelined returns: the serial path should take over with
      nothing consumed, the payload is consumed, or the transport failed. */
  datatype Route = Declined | Consumed | TransportFailed

  /** lupine_copy_htod_pipelined, for a payload not yet begun. */
  method CopyPipelined(g: Gpu, l: Link, dst: nat, pool: Pool, retained: Retained, context: nat)
    returns (route: Route, success: bool, mid: Gpu, h: Gpu, m: Link, p: Pool, r: Retained, ghost copies: seq<Job>)
    requires g.Valid() && Quiet(l) && l.consumed == 0 && PoolOk(g, pool) && RetainedOk(g, retained)
    ensures mid.Valid() && h.Valid() && OnlyFor(g, mid, POOL_KEY) && OnlyFor(mid, h, RETAINED_KEY)
    ensures ReadOn(l, m) && PoolOk(mid, p) && RetainedOk(h, r)
    ensures route.Declined? || (route.Consumed? && success) ==> h.jobs <= g.jobs
    ensures route.Declined? ==> m == l && h.log == g.log
    ensures |l.payload| <= SLOT_BYTES ==> route.Declined?
    ensures route.Consumed? ==> m.consumed == |l.payload|
    ensures route.TransportFailed? ==> m.failed
    ensures route.Consumed? && success ==>
      !p.disabled && Staged(g.log, h.log, copies, LEGACY, dst, l.payload, 0, |l.payload|)
  {
    hide PoolOk, RetainedOk, Staged, AllLegacy, Lanes, OnlyFor, NewOnPool;
    route, success, h, m, p, r, copies := Declined, false, g, l, pool, retained, [];
    ProgressOnly(g, g, POOL_KEY);
    ProgressOnly(g, g, RETAINED_KEY);
    mid := g;
    var size := |l.payload|;
    if size <= SLOT_BYTES {
      return;
    }
    var ready, events;
    ready, events, h, p := OpenPipeline(g, pool, context);
    mid := h;
    ProgressOnly(h, h, RETAINED_KEY);
    RetainedStays(g, h, retained);
    if !ready {
      return;
    }
    ghost var started := h;
    var turn, inFlight, offset;
    turn, h, m, inFlight, offset, copies := PipelineTurns(h, l, p, events, size, dst);
    OnlyForTwice(g, started, h, POOL_KEY);
    RetainedStays(g, h, retained);
    ghost var piped := h;
    mid := h;
    ProgressOnly(h, h, RETAINED_KEY);
    if turn.Dead? {
      route, p := TransportFailed, p.(disabled := true);
      return;
    }
    route := Consumed;
    if turn.Went? {
      success, h := AwaitLanes(h, p, events, inFlight);
      ProgressOnly(piped, h, POOL_KEY);
      OnlyForTwice(g, piped, h, POOL_KEY);
      RetainedStays(g, h, retained);
      ProgressOnly(h, h, RETAINED_KEY);
      ghost var used := p;
      mid, p := h, p.(disabled := !success);
      if success {
        NothingNew(started, piped, h, used);
      }
      return;
    }
    ghost var first := copies;
    var alive;
    ghost var from := m.consumed;
    alive, success, mid, h, m, p, r, copies := PipelineFailed(turn, h, m, p, r, size - offset, dst + offset, context);
    OnlyForTwice(g, piped, mid, POOL_KEY);
    if !alive {
      route := TransportFailed;
    } else if success {
      NothingNew(started, piped, mid, p);
      StagedBoth(g.log, piped.log, h.log, first, copies, LEGACY, dst, l.payload, from);
      copies := first + copies;
    }
  }

  /** Prepare the pool and its events. */
  method OpenPipeline(g: Gpu, pool: Pool, context: nat) returns (ok: bool, events: seq<nat>, h: Gpu, p: Pool)
    requires g.Valid() && PoolOk(g, pool)
    ensures h.jobs <= g.jobs
    ensures h.Valid() && OnlyFor(g, h, POOL_KEY) && h.log == g.log && PoolOk(h, p)
    ensures ok ==> !p.disabled && Lanes(h, p, events, [false, false])
  {
    hide PoolOk, Lanes, OnlyFor;
    events := [];
    ok, h, p := PreparePool(g, pool, context);
    if ok {
      ghost var prepared := h;
      ok, events, h := CreateEvents(h);
      OnlyForTwice(g, prepared, h, POOL_KEY);
      PoolKept(prepared, h, p);
      if ok {
        FreshLanes(prepared, h, p, events);
      }
    }
  }
}
