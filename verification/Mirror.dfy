/** Mirrored host memory as a step machine.

    The client keeps a copy of a server allocation and learns of host accesses through
    page protection. Memory is a sequence of pages; freshness is tracked per chunk of
    `k` pages. Here a fault, a fetch and a flush are one step each; module Coherence takes
    them apart. */
module Mirror {
  import opened Payload

  type Page = seq<byte>

  /** The chunk of a page, with `k` pages to a chunk. */
  function ChunkOf(k: nat, p: nat): nat
    requires 1 <= k
  {
    p / k
  }

  datatype Prot = NoAccess | ReadOnly | ReadWrite

  const READAHEAD_CAP: nat := 64   // chunks: 4 MiB of 64 KiB

  /** One tracked allocation. `stale` is the non-zero device_stale state; `queued` are the
      pages with a published dirty range; `seqNext` and `readahead` count chunks. */
  datatype Mirror = Mirror(
    k: nat,
    host: seq<Page>, server: seq<Page>,
    prot: seq<Prot>, chunks: seq<bool>, stale: bool,
    queued: set<nat>, fullDirty: bool, deviceDirty: bool,
    seqNext: nat, readahead: nat)
  {
    ghost predicate Shaped() {
      && 1 <= k
      && |host| == |server| == |prot|
      && (forall p: nat :: p < |host| ==> |host[p]| == |server[p]|)
      && (forall p: nat :: p < |host| ==> ChunkOf(k, p) < |chunks|)
    }

    /** The page's host copy is current. */
    predicate Fresh(p: nat)
      requires Shaped() && p < |host|
    {
      !stale || chunks[ChunkOf(k, p)]
    }
  }

  // ------------------------------------------------------------ the operations

  function FetchedHost(m: Mirror, lo: nat, hi: nat): (r: seq<Page>)
    requires m.Shaped()
    ensures |r| == |m.host|
    ensures forall p: nat :: p < |r| ==>
      r[p] == if lo <= ChunkOf(m.k, p) < hi && !m.chunks[ChunkOf(m.k, p)] then m.server[p] else m.host[p]
  {
    seq(|m.host|, p requires 0 <= p < |m.host| =>
      if lo <= ChunkOf(m.k, p) < hi && !m.chunks[ChunkOf(m.k, p)] then m.server[p] else m.host[p])
  }

  function Protected(m: Mirror, lo: nat, hi: nat, prot: Prot): (r: seq<Prot>)
    requires m.Shaped()
    ensures |r| == |m.prot|
    ensures forall p: nat :: p < |r| ==> r[p] == if lo <= ChunkOf(m.k, p) < hi then prot else m.prot[p]
  {
    seq(|m.prot|, p requires 0 <= p < |m.prot| => if lo <= ChunkOf(m.k, p) < hi then prot else m.prot[p])
  }

  function MarkedFresh(chunks: seq<bool>, lo: nat, hi: nat): (r: seq<bool>)
    ensures |r| == |chunks|
    ensures forall c: nat :: c < |r| ==> r[c] == (chunks[c] || lo <= c < hi)
  {
    seq(|chunks|, c requires 0 <= c < |chunks| => chunks[c] || lo <= c < hi)
  }

  predicate AllFresh(chunks: seq<bool>) {
    forall c: nat :: c < |chunks| ==> chunks[c]
  }

  /** A completed fetch of the stale chunks in [lo, hi): their pages come from the server,
      the span becomes read-only, and with its last chunk the allocation is no longer
      stale. */
  function Fetched(m: Mirror, lo: nat, hi: nat): (r: Mirror)
    requires m.Shaped()
    ensures r.Shaped()
  {
    var chunks := MarkedFresh(m.chunks, lo, hi);
    m.(host := FetchedHost(m, lo, hi), prot := Protected(m, lo, hi, ReadOnly),
      chunks := chunks, stale := !AllFresh(chunks))
  }

  /** The number of chunks a fault at chunk `start` may fetch. A fault that is not where the
      last window ended gets one chunk; a fault that is gets twice the last window, at most
      the cap, and all that remains once the cap was reached. */
  function Window(m: Mirror, start: nat): nat {
    if start != 0 && start == m.seqNext && 1 <= m.readahead then
      if READAHEAD_CAP <= m.readahead then |m.chunks| - Min(start, |m.chunks|)
      else Min(2 * m.readahead, READAHEAD_CAP)
    else 1
  }

  function NextReadahead(m: Mirror, start: nat): nat {
    if start != 0 && start == m.seqNext && 1 <= m.readahead then
      if READAHEAD_CAP <= m.readahead then m.readahead else Min(2 * m.readahead, READAHEAD_CAP)
    else 1
  }

  /** The first fresh chunk at or after `c`, or `limit`. */
  function StaleRunEnd(chunks: seq<bool>, c: nat, limit: nat): (e: nat)
    requires c <= limit <= |chunks|
    ensures c <= e <= limit
    ensures forall i: nat :: c <= i < e ==> !chunks[i]
    ensures e < limit ==> chunks[e]
    decreases limit - c
  {
    if c == limit || chunks[c] then c else StaleRunEnd(chunks, c + 1, limit)
  }

  function FetchEnd(m: Mirror, c: nat): (e: nat)
    requires c < |m.chunks|
    ensures c <= e <= |m.chunks|
    ensures forall i: nat :: c <= i < e ==> !m.chunks[i]
  {
    StaleRunEnd(m.chunks, c, Min(c + Window(m, c), |m.chunks|))
  }

  /** lupine_sigsegv_handler for a fault on page `p`; `room` says whether the dirty-range
      queue had a slot left. */
  function Faulted(m: Mirror, p: nat, room: bool): Mirror
    requires m.Shaped() && p < |m.host|
  {
    var c := ChunkOf(m.k, p);
    if m.stale && !m.chunks[c] then
      Fetched(m, c, FetchEnd(m, c)).(seqNext := FetchEnd(m, c), readahead := NextReadahead(m, c))
    else
      m.(prot := m.prot[p := ReadWrite],
         queued := if room then m.queued + {p} else m.queued,
         fullDirty := m.fullDirty || !room)
  }

  /** The pages a flush sends. */
  predicate Pushed(m: Mirror, p: nat) { m.fullDirty || p in m.queued }

  function PushedServer(m: Mirror): (r: seq<Page>)
    requires m.Shaped()
    ensures |r| == |m.server|
    ensures forall p: nat :: p < |r| ==> r[p] == if Pushed(m, p) then m.host[p] else m.server[p]
  {
    seq(|m.server|, p requires 0 <= p < |m.server| => if Pushed(m, p) then m.host[p] else m.server[p])
  }

  function PushedProt(m: Mirror): (r: seq<Prot>)
    requires m.Shaped()
    ensures |r| == |m.prot|
    ensures forall p: nat :: p < |r| ==> r[p] == if Pushed(m, p) then ReadOnly else m.prot[p]
  {
    seq(|m.prot|, p requires 0 <= p < |m.prot| => if Pushed(m, p) then ReadOnly else m.prot[p])
  }

  /** A full flush of a stale allocation fetches it first, as far as chunk `fetchedTo`. */
  function BeforePush(m: Mirror, fetchedTo: nat): (r: Mirror)
    requires m.Shaped()
    ensures r.Shaped()
  {
    if m.fullDirty && m.stale then Fetched(m, 0, fetchedTo) else m
  }

  function Push(m: Mirror): Mirror
    requires m.Shaped()
  {
    m.(server := PushedServer(m), prot := PushedProt(m), queued := {}, fullDirty := false)
  }

  /** lupine_flush_dirty_host_pages_to_route, when everything was sent. */
  function Flushed(m: Mirror, fetchedTo: nat): Mirror
    requires m.Shaped()
  {
    Push(BeforePush(m, fetchedTo))
  }

  /** The same when protecting or sending failed part-way: the pages in `guarded` had
      become read-only and those in `sent` had reached the server; everything that was
      taken from the queue is remembered as fully dirty. */
  function FlushFailed(m: Mirror, fetchedTo: nat, guarded: set<nat>, sent: set<nat>): Mirror
    requires m.Shaped()
  {
    var b := BeforePush(m, fetchedTo);
    if (forall p: nat :: p < |b.host| ==> !Pushed(b, p)) then b
    else
      b.(server := Partly(b.server, PushedServer(b), sent), prot := Partly(b.prot, PushedProt(b), guarded),
         queued := {}, fullDirty := true)
  }

  /** `b` at the indices in `which`, `a` elsewhere. */
  function Partly<T>(a: seq<T>, b: seq<T>, which: set<nat>): (r: seq<T>)
    requires |a| == |b|
    ensures |r| == |a|
    ensures forall p: nat :: p < |r| ==> r[p] == if p in which then b[p] else a[p]
  {
    seq(|a|, p requires 0 <= p < |a| => if p in which then b[p] else a[p])
  }

  /** lupine_sync_mapped_device_to_host: forget the host copy instead of copying back. */
  function Invalidated(m: Mirror): Mirror {
    m.(prot := seq(|m.prot|, _ => NoAccess), chunks := seq(|m.chunks|, _ => false), stale := true,
       deviceDirty := false, seqNext := 0, readahead := 0)
  }

  // ------------------------------------------------------------------- steps

  datatype Step =
    | Read(p: nat, o: nat)
    | Write(p: nat, o: nat, b: byte)
    | Fault(p: nat, room: bool)
    | MakeFresh(lo: nat, hi: nat)
    | Flush
    | FailFlush(guarded: set<nat>, sent: set<nat>)
    | Launch(kernel: seq<Page> -> seq<Page>)
    | Sync

  /** Kernels keep the shape of memory. */
  ghost predicate KeepsShape(kernel: seq<Page> -> seq<Page>, mem: seq<Page>) {
    |kernel(mem)| == |mem| && forall p :: 0 <= p < |mem| ==> |kernel(mem)[p]| == |mem[p]|
  }

  /** An access is possible when the page protection allows it. Between a launch and the
      next sync the host leaves the allocation alone. */
  ghost predicate Enabled(m: Mirror, step: Step)
    requires m.Shaped()
  {
    match step
    case Read(p, o) => p < |m.host| && o < |m.host[p]| && m.prot[p] != NoAccess && !m.deviceDirty
    case Write(p, o, _) => p < |m.host| && o < |m.host[p]| && m.prot[p] == ReadWrite && !m.deviceDirty
    case Fault(p, _) => p < |m.host| && !m.deviceDirty
    case MakeFresh(_, _) => true
    case Flush => true
    case FailFlush(_, _) => true
    case Launch(kernel) => KeepsShape(kernel, Flushed(m, |m.chunks|).server)
    case Sync => m.deviceDirty
  }

  ghost function Apply(m: Mirror, step: Step): Mirror
    requires m.Shaped() && Enabled(m, step)
  {
    match step
    case Read(_, _) => m
    case Write(p, o, b) => m.(host := m.host[p := m.host[p][o := b]])
    case Fault(p, room) => Faulted(m, p, room)
    case MakeFresh(lo, hi) => if m.stale then Fetched(m, lo, hi) else m
    case Flush => Flushed(m, |m.chunks|)
    case FailFlush(guarded, sent) => FlushFailed(m, |m.chunks|, guarded, sent)
    case Launch(kernel) =>
      var f := Flushed(m, |m.chunks|);
      f.(server := kernel(f.server), deviceDirty := true)
    case Sync => Invalidated(m)
  }

  // ------------------------------------------------------ the plain memory

  /** The one memory the mirror stands for: the host's byte where the host copy is
      current, the server's elsewhere. */
  ghost function Memory(m: Mirror): (r: seq<Page>)
    requires m.Shaped()
    ensures |r| == |m.host|
    ensures forall p: nat :: p < |r| ==> r[p] == if m.deviceDirty || !m.Fresh(p) then m.server[p] else m.host[p]
  {
    seq(|m.host|, p requires 0 <= p < |m.host| => if m.deviceDirty || !m.Fresh(p) then m.server[p] else m.host[p])
  }

  ghost predicate PlainEnabled(mem: seq<Page>, step: Step) {
    match step
    case Read(p, o) => p < |mem| && o < |mem[p]|
    case Write(p, o, _) => p < |mem| && o < |mem[p]|
    case Launch(kernel) => KeepsShape(kernel, mem)
    case _ => true
  }

  /** Plain memory knows reads, writes and kernels; everything else is invisible. */
  ghost function PlainApply(mem: seq<Page>, step: Step): seq<Page>
    requires PlainEnabled(mem, step)
  {
    match step
    case Write(p, o, b) => mem[p := mem[p][o := b]]
    case Launch(kernel) => kernel(mem)
    case _ => mem
  }

  // --------------------------------------------------------------- invariant

  ghost predicate StaleIsInaccessible(m: Mirror)
    requires m.Shaped()
  {
    forall p: nat :: p < |m.host| && !m.Fresh(p) ==> m.prot[p] == NoAccess
  }

  ghost predicate WritableIsCovered(m: Mirror)
    requires m.Shaped()
  {
    forall p: nat :: p < |m.host| && m.prot[p] == ReadWrite ==> Pushed(m, p)
  }

  ghost predicate UncoveredIsClean(m: Mirror)
    requires m.Shaped()
  {
    forall p: nat :: p < |m.host| && m.Fresh(p) && !Pushed(m, p) && !m.deviceDirty ==> m.host[p] == m.server[p]
  }

  ghost predicate QueuedIsFresh(m: Mirror)
    requires m.Shaped()
  {
    forall p: nat :: p in m.queued ==> p < |m.host| && m.Fresh(p)
  }

  ghost predicate Inv(m: Mirror) {
    && m.Shaped()
    && StaleIsInaccessible(m) && WritableIsCovered(m) && UncoveredIsClean(m) && QueuedIsFresh(m)
    && (m.deviceDirty ==> m.queued == {} && !m.fullDirty)
  }

  // ------------------------------------------------------------------ proofs

  lemma FetchedInv(m: Mirror, lo: nat, hi: nat)
    requires Inv(m) && m.stale
    ensures Inv(Fetched(m, lo, hi))
    ensures Memory(Fetched(m, lo, hi)) == Memory(m)
  {
    var r := Fetched(m, lo, hi);
    forall p: nat | p < |m.host|
      ensures r.Fresh(p) <==> m.Fresh(p) || lo <= ChunkOf(m.k, p) < hi
    {
    }
  }

  lemma FaultInv(m: Mirror, p: nat, room: bool)
    requires Inv(m) && p < |m.host| && !m.deviceDirty
    ensures Inv(Faulted(m, p, room))
    ensures Memory(Faulted(m, p, room)) == Memory(m)
  {
    var c := ChunkOf(m.k, p);
    if m.stale && !m.chunks[c] {
      var f := Fetched(m, c, FetchEnd(m, c));
      FetchedInv(m, c, FetchEnd(m, c));
      Bookkeeping(f, Faulted(m, p, room));
    } else {
      DirtyInv(m, p, room);
    }
  }

  /** The read-ahead state plays no part in coherence. */
  lemma Bookkeeping(m: Mirror, r: Mirror)
    requires Inv(m) && r == m.(seqNext := r.seqNext, readahead := r.readahead)
    ensures Inv(r) && Memory(r) == Memory(m)
  {
    assert forall p: nat :: p < |m.host| ==> (r.Fresh(p) <==> m.Fresh(p)) && (Pushed(r, p) <==> Pushed(m, p));
  }

  lemma DirtyInv(m: Mirror, p: nat, room: bool)
    requires Inv(m) && p < |m.host| && !m.deviceDirty
    requires m.Fresh(p)
    ensures Inv(Faulted(m, p, room))
    ensures Memory(Faulted(m, p, room)) == Memory(m)
  {
    var r := Faulted(m, p, room);
    assert forall q: nat :: q < |m.host| ==> (r.Fresh(q) <==> m.Fresh(q)) && (Pushed(m, q) ==> Pushed(r, q));
  }

  lemma PushInv(m: Mirror)
    requires Inv(m)
    requires m.fullDirty ==> forall p: nat :: p < |m.host| ==> m.Fresh(p)
    ensures Inv(Push(m))
    ensures Memory(Push(m)) == Memory(m)
    ensures !m.deviceDirty ==> Memory(Push(m)) == Push(m).server
  {
    var r := Push(m);
    forall p: nat | p < |m.host|
      ensures r.Fresh(p) <==> m.Fresh(p)
      ensures m.Fresh(p) && !m.deviceDirty ==> r.server[p] == m.host[p]
      ensures !m.Fresh(p) ==> r.server[p] == m.server[p] && r.prot[p] == NoAccess
      ensures r.prot[p] != ReadWrite
    {
    }
  }

  lemma BeforePushInv(m: Mirror)
    requires Inv(m)
    ensures var b := BeforePush(m, |m.chunks|);
      Inv(b) && Memory(b) == Memory(m) && b.fullDirty == m.fullDirty
      && b.deviceDirty == m.deviceDirty
      && (m.fullDirty ==> forall p: nat :: p < |b.host| ==> b.Fresh(p))
  {
    if m.fullDirty && m.stale {
      FetchedInv(m, 0, |m.chunks|);
    }
  }

  lemma FlushInv(m: Mirror)
    requires Inv(m)
    ensures Inv(Flushed(m, |m.chunks|))
    ensures Memory(Flushed(m, |m.chunks|)) == Memory(m)
    ensures Memory(Flushed(m, |m.chunks|)) == Flushed(m, |m.chunks|).server
  {
    BeforePushInv(m);
    PushInv(BeforePush(m, |m.chunks|));
  }

  lemma FailFlushInv(m: Mirror, guarded: set<nat>, sent: set<nat>)
    requires Inv(m)
    ensures Inv(FlushFailed(m, |m.chunks|, guarded, sent))
    ensures Memory(FlushFailed(m, |m.chunks|, guarded, sent)) == Memory(m)
  {
    BeforePushInv(m);
  }

  lemma SyncInv(m: Mirror)
    requires Inv(m) && m.deviceDirty
    ensures Inv(Invalidated(m))
    ensures Memory(Invalidated(m)) == Memory(m)
  {
  }

  /** One step of the mirror is one step of plain memory. */
  lemma StepRefines(m: Mirror, step: Step)
    requires Inv(m) && Enabled(m, step)
    ensures Inv(Apply(m, step))
    ensures PlainEnabled(Memory(m), step)
    ensures Memory(Apply(m, step)) == PlainApply(Memory(m), step)
    ensures step.Read? ==> m.host[step.p][step.o] == Memory(m)[step.p][step.o]
  {
    match step
    case Read(p, o) =>
    case Write(p, o, b) => WriteRefines(m, p, o, b);
    case Fault(p, room) => FaultInv(m, p, room);
    case MakeFresh(lo, hi) => if m.stale { FetchedInv(m, lo, hi); }
    case Flush => FlushInv(m);
    case FailFlush(guarded, sent) => FailFlushInv(m, guarded, sent);
    case Launch(kernel) => FlushInv(m);
    case Sync => SyncInv(m);
  }

  lemma WriteRefines(m: Mirror, p: nat, o: nat, b: byte)
    requires Inv(m) && Enabled(m, Write(p, o, b))
    ensures Inv(Apply(m, Write(p, o, b)))
    ensures p < |Memory(m)| && o < |Memory(m)[p]|
    ensures Memory(Apply(m, Write(p, o, b))) == Memory(m)[p := Memory(m)[p][o := b]]
  {
    var r := Apply(m, Write(p, o, b));
    assert m.Fresh(p);
    assert forall q: nat :: q < |m.host| ==> (r.Fresh(q) <==> m.Fresh(q));
  }

  ghost predicate IsRun(m: Mirror, steps: seq<Step>)
    decreases |steps|
  {
    steps == [] || (m.Shaped() && Enabled(m, steps[0]) && IsRun(Apply(m, steps[0]), steps[1..]))
  }

  ghost function After(m: Mirror, steps: seq<Step>): Mirror
    requires IsRun(m, steps)
    decreases |steps|
  {
    if steps == [] then m else After(Apply(m, steps[0]), steps[1..])
  }

  /** The bytes the host's reads return, in order. */
  ghost function Reads(m: Mirror, steps: seq<Step>): seq<byte>
    requires IsRun(m, steps)
    decreases |steps|
  {
    if steps == [] then []
    else
      (if steps[0].Read? then [m.host[steps[0].p][steps[0].o]] else []) + Reads(Apply(m, steps[0]), steps[1..])
  }

  ghost predicate IsPlainRun(mem: seq<Page>, steps: seq<Step>)
    decreases |steps|
  {
    steps == [] || (PlainEnabled(mem, steps[0]) && IsPlainRun(PlainApply(mem, steps[0]), steps[1..]))
  }

  ghost function PlainAfter(mem: seq<Page>, steps: seq<Step>): seq<Page>
    requires IsPlainRun(mem, steps)
    decreases |steps|
  {
    if steps == [] then mem else PlainAfter(PlainApply(mem, steps[0]), steps[1..])
  }

  ghost function PlainReads(mem: seq<Page>, steps: seq<Step>): seq<byte>
    requires IsPlainRun(mem, steps)
    decreases |steps|
  {
    if steps == [] then []
    else
      (if steps[0].Read? then [mem[steps[0].p][steps[0].o]] else []) + PlainReads(PlainApply(mem, steps[0]), steps[1..])
  }

  /** Single-copy coherence: in every run, the host's reads and the kernels see one plain
      memory, and no fault, fetch, flush, failed flush or invalidation shows. */
  lemma {:induction false} RunRefines(m: Mirror, steps: seq<Step>)
    requires Inv(m) && IsRun(m, steps)
    ensures Inv(After(m, steps))
    ensures IsPlainRun(Memory(m), steps)
    ensures Memory(After(m, steps)) == PlainAfter(Memory(m), steps)
    ensures Reads(m, steps) == PlainReads(Memory(m), steps)
    decreases |steps|
  {
    if steps != [] {
      StepRefines(m, steps[0]);
      RunRefines(Apply(m, steps[0]), steps[1..]);
    }
  }

  /** An allocation enters the protocol equal to the server, or registered with the host's
      bytes and marked fully dirty. */
  lemma RegisteredInv(m: Mirror)
    requires m.Shaped() && !m.stale && !m.deviceDirty && m.queued == {}
    requires forall p: nat :: p < |m.host| ==> m.prot[p] == ReadOnly
    requires m.fullDirty || m.host == m.server
    ensures Inv(m) && Memory(m) == m.host
  {
  }

  // ------------------------------------------------------------ fault counts

  /** A read can resume after at most one fault and a write after at most two, whether or
      not the queue has room. */
  lemma FaultsSuffice(m: Mirror, p: nat, room1: bool, room2: bool)
    requires Inv(m) && p < |m.host| && !m.deviceDirty
    ensures Faulted(m, p, room1).Shaped()
    ensures Faulted(m, p, room1).prot[p] != NoAccess
    ensures Faulted(Faulted(m, p, room1), p, room2).prot[p] == ReadWrite
      || Faulted(m, p, room1).prot[p] == ReadWrite
  {
    FaultInv(m, p, room1);
    var c := ChunkOf(m.k, p);
    if m.stale && !m.chunks[c] {
      assert StaleRunEnd(m.chunks, c, Min(c + Window(m, c), |m.chunks|)) > c;
    }
  }

  // ------------------------------------------------------- when fetches fail

  /** The protections while the stale chunks of [lo, hi) are being fetched. */
  function OpenedProt(m: Mirror, lo: nat, hi: nat): (r: seq<Prot>)
    requires m.Shaped()
    ensures |r| == |m.prot|
    ensures forall p: nat :: p < |r| ==>
      r[p] == if lo <= ChunkOf(m.k, p) < hi && !m.chunks[ChunkOf(m.k, p)] then ReadWrite else m.prot[p]
  {
    seq(|m.prot|, p requires 0 <= p < |m.prot| =>
      if lo <= ChunkOf(m.k, p) < hi && !m.chunks[ChunkOf(m.k, p)] then ReadWrite else m.prot[p])
  }

  /** The host pages when the stale chunks of [lo, done) have been read from the server,
      and the pages in `arrived` of those in [done, hi). */
  function ArrivedHost(m: Mirror, lo: nat, done: nat, hi: nat, arrived: set<nat>): (r: seq<Page>)
    requires m.Shaped()
    ensures |r| == |m.host|
    ensures forall p: nat :: p < |r| ==>
      r[p] == if Arrived(m, lo, done, hi, arrived, p) then m.server[p] else m.host[p]
  {
    seq(|m.host|, p requires 0 <= p < |m.host| =>
      if Arrived(m, lo, done, hi, arrived, p) then m.server[p] else m.host[p])
  }

  predicate Arrived(m: Mirror, lo: nat, done: nat, hi: nat, arrived: set<nat>, p: nat)
    requires m.Shaped() && p < |m.host|
  {
    var c := ChunkOf(m.k, p);
    !m.chunks[c] && lo <= c < hi && (c < done || p in arrived)
  }

  /** A fetch that failed: the runs before chunk `done` were fetched and marked fresh, the
      run that ends at `hi` was being fetched. Nothing is protected again. */
  function FetchAborted(m: Mirror, lo: nat, done: nat, hi: nat, arrived: set<nat>): (r: Mirror)
    requires m.Shaped()
    ensures r.Shaped()
  {
    m.(host := ArrivedHost(m, lo, done, hi, arrived),
      prot := OpenedProt(m, lo, hi), chunks := MarkedFresh(m.chunks, lo, done))
  }

  /** A page that a failed fetch leaves in a bad state: writable though stale, or, when its
      run was fetched, writable though no flush will look at it. */
  predicate LeftOpen(m: Mirror, lo: nat, done: nat, hi: nat, p: nat)
    requires m.Shaped() && p < |m.host|
  {
    var c := ChunkOf(m.k, p);
    lo <= c < hi && !m.chunks[c] && (done <= c || !m.fullDirty)
  }

  lemma AbortHarmless(m: Mirror, lo: nat, done: nat, hi: nat, arrived: set<nat>)
    requires Inv(m) && m.stale && lo <= done <= hi
    requires forall p: nat :: p < |m.host| ==> !LeftOpen(m, lo, done, hi, p)
    ensures Inv(FetchAborted(m, lo, done, hi, arrived))
  {
    var r := FetchAborted(m, lo, done, hi, arrived);
    forall p: nat | p < |m.host|
      ensures r.Fresh(p) <==> m.Fresh(p) || lo <= ChunkOf(m.k, p) < done
      ensures !r.Fresh(p) ==> r.prot[p] == m.prot[p]
      ensures r.prot[p] == m.prot[p] || m.fullDirty
      ensures r.host[p] == if !m.Fresh(p) && r.Fresh(p) then m.server[p] else m.host[p]
      ensures Pushed(r, p) <==> Pushed(m, p)
    {
      assert !LeftOpen(m, lo, done, hi, p);
    }
  }

  /** A failed fetch leaves the mirror coherent exactly when there is no such page. */
  lemma AbortCoherentIff(m: Mirror, lo: nat, done: nat, hi: nat, arrived: set<nat>)
    requires Inv(m) && m.stale && lo <= done <= hi
    ensures Inv(FetchAborted(m, lo, done, hi, arrived)) <==>
      !(exists p: nat :: p < |m.host| && LeftOpen(m, lo, done, hi, p))
  {
    var r := FetchAborted(m, lo, done, hi, arrived);
    if p: nat :| p < |m.host| && LeftOpen(m, lo, done, hi, p) {
      assert r.prot[p] == ReadWrite && p !in m.queued;
      assert !r.Fresh(p) || !Pushed(r, p);
    } else {
      AbortHarmless(m, lo, done, hi, arrived);
    }
  }

  /** Served: after a failed fetch the host reads its old byte from a page that did not
      arrive, where plain memory has the server's. */
  lemma AbortServesStale(m: Mirror, lo: nat, done: nat, hi: nat, arrived: set<nat>, p: nat, o: nat)
    requires Inv(m) && m.stale && !m.deviceDirty && lo <= done <= hi
    requires p < |m.host| && done <= ChunkOf(m.k, p) < hi && !m.chunks[ChunkOf(m.k, p)] && p !in arrived
    requires o < |m.host[p]|
    ensures var r := FetchAborted(m, lo, done, hi, arrived);
      && IsRun(r, [Read(p, o)]) && Reads(r, [Read(p, o)]) == [m.host[p][o]]
      && Memory(m)[p][o] == m.server[p][o]
  {
    var r := FetchAborted(m, lo, done, hi, arrived);
    assert Enabled(r, Read(p, o));
    assert [Read(p, o)][1..] == [];
    assert IsRun(Apply(r, Read(p, o)), []);
  }

  /** A kernel that changes nothing. */
  const Idle: seq<Page> -> seq<Page> := mem => mem

  /** A launch, flush included, and the sync after it leave `stays` as the page's bytes. */
  ghost predicate GoesUnsent(w: Mirror, p: nat, stays: Page)
    requires w.Shaped() && p < |w.host|
  {
    && Enabled(w, Launch(Idle))
    && var l := Apply(w, Launch(Idle));
    && l.Shaped() && l.server[p] == stays
    && Enabled(l, Sync) && Memory(Apply(l, Sync))[p] == stays
  }

  /** Lost: a write to a page that an earlier run of the failed fetch had brought never
      reaches the server. The next launch's flush does not send it, and the sync after that
      takes it from the host too, while plain memory keeps it throughout. */
  lemma AbortLosesWrite(m: Mirror, lo: nat, done: nat, hi: nat, arrived: set<nat>, p: nat, o: nat, b: byte)
    requires Inv(m) && m.stale && !m.deviceDirty && !m.fullDirty && lo <= done <= hi
    requires p < |m.host| && lo <= ChunkOf(m.k, p) < done && !m.chunks[ChunkOf(m.k, p)]
    requires o < |m.host[p]|
    ensures var r := FetchAborted(m, lo, done, hi, arrived);
      && Enabled(r, Write(p, o, b))
      && Memory(Apply(r, Write(p, o, b)))[p] == m.server[p][o := b]
      && GoesUnsent(Apply(r, Write(p, o, b)), p, m.server[p])
  {
    var r := FetchAborted(m, lo, done, hi, arrived);
    AbortedWrite(m, r, lo, done, hi, arrived, p, o, b);
    var w := Apply(r, Write(p, o, b));
    UnqueuedIsNotSent(w, p);
  }

  lemma AbortedWrite(m: Mirror, r: Mirror, lo: nat, done: nat, hi: nat, arrived: set<nat>, p: nat, o: nat, b: byte)
    requires Inv(m) && m.stale && !m.deviceDirty && !m.fullDirty && lo <= done <= hi
    requires p < |m.host| && lo <= ChunkOf(m.k, p) < done && !m.chunks[ChunkOf(m.k, p)]
    requires o < |m.host[p]| && r == FetchAborted(m, lo, done, hi, arrived)
    ensures Enabled(r, Write(p, o, b))
    ensures var w := Apply(r, Write(p, o, b));
      w.Shaped() && w.Fresh(p) && !Pushed(w, p) && !w.fullDirty && !w.deviceDirty
      && w.host[p] == m.server[p][o := b] && w.server == m.server
  {
  }

  /** A page that is neither queued nor fully dirty stays off the wire. */
  lemma UnqueuedIsNotSent(w: Mirror, p: nat)
    requires w.Shaped() && p < |w.host| && !Pushed(w, p) && !w.fullDirty
    ensures GoesUnsent(w, p, w.server[p])
  {
    var f := Flushed(w, |w.chunks|);
    assert f.server[p] == w.server[p];
    assert forall q: nat :: q < |w.server| ==> |f.server[q]| == |w.server[q]|;
  }

  /** A full flush of a stale allocation whose fetch failed: it goes on and sends
      everything. */
  function FlushedAnyway(m: Mirror, done: nat, hi: nat, arrived: set<nat>): Mirror
    requires m.Shaped()
  {
    Push(FetchAborted(m, 0, done, hi, arrived))
  }

  /** That is coherent exactly when the failed fetch left no stale page behind. */
  lemma FlushCoherentIff(m: Mirror, done: nat, hi: nat, arrived: set<nat>)
    requires Inv(m) && m.stale && m.fullDirty && done <= hi
    ensures Inv(FlushedAnyway(m, done, hi, arrived))
      <==> !(exists p: nat :: p < |m.host| && !m.Fresh(p) && done <= ChunkOf(m.k, p))
  {
    var b := FetchAborted(m, 0, done, hi, arrived);
    if p: nat :| p < |m.host| && !m.Fresh(p) && done <= ChunkOf(m.k, p) {
      assert !b.Fresh(p) && Pushed(b, p);
      assert FlushedAnyway(m, done, hi, arrived).prot[p] == ReadOnly && !FlushedAnyway(m, done, hi, arrived).Fresh(p);
    } else {
      AbortHarmless(m, 0, done, hi, arrived);
      PushInv(b);
    }
  }

  /** The flush overwrites the server's bytes of a stale page, which are the memory's,
      with the host's old ones, unless the page had arrived. */
  lemma FlushOverwritesServer(m: Mirror, done: nat, hi: nat, arrived: set<nat>, p: nat)
    requires Inv(m) && m.stale && m.fullDirty && done <= hi
    requires p < |m.host| && !m.Fresh(p) && done <= ChunkOf(m.k, p) && !(p in arrived && ChunkOf(m.k, p) < hi)
    ensures var f := FlushedAnyway(m, done, hi, arrived);
      Memory(m)[p] == m.server[p] && f.server[p] == m.host[p] == Memory(f)[p]
  {
  }

  // ------------------------------------------------- a flush inside the handler

  /** The mirror when a flush comes between the handler's queueing of a page and its
      unprotecting of it. */
  function SplitHandler(m: Mirror, p: nat): Mirror
    requires m.Shaped() && p < |m.host|
  {
    var f := Flushed(m.(queued := m.queued + {p}), |m.chunks|);
    f.(prot := f.prot[p := ReadWrite])
  }

  /** The page then takes writes that memory shows, that no later flush sends, and that the
      synchronisation after the next launch takes from the host as well. */
  lemma SplitHandlerLosesPage(m: Mirror, p: nat, o: nat, b: byte)
    requires Inv(m) && !m.deviceDirty && p < |m.host| && m.Fresh(p) && o < |m.host[p]|
    ensures var r := SplitHandler(m, p);
      && r.Shaped() && Enabled(r, Write(p, o, b)) && !Pushed(r, p)
      && Memory(Apply(r, Write(p, o, b)))[p] == m.host[p][o := b]
      && GoesUnsent(Apply(r, Write(p, o, b)), p, m.host[p])
  {
    var r := SplitHandler(m, p);
    SplitPage(m, p);
    UnqueuedIsNotSent(Apply(r, Write(p, o, b)), p);
  }

  lemma SplitPage(m: Mirror, p: nat)
    requires Inv(m) && !m.deviceDirty && p < |m.host| && m.Fresh(p)
    ensures var r := SplitHandler(m, p);
      && r.Shaped() && r.Fresh(p) && r.prot[p] == ReadWrite && !r.deviceDirty && !r.fullDirty && r.queued == {}
      && r.host[p] == m.host[p] == r.server[p] && |r.host| == |m.host|
  {
    var q := m.(queued := m.queued + {p});
    BeforeSplit(q, p);
    hide Inv, Fetched;
  }

  /** Fetching what is stale leaves a fresh page alone. */
  lemma BeforeSplit(q: Mirror, p: nat)
    requires q.Shaped() && p < |q.host| && q.Fresh(p)
    ensures var b := BeforePush(q, |q.chunks|);
      && b.Fresh(p) && b.host[p] == q.host[p] && |b.host| == |q.host| && b.deviceDirty == q.deviceDirty
      && b.queued == q.queued && b.fullDirty == q.fullDirty
  {
  }
}
