/** The CUDA driver as the staging code sees it. A copy reads its host buffer at any time
    between submission and completion; any call may fail; a failed submission may still
    be outstanding. A successful event or stream wait says that everything submitted to
    the stream before the mark is finished. */
module Cuda {
  import opened Payload

  /** A host-to-device copy; `data` is what the buffer held at submission. */
  datatype Job = Job(id: nat, stream: nat, buf: nat, off: nat, dst: nat, data: seq<byte>)

  /** A recorded event: everything on `stream` submitted before `at`. */
  datatype Mark = Mark(stream: nat, at: nat)

  const LEGACY: nat := 0   // the legacy stream

  datatype Status = Success | NotReady | Failure

  /** `owner` says which staging record a buffer or event was created for. `jobs` are the
      copies that may be outstanding and `log` is every attempted one, in order. */
  datatype Gpu = Gpu(buffers: map<nat, seq<byte>>, owner: map<nat, nat>, jobs: set<Job>,
                     marks: map<nat, Mark>, next: nat, log: seq<Job>)
  {
    /** Every outstanding copy would still read the bytes it was submitted with: its
        buffer has been neither freed nor overwritten. */
    ghost predicate Intact() {
      forall j :: j in jobs ==> Reads(j, buffers)
    }

    ghost predicate Numbered() {
      && (forall x :: x in owner ==> x < next)
      && (forall x :: x in buffers ==> x in owner)
      && (forall x :: x in marks ==> x in owner)
      && (forall j :: j in jobs ==> j.id < next && j.buf in owner)
    }

    ghost predicate Valid() { Intact() && Numbered() }
  }

  ghost predicate Reads(j: Job, buffers: map<nat, seq<byte>>) {
    && j.buf in buffers
    && j.off + |j.data| <= |buffers[j.buf]|
    && buffers[j.buf][j.off..j.off + |j.data|] == j.data
  }

  /** No copy from the buffer may be outstanding. */
  predicate Idle(jobs: set<Job>, ptr: Option<nat>) {
    ptr.Some? ==> forall j :: j in jobs ==> j.buf != ptr.value
  }

  /** A wait on the mark would account for every copy from the buffer. */
  predicate Covered(jobs: set<Job>, ptr: Option<nat>, mark: Mark) {
    ptr.Some? ==> forall j :: j in jobs && j.buf == ptr.value ==> Before(j, mark)
  }

  predicate Before(j: Job, mark: Mark) { j.stream == mark.stream && j.id < mark.at }

  /** Everything before the mark is finished. */
  predicate Passed(jobs: set<Job>, mark: Mark) { forall j :: j in jobs ==> !Before(j, mark) }

  /** Some copies completed and nothing else happened. */
  predicate Progress(g: Gpu, h: Gpu) { h == g.(jobs := h.jobs) && h.jobs <= g.jobs }

  // ---------------------------------------------------------------- driver calls

  /** Copies complete whenever they like. */
  method Elapse(g: Gpu) returns (h: Gpu)
    requires g.Valid()
    ensures h.Valid() && Progress(g, h)
  {
    var done: set<Job> := *;
    h := g.(jobs := g.jobs - done);
  }

  /** cuEventQuery; an event that was never recorded tells nothing. */
  method EventQuery(g: Gpu, event: nat) returns (r: Status, h: Gpu)
    requires g.Valid()
    ensures h.Valid() && Progress(g, h)
    ensures r.Success? && event in g.marks ==> Passed(h.jobs, g.marks[event])
  {
    h := Elapse(g);
    r := *;
    if r.Success? && event in h.marks && !Passed(h.jobs, h.marks[event]) {
      r := NotReady;
    }
  }

  /** cuEventSynchronize and, with the mark of the moment, cuStreamSynchronize. */
  method WaitFor(g: Gpu, mark: Mark) returns (ok: bool, h: Gpu)
    requires g.Valid()
    ensures h.Valid() && Progress(g, h)
    ensures ok ==> Passed(h.jobs, mark)
  {
    h := Elapse(g);
    ok := *;
    if ok {
      h := h.(jobs := set j | j in h.jobs && !Before(j, mark));
    }
  }

  /** cuEventRecord; a failed record leaves what the event stood for. */
  method EventRecord(g: Gpu, event: nat, stream: nat) returns (ok: bool, h: Gpu)
    requires g.Valid() && event in g.owner
    ensures h.Valid() && h.jobs <= g.jobs
    ensures h == g.(jobs := h.jobs, marks := if ok then g.marks[event := Mark(stream, g.next)] else g.marks)
    ensures OnlyFor(g, h, g.owner[event])
  {
    h := Elapse(g);
    ok := *;
    if ok {
      h := h.(marks := h.marks[event := Mark(stream, h.next)]);
    }
  }

  method EventCreate(g: Gpu, k: nat) returns (event: Option<nat>, h: Gpu)
    requires g.Valid()
    ensures h.Valid() && h.jobs <= g.jobs
    ensures event.None? ==> h == g.(jobs := h.jobs)
    ensures OnlyFor(g, h, k)
    ensures event.Some? ==>
      event.value !in g.owner && h == g.(jobs := h.jobs, owner := g.owner[event.value := k], next := h.next)
    ensures g.next <= h.next
  {
    h := Elapse(g);
    event := None;
    var ok: bool := *;
    if ok {
      event := Some(h.next);
      h := h.(owner := h.owner[h.next := k], next := h.next + 1);
    }
  }

  method HostAlloc(g: Gpu, k: nat, size: nat) returns (ptr: Option<nat>, h: Gpu)
    requires g.Valid()
    ensures h.Valid() && h.jobs <= g.jobs && g.next <= h.next && OnlyFor(g, h, k)
    ensures ptr.None? ==> h == g.(jobs := h.jobs)
    ensures ptr.Some? ==>
      && ptr.value !in g.owner && ptr.value in h.buffers && |h.buffers[ptr.value]| == size
      && Idle(h.jobs, ptr)
      && h == g.(jobs := h.jobs, owner := g.owner[ptr.value := k],
        buffers := g.buffers[ptr.value := h.buffers[ptr.value]], next := h.next)
  {
    h := Elapse(g);
    ptr := None;
    var ok: bool := *;
    if ok {
      ptr := Some(h.next);
      h := h.(owner := h.owner[h.next := k], buffers := h.buffers[h.next := seq(size, _ => 0)], next := h.next + 1);
    }
  }

  /** cuMemFreeHost: only a buffer that no outstanding copy may read. */
  method FreeHost(g: Gpu, ptr: nat) returns (ok: bool, h: Gpu)
    requires g.Valid() && Idle(g.jobs, Some(ptr))
    ensures h.Valid() && h.jobs <= g.jobs
    ensures h == g.(jobs := h.jobs, buffers := if ok then g.buffers - {ptr} else g.buffers)
  {
    h := Elapse(g);
    ok := *;
    if ok {
      h := h.(buffers := h.buffers - {ptr});
    }
  }

  predicate Untouched(jobs: set<Job>, ptr: nat, off: nat, size: nat) {
    forall j :: j in jobs && j.buf == ptr ==> j.off + |j.data| <= off || off + size <= j.off
  }

  function Splice(buffer: seq<byte>, off: nat, data: seq<byte>): (r: seq<byte>)
    requires off + |data| <= |buffer|
    ensures |r| == |buffer| && r[off..off + |data|] == data
  {
    buffer[..off] + data + buffer[off + |data|..]
  }

  lemma SpliceElsewhere(buffer: seq<byte>, off: nat, data: seq<byte>, lo: nat, hi: nat)
    requires off + |data| <= |buffer| && lo <= hi <= |buffer| && (hi <= off || off + |data| <= lo)
    ensures Splice(buffer, off, data)[lo..hi] == buffer[lo..hi]
  {
  }

  /** The receiving code fills part of a buffer that no outstanding copy may read. */
  method WriteHost(g: Gpu, ptr: nat, off: nat, data: seq<byte>) returns (h: Gpu)
    requires g.Valid() && ptr in g.buffers && off + |data| <= |g.buffers[ptr]|
    requires Untouched(g.jobs, ptr, off, |data|)
    ensures h.Valid() && h == g.(buffers := g.buffers[ptr := Splice(g.buffers[ptr], off, data)])
  {
    h := g.(buffers := g.buffers[ptr := Splice(g.buffers[ptr], off, data)]);
    forall j | j in h.jobs
      ensures Reads(j, h.buffers)
    {
      assert Reads(j, g.buffers);
      if j.buf == ptr {
        SpliceElsewhere(g.buffers[ptr], off, data, j.off, j.off + |j.data|);
      }
    }
  }

  /** cuMemcpyHtoDAsync_v2. */
  method CopyAsync(g: Gpu, ptr: nat, off: nat, size: nat, dst: nat, stream: nat)
    returns (ok: bool, h: Gpu, ghost job: Job)
    requires g.Valid() && ptr in g.buffers && off + size <= |g.buffers[ptr]|
    ensures h.Valid() && job == Job(g.next, stream, ptr, off, dst, g.buffers[ptr][off..off + size])
    ensures h.jobs <= g.jobs + {job} && h.next == g.next + 1
    ensures h == g.(jobs := h.jobs, log := g.log + [job], next := h.next)
    ensures OnlyFor(g, h, g.owner[ptr])
  {
    var copy := Job(g.next, stream, ptr, off, dst, g.buffers[ptr][off..off + size]);
    job := copy;
    h := g.(jobs := g.jobs + {copy}, log := g.log + [copy], next := g.next + 1);
    assert Reads(copy, h.buffers);
    h := Elapse(h);
    ok := *;
  }

  /** cuMemcpyHtoD_v2: its buffer is idle again when it returns. */
  method CopySync(g: Gpu, ptr: nat, size: nat, dst: nat) returns (ok: bool, h: Gpu, ghost job: Job)
    requires g.Valid() && ptr in g.buffers && size <= |g.buffers[ptr]|
    ensures h.Valid() && h.jobs <= g.jobs && h.next == g.next + 1
    ensures job.stream == LEGACY && job.dst == dst && job.data == g.buffers[ptr][..size]
    ensures h == g.(jobs := h.jobs, log := g.log + [job], next := h.next)
  {
    var copy := Job(g.next, LEGACY, ptr, 0, dst, g.buffers[ptr][..size]);
    job := copy;
    h := g.(log := g.log + [copy], next := g.next + 1);
    h := Elapse(h);
    ok := *;
  }

  // ---------------------------------------------------------- staging records

  /** What a staging record claims: that its buffer is idle, that its event accounts for
      every copy, or nothing. */
  datatype Guard = Free | Flying | Unknown

  ghost predicate Guarded(g: Gpu, k: nat, ptr: Option<nat>, event: Option<nat>, guard: Guard) {
    && (ptr.Some? ==> ptr.value in g.buffers && ptr.value in g.owner && g.owner[ptr.value] == k)
    && (event.Some? ==> event.value in g.owner && g.owner[event.value] == k)
    && (guard.Free? ==> Idle(g.jobs, ptr))
    && (guard.Flying? ==> event.Some? && event.value in g.marks && Covered(g.jobs, ptr, g.marks[event.value]))
  }

  /** What changed from `g` to `h` belongs to record `k`. */
  ghost predicate OnlyFor(g: Gpu, h: Gpu, k: nat) {
    && g.next <= h.next
    && (forall x :: x in g.owner ==> x in h.owner && h.owner[x] == g.owner[x])
    && (forall x :: x in g.buffers && x in g.owner && g.owner[x] != k ==>
      x in h.buffers && h.buffers[x] == g.buffers[x])
    && (forall x :: x in g.marks && x in g.owner && g.owner[x] != k ==> x in h.marks && h.marks[x] == g.marks[x])
    && (forall j :: j in h.jobs ==> j in g.jobs || (j.buf in h.owner && h.owner[j.buf] == k))
  }

  /** Nobody else's claim is affected. */
  lemma OthersGuarded(g: Gpu, h: Gpu, k: nat, other: nat, ptr: Option<nat>, event: Option<nat>, guard: Guard)
    requires g.Valid() && OnlyFor(g, h, k) && other != k
    requires Guarded(g, other, ptr, event, guard)
    ensures Guarded(h, other, ptr, event, guard)
    ensures ptr.Some? ==> h.buffers[ptr.value] == g.buffers[ptr.value]
  {
  }

  lemma ProgressOnly(g: Gpu, h: Gpu, k: nat)
    requires Progress(g, h)
    ensures OnlyFor(g, h, k)
  {
  }

  lemma OnlyForTwice(g: Gpu, h: Gpu, i: Gpu, k: nat)
    requires g.Valid() && OnlyFor(g, h, k) && OnlyFor(h, i, k)
    ensures OnlyFor(g, i, k)
  {
  }

  /** A query that succeeds frees the buffer it guards. */
  lemma QueryFrees(g: Gpu, h: Gpu, k: nat, ptr: Option<nat>, event: Option<nat>)
    requires Guarded(g, k, ptr, event, Flying) && Progress(g, h)
    requires Passed(h.jobs, g.marks[event.value])
    ensures Guarded(h, k, ptr, event, Free)
  {
  }

  // ------------------------------------------------------- what copies deliver

  /** The copies carry `data` to `dst` piece by piece, all on `stream`. */
  ghost predicate Carries(copies: seq<Job>, stream: nat, dst: nat, data: seq<byte>)
    decreases |copies|
  {
    if copies == [] then data == []
    else
      var j := copies[|copies| - 1];
      var cut := |data| - |j.data|;
      0 <= cut && j.stream == stream && j.dst == dst + cut &&
        j.data == data[cut..] && Carries(copies[..|copies| - 1], stream, dst, data[..cut])
  }

  lemma CarriesMore(copies: seq<Job>, stream: nat, dst: nat, data: seq<byte>, j: Job)
    requires Carries(copies, stream, dst, data) && j.dst == dst + |data| && j.stream == stream
    ensures Carries(copies + [j], stream, dst, data + j.data)
  {
    var more := copies + [j];
    assert more[..|more| - 1] == copies;
    assert (data + j.data)[..|data|] == data && (data + j.data)[|data|..] == j.data;
  }

  /** Two runs of copies, one after the other. */
  lemma {:induction false} CarriesBoth(a: seq<Job>, b: seq<Job>,
      stream: nat, dst: nat, first: seq<byte>, second: seq<byte>)
    requires Carries(a, stream, dst, first) && Carries(b, stream, dst + |first|, second)
    ensures Carries(a + b, stream, dst, first + second)
    decreases |b|
  {
    if b == [] {
      assert a + b == a && first + second == first;
    } else {
      var j := b[|b| - 1];
      var cut := |second| - |j.data|;
      CarriesBoth(a, b[..|b| - 1], stream, dst, first, second[..cut]);
      CarriesMore(a + b[..|b| - 1], stream, dst, first + second[..cut], j);
      assert a + b == a + b[..|b| - 1] + [j];
      assert first + second == first + second[..cut] + j.data;
    }
  }

  /** Since the log was `before`, `copies` were submitted and carry data[from..upto]. */
  ghost predicate Staged(before: seq<Job>, log: seq<Job>, copies: seq<Job>,
      stream: nat, dst: nat, data: seq<byte>, from: nat, upto: nat) {
    from <= upto <= |data| && log == before + copies && Carries(copies, stream, dst, data[from..upto])
  }

  lemma StagedNothing(log: seq<Job>, stream: nat, dst: nat, data: seq<byte>, from: nat)
    requires from <= |data|
    ensures Staged(log, log, [], stream, dst, data, from, from)
  {
    assert data[from..from] == [];
  }

  lemma StagedMore(before: seq<Job>, log: seq<Job>, copies: seq<Job>,
      stream: nat, dst: nat, data: seq<byte>, from: nat, upto: nat, chunk: nat, job: Job)
    requires Staged(before, log, copies, stream, dst, data, from, upto) && upto + chunk <= |data|
    requires job.stream == stream && job.dst == dst + (upto - from) && job.data == data[upto..upto + chunk]
    ensures Staged(before, log + [job], copies + [job], stream, dst, data, from, upto + chunk)
  {
    CarriesMore(copies, stream, dst, data[from..upto], job);
    assert data[from..upto] + job.data == data[from..upto + chunk];
    assert before + copies + [job] == before + (copies + [job]);
  }

  /** Two stretches of copies, one after the other. */
  lemma StagedBoth(before: seq<Job>, between: seq<Job>, log: seq<Job>,
      first: seq<Job>, second: seq<Job>, stream: nat, dst: nat, data: seq<byte>, cut: nat)
    requires Staged(before, between, first, stream, dst, data, 0, cut)
    requires Staged(between, log, second, stream, dst + cut, data, cut, |data|)
    ensures Staged(before, log, first + second, stream, dst, data, 0, |data|)
  {
    CarriesBoth(first, second, stream, dst, data[0..cut], data[cut..|data|]);
    assert data[0..cut] + data[cut..|data|] == data[0..|data|];
    assert before + first + second == before + (first + second);
  }

  lemma StagedAll(before: seq<Job>, log: seq<Job>, copies: seq<Job>,
      stream: nat, dst: nat, data: seq<byte>, from: nat, upto: nat)
    requires Staged(before, log, copies, stream, dst, data, from, upto)
    ensures log == before + copies && (upto == |data| ==> Carries(copies, stream, dst, data[from..]))
  {
    assert upto == |data| ==> data[from..upto] == data[from..];
  }

  type Memory = nat -> byte

  /** Device memory after one copy, and after copies completing in the given order. */
  function Deposit(mem: Memory, j: Job): Memory {
    (x: nat) => if j.dst <= x < j.dst + |j.data| then j.data[x - j.dst] else mem(x)
  }

  function DepositAll(mem: Memory, order: seq<Job>): Memory
    decreases |order|
  {
    if order == [] then mem else Deposit(DepositAll(mem, order[..|order| - 1]), order[|order| - 1])
  }

  /** `data` at `dst` and everything else as it was. */
  function Blit(mem: Memory, dst: nat, data: seq<byte>, x: nat): byte {
    if dst <= x < dst + |data| then data[x - dst] else mem(x)
  }

  /** The copy's bytes are the slice of `data` at its place. */
  ghost predicate PieceOf(j: Job, dst: nat, data: seq<byte>) {
    dst <= j.dst && j.dst - dst + |j.data| <= |data| && j.data == data[j.dst - dst..j.dst - dst + |j.data|]
  }

  predicate Lands(j: Job, x: nat) { j.dst <= x < j.dst + |j.data| }

  ghost predicate LandedBy(copies: seq<Job>, x: nat) { exists i: nat :: i < |copies| && Lands(copies[i], x) }

  lemma PieceOfPrefix(j: Job, dst: nat, data: seq<byte>, cut: nat)
    requires cut <= |data| && PieceOf(j, dst, data[..cut])
    ensures PieceOf(j, dst, data)
  {
    var lo, hi := j.dst - dst, j.dst - dst + |j.data|;
    assert data[..cut][lo..hi] == data[lo..hi];
  }

  lemma {:induction false} CarriesPieces(copies: seq<Job>, stream: nat, dst: nat, data: seq<byte>)
    requires Carries(copies, stream, dst, data)
    ensures forall j :: j in copies ==> PieceOf(j, dst, data)
    decreases |copies|
  {
    if copies != [] {
      var last := |copies| - 1;
      var cut := |data| - |copies[last].data|;
      CarriesPieces(copies[..last], stream, dst, data[..cut]);
      forall i | i in copies
        ensures PieceOf(i, dst, data)
      {
        if i in copies[..last] {
          PieceOfPrefix(i, dst, data, cut);
        } else {
          assert i == copies[last];
        }
      }
    }
  }

  lemma {:induction false} CarriesCovers(copies: seq<Job>, stream: nat, dst: nat, data: seq<byte>, x: nat)
    requires Carries(copies, stream, dst, data) && dst <= x < dst + |data|
    ensures LandedBy(copies, x)
    decreases |copies|
  {
    if copies != [] {
      var last := |copies| - 1;
      var cut := |data| - |copies[last].data|;
      if x < dst + cut {
        CarriesCovers(copies[..last], stream, dst, data[..cut], x);
        var i: nat :| i < last && Lands(copies[..last][i], x);
        assert Lands(copies[i], x);
      } else {
        assert Lands(copies[last], x);
      }
    }
  }

  /** Whatever order pieces of `data` land in, each address ends up with its byte. */
  lemma {:induction false} DepositPieces(mem: Memory, order: seq<Job>, dst: nat, data: seq<byte>, x: nat)
    requires forall j :: j in order ==> PieceOf(j, dst, data)
    ensures LandedBy(order, x) ==> dst <= x < dst + |data| && DepositAll(mem, order)(x) == data[x - dst]
    ensures !LandedBy(order, x) ==> DepositAll(mem, order)(x) == mem(x)
    decreases |order|
  {
    hide PieceOf;
    if order != [] {
      var last := |order| - 1;
      var j, rest := order[last], order[..last];
      assert j in order && forall i :: i in rest ==> i in order;
      DepositPieces(mem, rest, dst, data, x);
      LandedLast(order, x);
      if Lands(j, x) {
        PieceAt(j, dst, data, x);
      }
    }
  }

  lemma PieceAt(j: Job, dst: nat, data: seq<byte>, x: nat)
    requires PieceOf(j, dst, data) && Lands(j, x)
    ensures dst <= x < dst + |data| && j.data[x - j.dst] == data[x - dst]
  {
  }

  lemma LandedLast(order: seq<Job>, x: nat)
    requires order != []
    ensures LandedBy(order, x) <==> Lands(order[|order| - 1], x) || LandedBy(order[..|order| - 1], x)
  {
    var last := |order| - 1;
    if i: nat :| i < last && Lands(order[..last][i], x) {
      assert Lands(order[i], x);
    }
    if i: nat :| i < last && Lands(order[i], x) {
      assert Lands(order[..last][i], x);
    }
  }

  /** Once all the copies are complete, in whatever order, device memory holds `data` at
      `dst` and is otherwise as it was. */
  ghost predicate Delivers(copies: seq<Job>, dst: nat, data: seq<byte>) {
    forall mem: Memory, order: seq<Job>, x: nat :: (forall j :: j in order <==> j in copies) ==>
      DepositAll(mem, order)(x) == Blit(mem, dst, data, x)
  }

  lemma CarriedIsDelivered(copies: seq<Job>, stream: nat, dst: nat, data: seq<byte>)
    requires Carries(copies, stream, dst, data)
    ensures Delivers(copies, dst, data)
  {
    forall mem: Memory, order: seq<Job>, x: nat | forall j :: j in order <==> j in copies
      ensures DepositAll(mem, order)(x) == Blit(mem, dst, data, x)
    {
      CarriedCopiesBlit(mem, copies, order, stream, dst, data, x);
    }
  }

  /** Copies that carry `data` to `dst` leave exactly `data` there and change nothing
      else, in whatever order they complete. */
  lemma CarriedCopiesBlit(mem: Memory, copies: seq<Job>,
      order: seq<Job>, stream: nat, dst: nat, data: seq<byte>, x: nat)
    requires Carries(copies, stream, dst, data)
    requires forall j :: j in order <==> j in copies
    ensures DepositAll(mem, order)(x) == Blit(mem, dst, data, x)
  {
    CarriesPieces(copies, stream, dst, data);
    DepositPieces(mem, order, dst, data, x);
    if dst <= x < dst + |data| {
      CarriesCovers(copies, stream, dst, data, x);
      var i: nat :| i < |copies| && Lands(copies[i], x);
      assert copies[i] in order;
      var k: nat :| k < |order| && order[k] == copies[i];
      assert Lands(order[k], x);
    } else if LandedBy(order, x) {
      assert false;
    }
  }
}
