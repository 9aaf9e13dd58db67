/** A fetch taken apart. It makes a run of stale chunks writable, the run's pages arrive one
    by one, the run is marked fresh, further runs may follow, and at the end the whole span
    is protected again. */
module Fetching {
  import opened Payload
  import opened Mirror
  import M = Mirror

  /** `was` are the chunk flags the fetch began with. The stale chunks of [lo, done) have
      been fetched, those of [done, hi) are being fetched, and `arrived` of their pages
      are there. */
  datatype Fetch = Fetch(was: seq<bool>, lo: nat, done: nat, hi: nat, arrived: set<nat>)

  datatype Live = Live(m: Mirror, fetch: Option<Fetch>)

  datatype Action =
    | Open(lo: nat, at: nat, end: nat)   // a thread begins a fetch from chunk lo with the run [at, end)
    | Arrive(p: nat)
    | Land                               // the run is marked fresh
    | OpenNext(at: nat, end: nat)
    | Finish                             // lupine_finish_demand_fetch
    | Abort                              // the server or the connection failed

  /** The fetch made this page writable. */
  predicate Opened(m: Mirror, f: Fetch, p: nat)
    requires m.Shaped() && p < |m.host| && |f.was| == |m.chunks|
  {
    f.lo <= ChunkOf(m.k, p) < f.hi && !f.was[ChunkOf(m.k, p)]
  }

  ghost predicate Fits(m: Mirror, f: Fetch) {
    m.Shaped() && |f.was| == |m.chunks| && f.lo <= f.done <= f.hi <= |m.chunks|
  }

  ghost predicate Shaped(l: Live) { l.m.Shaped() && (l.fetch.Some? ==> Fits(l.m, l.fetch.value)) }

  predicate StaleRun(m: Mirror, at: nat, end: nat) {
    at <= end <= |m.chunks| && forall c: nat :: at <= c < end ==> !m.chunks[c]
  }

  predicate FreshRun(m: Mirror, lo: nat, at: nat) {
    lo <= at <= |m.chunks| && forall c: nat :: lo <= c < at ==> m.chunks[c]
  }

  /** The page belongs to the run that is being fetched. */
  predicate Awaited(m: Mirror, f: Fetch, p: nat)
    requires m.Shaped() && p < |m.host| && |f.was| == |m.chunks|
  {
    Opened(m, f, p) && !m.chunks[ChunkOf(m.k, p)]
  }

  ghost predicate Enabled(l: Live, a: Action)
    requires Shaped(l)
  {
    match a
    case Open(lo, at, end) => l.fetch.None? && l.m.stale && StaleRun(l.m, at, end) && FreshRun(l.m, lo, at)
    case Arrive(p) => l.fetch.Some? && p < |l.m.host| && Awaited(l.m, l.fetch.value, p)
    case Land =>
      l.fetch.Some?
      && forall p: nat :: p < |l.m.host| && Awaited(l.m, l.fetch.value, p) ==> p in l.fetch.value.arrived
    case OpenNext(at, end) =>
      && l.fetch.Some? && l.fetch.value.done == l.fetch.value.hi && StaleRun(l.m, at, end)
      && FreshRun(l.m, l.fetch.value.hi, at)
    case Finish => l.fetch.Some? && l.fetch.value.done == l.fetch.value.hi
    case Abort => l.fetch.Some?
  }

  ghost function Apply(l: Live, a: Action): Live
    requires Shaped(l) && Enabled(l, a)
  {
    var m := l.m;
    match a
    case Open(lo, at, end) => Live(m.(prot := OpenedProt(m, at, end)), Some(Fetch(m.chunks, lo, at, end, {})))
    case Arrive(p) =>
      var f := l.fetch.value;
      Live(m.(host := m.host[p := m.server[p]]), Some(f.(arrived := f.arrived + {p})))
    case Land =>
      var f := l.fetch.value;
      Live(m.(chunks := MarkedFresh(m.chunks, f.done, f.hi)), Some(f.(done := f.hi)))
    case OpenNext(at, end) =>
      var f := l.fetch.value;
      Live(m.(prot := OpenedProt(m, at, end)), Some(f.(done := at, hi := end, arrived := {})))
    case Finish =>
      var f := l.fetch.value;
      Live(m.(prot := Protected(m, f.lo, f.done, ReadOnly), stale := !AllFresh(m.chunks)), None)
    case Abort => l.(fetch := None)
  }

  // ----------------------------------------------------------------- invariant

  /** The mirror as it would be had the fetch protected its pages already: the fetched ones
      read-only, the others out of reach. */
  function ShutProt(m: Mirror, f: Fetch): (r: seq<Prot>)
    requires m.Shaped() && |f.was| == |m.chunks|
    ensures |r| == |m.prot|
    ensures forall p: nat :: p < |r| ==>
      r[p] == if !Opened(m, f, p) then m.prot[p] else if Awaited(m, f, p) then NoAccess else ReadOnly
  {
    seq(|m.prot|, p requires 0 <= p < |m.prot| =>
      if !Opened(m, f, p) then m.prot[p] else if Awaited(m, f, p) then NoAccess else ReadOnly)
  }

  function Shut(m: Mirror, f: Fetch): (r: Mirror)
    requires m.Shaped() && |f.was| == |m.chunks|
    ensures r.Shaped()
  {
    m.(prot := ShutProt(m, f))
  }

  ghost predicate FetchOk(m: Mirror, f: Fetch)
    requires Fits(m, f)
  {
    && m.stale
    && m.chunks == MarkedFresh(f.was, f.lo, f.done)
    && Inv(Shut(m, f))
    && (forall p: nat :: p < |m.host| && Awaited(m, f, p) && p in f.arrived ==> m.host[p] == m.server[p])
    && (forall p: nat :: p < |m.host| && Awaited(m, f, p) ==> m.prot[p] == ReadWrite)
  }

  ghost predicate LiveInv(l: Live) {
    Shaped(l) && if l.fetch.None? then Inv(l.m) else FetchOk(l.m, l.fetch.value)
  }

  // ------------------------------------------------------- the fetch's actions

  lemma ShutMemory(m: Mirror, f: Fetch)
    requires m.Shaped() && |f.was| == |m.chunks|
    ensures Memory(Shut(m, f)) == Memory(m)
    ensures forall p: nat :: p < |m.host| ==>
      (Shut(m, f).Fresh(p) <==> m.Fresh(p)) && (Pushed(Shut(m, f), p) <==> Pushed(m, p))
  {
  }

  lemma OpenKeeps(m: Mirror, lo: nat, at: nat, end: nat)
    requires Inv(m) && m.stale && StaleRun(m, at, end) && FreshRun(m, lo, at)
    ensures var l := Apply(Live(m, None), Open(lo, at, end)); LiveInv(l) && Memory(l.m) == Memory(m)
  {
    var f := Fetch(m.chunks, lo, at, end, {});
    var r := m.(prot := OpenedProt(m, at, end));
    assert MarkedFresh(m.chunks, lo, at) == m.chunks;
    assert ShutProt(r, f) == m.prot;
    assert Shut(r, f) == m;
    ShutMemory(r, f);
  }

  lemma ArriveKeeps(m: Mirror, f: Fetch, p: nat)
    requires LiveInv(Live(m, Some(f))) && Enabled(Live(m, Some(f)), Arrive(p))
    ensures var l := Apply(Live(m, Some(f)), Arrive(p)); LiveInv(l) && Memory(l.m) == Memory(m)
  {
    hide Inv, ShutProt, Memory;
    var r := m.(host := m.host[p := m.server[p]]);
    ShutMemory(m, f);
    ShutMemory(r, f);
    ArriveShut(m, f, p);
    StaleHostFree(Shut(m, f), p, m.server[p]);
    ArriveFetchOk(m, f, p);
  }

  lemma ArriveFetchOk(m: Mirror, f: Fetch, p: nat)
    requires LiveInv(Live(m, Some(f))) && Enabled(Live(m, Some(f)), Arrive(p))
    requires var r := m.(host := m.host[p := m.server[p]]); r.Shaped() && Inv(Shut(r, f))
    ensures FetchOk(m.(host := m.host[p := m.server[p]]), f.(arrived := f.arrived + {p}))
  {
    hide Inv, ShutProt;
    var r, g := m.(host := m.host[p := m.server[p]]), f.(arrived := f.arrived + {p});
    assert ShutProt(r, g) == ShutProt(r, f);
    assert forall q: nat :: q < |m.host| ==> (Awaited(r, g, q) <==> Awaited(m, f, q));
  }

  lemma ArriveShut(m: Mirror, f: Fetch, p: nat)
    requires m.Shaped() && |f.was| == |m.chunks| && p < |m.host|
    ensures var r := m.(host := m.host[p := m.server[p]]);
      r.Shaped() && Shut(r, f) == Shut(m, f).(host := r.host)
  {
    var r := m.(host := m.host[p := m.server[p]]);
    assert ShutProt(r, f) == ShutProt(m, f);
  }

  /** What the host holds of a stale page does not matter. */
  lemma StaleHostFree(m: Mirror, p: nat, page: Page)
    requires Inv(m) && p < |m.host| && !m.Fresh(p) && |page| == |m.host[p]|
    ensures var r := m.(host := m.host[p := page]); Inv(r) && Memory(r) == Memory(m)
  {
    var r := m.(host := m.host[p := page]);
    assert forall q: nat :: q < |m.host| ==> (r.Fresh(q) <==> m.Fresh(q)) && (Pushed(r, q) <==> Pushed(m, q));
  }

  /** A page becomes fresh exactly when its run lands. */
  lemma LandFresh(m: Mirror, r: Mirror, f: Fetch)
    requires LiveInv(Live(m, Some(f))) && r == m.(chunks := MarkedFresh(m.chunks, f.done, f.hi))
    ensures r.Shaped() && r.chunks == MarkedFresh(f.was, f.lo, f.hi)
    ensures forall p: nat :: p < |m.host| ==> (r.Fresh(p) <==> m.Fresh(p) || Opened(m, f, p))
    ensures forall p: nat :: p < |m.host| ==>
      ShutProt(r, f)[p] == if Opened(m, f, p) then ReadOnly else m.prot[p]
  {
    hide Inv;
  }

  lemma LandKeeps(m: Mirror, f: Fetch)
    requires LiveInv(Live(m, Some(f))) && Enabled(Live(m, Some(f)), Land)
    ensures var l := Apply(Live(m, Some(f)), Land); LiveInv(l) && Memory(l.m) == Memory(m)
  {
    var r := m.(chunks := MarkedFresh(m.chunks, f.done, f.hi));
    var g := f.(done := f.hi);
    LandFresh(m, r, f);
    assert ShutProt(r, g) == ShutProt(r, f);
    ShutMemory(m, f);
    ShutMemory(r, g);
    Landed(Shut(m, f), Shut(r, g));
  }

  /** Pages whose bytes are the server's may become fresh and readable. */
  lemma Landed(m: Mirror, r: Mirror)
    requires Inv(m) && m.stale && r == m.(prot := r.prot, chunks := r.chunks)
    requires |r.prot| == |m.prot| && |r.chunks| == |m.chunks|
    requires forall p: nat :: p < |m.host| ==>
      && (m.Fresh(p) ==> r.Fresh(p))
      && (r.Fresh(p) && !m.Fresh(p) ==> r.prot[p] == ReadOnly && m.host[p] == m.server[p])
      && (r.Fresh(p) == m.Fresh(p) ==> r.prot[p] == m.prot[p])
    ensures Inv(r) && Memory(r) == Memory(m)
  {
    assert forall q: nat :: q < |m.host| ==> (Pushed(r, q) <==> Pushed(m, q));
  }

  lemma OpenNextKeeps(m: Mirror, f: Fetch, at: nat, end: nat)
    requires LiveInv(Live(m, Some(f))) && Enabled(Live(m, Some(f)), OpenNext(at, end))
    ensures var l := Apply(Live(m, Some(f)), OpenNext(at, end)); LiveInv(l) && Memory(l.m) == Memory(m)
  {
    var r := m.(prot := OpenedProt(m, at, end));
    var g := f.(done := at, hi := end, arrived := {});
    assert m.chunks == MarkedFresh(f.was, f.lo, at);
    NextShut(m, f, at, end);
    ShutMemory(m, f);
    ShutMemory(r, g);
    hide Inv, Shut, ShutProt, Memory;
  }

  /** Shut, the mirror does not show that another run is open. */
  lemma NextShut(m: Mirror, f: Fetch, at: nat, end: nat)
    requires LiveInv(Live(m, Some(f))) && Enabled(Live(m, Some(f)), OpenNext(at, end))
    ensures Shut(m.(prot := OpenedProt(m, at, end)), f.(done := at, hi := end, arrived := {})) == Shut(m, f)
  {
    var r := m.(prot := OpenedProt(m, at, end));
    var g := f.(done := at, hi := end, arrived := {});
    assert StaleIsInaccessible(Shut(m, f));
    forall p: nat | p < |m.host|
      ensures ShutProt(r, g)[p] == ShutProt(m, f)[p]
    {
      assert !Shut(m, f).Fresh(p) ==> Shut(m, f).prot[p] == NoAccess;
    }
    assert ShutProt(r, g) == ShutProt(m, f);
  }

  lemma FinishKeeps(m: Mirror, f: Fetch)
    requires LiveInv(Live(m, Some(f))) && Enabled(Live(m, Some(f)), Finish)
    ensures var l := Apply(Live(m, Some(f)), Finish); LiveInv(l) && Memory(l.m) == Memory(m)
  {
    var r := Apply(Live(m, Some(f)), Finish).m;
    var s := Shut(m, f);
    ShutMemory(m, f);
    assert StaleIsInaccessible(s);
    forall p: nat | p < |m.host|
      ensures r.prot[p] == if f.lo <= ChunkOf(m.k, p) < f.done then ReadOnly else s.prot[p]
      ensures r.Fresh(p) <==> s.Fresh(p)
      ensures f.lo <= ChunkOf(m.k, p) < f.done ==> s.Fresh(p)
    {
    }
    Protects(s, r);
  }

  /** Making fresh pages read-only is harmless. */
  lemma Protects(m: Mirror, r: Mirror)
    requires Inv(m) && r == m.(prot := r.prot, stale := r.stale) && |r.prot| == |m.prot|
    requires forall p: nat :: p < |m.host| ==>
      (r.Fresh(p) <==> m.Fresh(p)) && (r.prot[p] == m.prot[p] || (m.Fresh(p) && r.prot[p] == ReadOnly))
    ensures Inv(r) && Memory(r) == Memory(m)
  {
    assert forall q: nat :: q < |m.host| ==> (Pushed(r, q) <==> Pushed(m, q));
  }

  /** Every action of a fetch that does not fail is invisible in memory. */
  lemma FetchKeeps(l: Live, a: Action)
    requires LiveInv(l) && Enabled(l, a) && !a.Abort?
    ensures LiveInv(Apply(l, a)) && Memory(Apply(l, a).m) == Memory(l.m)
  {
    hide Inv, FetchOk, Memory;
    match a
    case Open(lo, at, end) => OpenKeeps(l.m, lo, at, end);
    case Arrive(p) => ArriveKeeps(l.m, l.fetch.value, p);
    case Land => LandKeeps(l.m, l.fetch.value);
    case OpenNext(at, end) => OpenNextKeeps(l.m, l.fetch.value, at, end);
    case Finish => FinishKeeps(l.m, l.fetch.value);
  }

  /** To pages that are fresh already a fetch does no more than protect them. */
  lemma FetchSpares(l: Live, a: Action)
    requires LiveInv(l) && Enabled(l, a) && !a.Abort?
    ensures var r := Apply(l, a).m;
      && r == l.m.(host := r.host, prot := r.prot, chunks := r.chunks, stale := r.stale) && r.Shaped()
      && (r.stale ==> l.m.stale) && |r.host| == |l.m.host|
      && forall p: nat :: p < |l.m.host| && l.m.Fresh(p) ==>
           r.Fresh(p) && r.host[p] == l.m.host[p] && r.prot[p] in {l.m.prot[p], ReadOnly}
  {
    hide Inv;
  }

  // ------------------------------------------------ what happens beside a fetch

  lemma WritableIsFresh(m: Mirror, p: nat)
    requires Inv(m) && p < |m.host| && m.prot[p] == ReadWrite
    ensures m.Fresh(p) && Pushed(m, p)
  {
  }

  lemma ReadBeside(l: Live, p: nat, o: nat)
    requires LiveInv(l) && M.Enabled(l.m, Read(p, o))
    requires l.fetch.Some? ==> !Opened(l.m, l.fetch.value, p)
    ensures l.m.host[p] == Memory(l.m)[p]
  {
    if l.fetch.Some? {
      ShutMemory(l.m, l.fetch.value);
      assert Shut(l.m, l.fetch.value).prot[p] != NoAccess;
    }
  }

  lemma WriteBeside(l: Live, p: nat, o: nat, b: byte)
    requires LiveInv(l) && M.Enabled(l.m, Write(p, o, b))
    requires l.fetch.Some? ==> !Opened(l.m, l.fetch.value, p)
    ensures var r := M.Apply(l.m, Write(p, o, b));
      && LiveInv(l.(m := r)) && PlainEnabled(Memory(l.m), Write(p, o, b))
      && Memory(r) == PlainApply(Memory(l.m), Write(p, o, b))
    ensures l.m.Fresh(p) && Pushed(l.m, p)
  {
    var m, r := l.m, M.Apply(l.m, Write(p, o, b));
    if l.fetch.Some? {
      var f := l.fetch.value;
      ShutMemory(m, f);
      WriteRefines(Shut(m, f), p, o, b);
      assert Shut(r, f) == M.Apply(Shut(m, f), Write(p, o, b));
      ShutMemory(r, f);
      hide Inv;
      WritableIsFresh(Shut(m, f), p);
    } else {
      WriteRefines(m, p, o, b);
      WritableIsFresh(m, p);
    }
  }

  /** Other pages may be queued and marked, as long as no page is forgotten that can be
      written or that differs from the server's. */
  ghost predicate Requeueable(m: Mirror, r: Mirror) {
    && m.Shaped() && r == m.(queued := r.queued, fullDirty := r.fullDirty)
    && (forall p: nat :: p in r.queued ==> p < |m.host| && m.Fresh(p))
    && (m.deviceDirty ==> r.queued == {} && !r.fullDirty)
    && forall p: nat :: p < |m.host| && Pushed(m, p) && !Pushed(r, p) ==>
         m.prot[p] != ReadWrite && (m.Fresh(p) && !m.deviceDirty ==> m.host[p] == m.server[p])
  }

  lemma RequeuedInv(m: Mirror, r: Mirror)
    requires Inv(m) && Requeueable(m, r)
    ensures Inv(r) && Memory(r) == Memory(m)
  {
    assert forall p: nat :: p < |m.host| ==> (r.Fresh(p) <==> m.Fresh(p));
  }

  lemma RequeuedBeside(l: Live, r: Mirror)
    requires LiveInv(l) && Requeueable(l.m, r)
    ensures LiveInv(l.(m := r)) && Memory(r) == Memory(l.m)
  {
    if l.fetch.Some? {
      var f := l.fetch.value;
      var s := Shut(l.m, f);
      ShutMemory(l.m, f);
      assert ShutProt(r, f) == ShutProt(l.m, f);
      assert Requeueable(s, Shut(r, f));
      RequeuedInv(s, Shut(r, f));
      ShutMemory(r, f);
    } else {
      RequeuedInv(l.m, r);
    }
  }

  lemma ProtectedInv(m: Mirror, p: nat, prot: Prot)
    requires Inv(m) && p < |m.host| && m.Fresh(p) && (prot == ReadOnly || Pushed(m, p))
    ensures Inv(m.(prot := m.prot[p := prot])) && Memory(m.(prot := m.prot[p := prot])) == Memory(m)
  {
    var r := m.(prot := m.prot[p := prot]);
    assert forall q: nat :: q < |m.host| ==> (r.Fresh(q) <==> m.Fresh(q)) && (Pushed(r, q) <==> Pushed(m, q));
  }

  lemma ShutProtected(m: Mirror, f: Fetch, p: nat, prot: Prot)
    requires m.Shaped() && |f.was| == |m.chunks| && p < |m.host| && m.stale && m.Fresh(p)
    ensures var r, s := m.(prot := m.prot[p := prot]), Shut(m, f);
      Shut(r, f) == if Opened(m, f, p) then s else s.(prot := s.prot[p := prot])
    ensures forall q: nat :: q < |m.host| && Awaited(m, f, q) ==> q != p
  {
    var r, s := m.(prot := m.prot[p := prot]), Shut(m, f);
    assert ShutProt(r, f) == if Opened(m, f, p) then s.prot else s.prot[p := prot];
  }

  /** A fresh page may be made read-only, and writable if it is queued. */
  lemma ProtectedBeside(l: Live, p: nat, prot: Prot)
    requires LiveInv(l) && p < |l.m.host| && l.m.Fresh(p) && (prot == ReadOnly || Pushed(l.m, p))
    ensures var r := l.m.(prot := l.m.prot[p := prot]); LiveInv(l.(m := r)) && Memory(r) == Memory(l.m)
  {
    var r := l.m.(prot := l.m.prot[p := prot]);
    if l.fetch.Some? {
      var f := l.fetch.value;
      ShutMemory(l.m, f);
      ProtectedInv(Shut(l.m, f), p, prot);
      ShutProtected(l.m, f, p, prot);
      ShutMemory(r, f);
      hide Inv, Memory, Shut, ShutProt;
    } else {
      ProtectedInv(l.m, p, prot);
    }
  }

  lemma SentInv(m: Mirror, p: nat)
    requires Inv(m) && p < |m.host| && m.Fresh(p) && !m.deviceDirty
    ensures var r := m.(server := m.server[p := m.host[p]]); Inv(r) && Memory(r) == Memory(m)
  {
    var r := m.(server := m.server[p := m.host[p]]);
    assert forall q: nat :: q < |m.host| ==> (r.Fresh(q) <==> m.Fresh(q)) && (Pushed(r, q) <==> Pushed(m, q));
  }

  /** A fresh page may be sent. */
  lemma SentBeside(l: Live, p: nat)
    requires LiveInv(l) && p < |l.m.host| && l.m.Fresh(p) && !l.m.deviceDirty
    ensures var r := l.m.(server := l.m.server[p := l.m.host[p]]); LiveInv(l.(m := r)) && Memory(r) == Memory(l.m)
  {
    var r := l.m.(server := l.m.server[p := l.m.host[p]]);
    if l.fetch.Some? {
      var f := l.fetch.value;
      ShutMemory(l.m, f);
      SentInv(Shut(l.m, f), p);
      hide Inv, Memory;
      assert ShutProt(r, f) == ShutProt(l.m, f);
      ShutMemory(r, f);
    } else {
      SentInv(l.m, p);
    }
  }

  lemma QueuedFresh(l: Live)
    requires LiveInv(l)
    ensures forall p: nat :: p in l.m.queued ==> p < |l.m.host| && l.m.Fresh(p)
    ensures l.m.deviceDirty ==> l.m.queued == {} && !l.m.fullDirty
  {
    if l.fetch.Some? {
      ShutMemory(l.m, l.fetch.value);
      assert QueuedIsFresh(Shut(l.m, l.fetch.value));
    }
  }

  // ------------------------------------------------------- undisturbed fetches

  /** A fetch that began in `m` and met nobody. */
  ghost predicate Undisturbed(l: Live, m: Mirror)
    requires m.Shaped()
  {
    && l.fetch.Some? && Shaped(l) && l.fetch.value.was == m.chunks
    && l.m == FetchAborted(m, l.fetch.value.lo, l.fetch.value.done, l.fetch.value.hi, l.fetch.value.arrived)
  }

  /** Taken apart or not, it is the same fetch: when its actions follow one another, its
      state is that of the sequential model's aborted fetch, and its end is the completed
      one. */
  lemma FetchInOneGo(l: Live, m: Mirror, a: Action)
    requires m.Shaped() && m.stale && (l == Live(m, None) || Undisturbed(l, m))
    requires Shaped(l) && Enabled(l, a)
    ensures a.Open? || a.Arrive? || a.Land? || a.OpenNext? ==> Undisturbed(Apply(l, a), m)
    ensures a.Finish? ==> Apply(l, a) == Live(Fetched(m, l.fetch.value.lo, l.fetch.value.done), None)
    ensures a.Abort? ==> var f := l.fetch.value;
      Apply(l, a) == Live(FetchAborted(m, f.lo, f.done, f.hi, f.arrived), None)
  {
    match a
    case Open(lo, at, end) => OpenInOneGo(m, lo, at, end);
    case Arrive(p) => ArriveInOneGo(l, m, p);
    case Land => LandInOneGo(l, m);
    case OpenNext(at, end) => NextInOneGo(l, m, at, end);
    case Finish => FinishInOneGo(l, m);
    case Abort =>
  }

  lemma OpenInOneGo(m: Mirror, lo: nat, at: nat, end: nat)
    requires m.Shaped() && m.stale && StaleRun(m, at, end) && FreshRun(m, lo, at)
    ensures Undisturbed(Apply(Live(m, None), Open(lo, at, end)), m)
  {
    assert MarkedFresh(m.chunks, lo, at) == m.chunks;
    assert ArrivedHost(m, lo, at, end, {}) == m.host;
    assert OpenedProt(m, at, end) == OpenedProt(m, lo, end);
  }

  lemma ArriveInOneGo(l: Live, m: Mirror, p: nat)
    requires m.Shaped() && Undisturbed(l, m) && Enabled(l, Arrive(p))
    ensures Undisturbed(Apply(l, Arrive(p)), m)
  {
    var f := l.fetch.value;
    assert l.m.host[p := m.server[p]] == ArrivedHost(m, f.lo, f.done, f.hi, f.arrived + {p});
  }

  lemma LandInOneGo(l: Live, m: Mirror)
    requires m.Shaped() && Undisturbed(l, m) && Enabled(l, Land)
    ensures Undisturbed(Apply(l, Land), m)
  {
    var f := l.fetch.value;
    assert MarkedFresh(MarkedFresh(m.chunks, f.lo, f.done), f.done, f.hi) == MarkedFresh(m.chunks, f.lo, f.hi);
    assert ArrivedHost(m, f.lo, f.hi, f.hi, f.arrived) == l.m.host;
  }

  lemma NextInOneGo(l: Live, m: Mirror, at: nat, end: nat)
    requires m.Shaped() && Undisturbed(l, m) && Enabled(l, OpenNext(at, end))
    ensures Undisturbed(Apply(l, OpenNext(at, end)), m)
  {
    var f := l.fetch.value;
    assert forall c: nat :: f.done <= c < at && c < |m.chunks| ==> l.m.chunks[c] && m.chunks[c];
    assert MarkedFresh(m.chunks, f.lo, at) == l.m.chunks;
    assert ArrivedHost(m, f.lo, at, end, {}) == l.m.host;
    assert OpenedProt(l.m, at, end) == OpenedProt(m, f.lo, end);
  }

  lemma FinishInOneGo(l: Live, m: Mirror)
    requires m.Shaped() && m.stale && Undisturbed(l, m) && Enabled(l, Finish)
    ensures Apply(l, Finish) == Live(Fetched(m, l.fetch.value.lo, l.fetch.value.done), None)
  {
    var f := l.fetch.value;
    assert l.m.host == FetchedHost(m, f.lo, f.done);
    assert Protected(l.m, f.lo, f.done, ReadOnly) == Protected(m, f.lo, f.done, ReadOnly);
  }
}
