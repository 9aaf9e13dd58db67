/** Mirrored memory with all its parts taken apart: the fault handler, the flush and the
    fetch. Any number of host threads read, write and fault; each shared access of a handler,
    each page a flush protects or sends, and each page a fetch brings is a move of its own,
    and moves of different threads interleave freely.

    Two things keep to themselves. At most one fetch and at most one flush are in progress:
    state 2 and the queue's mutex see to that. And a launch, its own flush included, is one
    move that no fetch or flush overlaps, which is the hosts' promise to leave the
    memory alone from a launch to the next synchronisation; the code does not check it. */
module Coherence {
  import opened Payload
  import opened Mirror
  import opened Fetching
  import M = Mirror
  import F = Fetching

  /** What a flush took from the queue: `pages`, and with `full` the mark for all pages. It
      has made the pages in `guarded` read-only and has sent those in `sent`. */
  datatype Flushing = Flushing(pages: set<nat>, full: bool, guarded: set<nat>, sent: set<nat>)
  {
    predicate Took(p: nat) { full || p in pages }
  }

  /** `reserved` are the pages of handlers that have found the page fresh and not yet told
      the queue, `published` of those that have told it and not yet unprotected the page.
      `others` counts the handlers of the route's other allocations that have a slot of the
      queue and have not yet published it. */
  datatype State = State(l: Live, flush: Option<Flushing>,
      reserved: multiset<nat>, published: multiset<nat>, others: nat)

  datatype Move =
    | Access(s: Step)                    // a read or a write of a host thread
    | OfFetch(a: Action)
    | Reserve(p: nat)                    // handler: the page is not stale
    | Publish(p: nat, room: bool)        // handler: queue it, or mark everything dirty
    | Unprotect(p: nat)                  // handler: make it writable
    | Elsewhere(others: nat)             // handlers of other allocations come and go
    | Collect(pages: set<nat>, full: bool)
    | Guard(p: nat)
    | Send(p: nat)
    | Release                            // the flush is over
    | Fail                               // protecting or sending failed
    | LaunchKernel(kernel: seq<Page> -> seq<Page>, left: set<nat>)
    | Invalidate                         // the synchronisation after a launch

  /** What the program and the network may do.
      `shared`: a thread touches a page that a fetch in progress has opened.
      `aborts`: a fetch fails.
      `pushes`: a flush of everything goes on while something is stale.
      `split`: a flush protects a page whose handler has yet to unprotect it, and which no
      later flush will look at.
      `hasty`: a launch happens while a handler of the route is at work. */
  datatype Policy = Policy(shared: bool, aborts: bool, pushes: bool, split: bool, hasty: bool)

  const Strict := Policy(false, false, false, false, false)

  ghost predicate Shaped(s: State) { F.Shaped(s.l) }

  predicate Quiet(s: State) { s.reserved == multiset{} && s.published == multiset{} }

  predicate NoneReserved(s: State) { s.reserved == multiset{} && s.others == 0 }

  /** What a launch's flush leaves of the mirror when the scan of the queue stops before the
      slots of the pages in `left`. */
  function Launched(m: Mirror, left: set<nat>): (r: Mirror)
    requires m.Shaped()
    ensures |r.server| == |m.server|
  {
    Push(m.(queued := m.queued - left)).(queued := left)
  }

  /** A scan stops early only at a slot that is reserved and not published. */
  ghost predicate Enabled(s: State, a: Move)
    requires Shaped(s)
  {
    var m := s.l.m;
    match a
    case Access(t) => (t.Read? || t.Write?) && M.Enabled(m, t)
    case OfFetch(b) => F.Enabled(s.l, b)
    case Reserve(p) => p < |m.host| && !m.deviceDirty && m.Fresh(p)
    case Publish(p, _) => p in s.reserved && p < |m.host|
    case Unprotect(p) => p in s.published && p < |m.host|
    case Elsewhere(_) => true
    case Collect(pages, full) => s.flush.None? && pages <= m.queued && (full ==> m.fullDirty) && (pages != {} || full)
    case Guard(p) => s.flush.Some? && p < |m.host| && s.flush.value.Took(p) && p !in s.flush.value.guarded
    case Send(p) =>
      && s.flush.Some? && p < |m.host| && s.flush.value.Took(p) && p !in s.flush.value.sent
      && forall q: nat :: q < |m.host| && s.flush.value.Took(q) ==> q in s.flush.value.guarded
    case Release => s.flush.Some? && forall q: nat :: q < |m.host| && s.flush.value.Took(q) ==> q in s.flush.value.sent
    case Fail => s.flush.Some?
    case LaunchKernel(kernel, left) =>
      && s.l.fetch.None? && s.flush.None? && left <= m.queued && (NoneReserved(s) ==> left == {})
      && KeepsShape(kernel, Launched(m, left).server)
    case Invalidate => s.l.fetch.None? && m.deviceDirty
  }

  /** The policy allows the move. */
  ghost predicate Allowed(s: State, a: Move, policy: Policy)
    requires Shaped(s) && Enabled(s, a)
  {
    var m := s.l.m;
    && (!policy.shared && a.Access? && s.l.fetch.Some? ==> !Opened(m, s.l.fetch.value, a.s.p))
    && (!policy.aborts && a.OfFetch? ==> !a.a.Abort?)
    && (!policy.pushes && a.Guard? && s.flush.value.full ==> !m.stale)
    && (!policy.pushes && a.LaunchKernel? ==> !(m.fullDirty && m.stale))
    && (!policy.split && a.Guard? && a.p in s.published ==> Pushed(m, a.p))
    && (!policy.hasty && a.LaunchKernel? ==> Quiet(s) && s.others == 0)
  }

  ghost function Apply(s: State, a: Move): State
    requires Shaped(s) && Enabled(s, a)
  {
    var m := s.l.m;
    match a
    case Access(t) => s.(l := s.l.(m := M.Apply(m, t)))
    case OfFetch(b) => s.(l := F.Apply(s.l, b))
    case Reserve(p) => s.(reserved := s.reserved + multiset{p})
    case Publish(p, room) =>
      s.(reserved := s.reserved - multiset{p}, published := s.published + multiset{p},
         l := s.l.(m := if room then m.(queued := m.queued + {p}) else m.(fullDirty := true)))
    case Unprotect(p) =>
      s.(published := s.published - multiset{p}, l := s.l.(m := m.(prot := m.prot[p := ReadWrite])))
    case Elsewhere(n) => s.(others := n)
    case Collect(pages, full) =>
      s.(flush := Some(Flushing(pages, full, {}, {})),
         l := s.l.(m := m.(queued := m.queued - pages, fullDirty := m.fullDirty && !full)))
    case Guard(p) =>
      var f := s.flush.value;
      s.(flush := Some(f.(guarded := f.guarded + {p})), l := s.l.(m := m.(prot := m.prot[p := ReadOnly])))
    case Send(p) =>
      var f := s.flush.value;
      s.(flush := Some(f.(sent := f.sent + {p})), l := s.l.(m := m.(server := m.server[p := m.host[p]])))
    case Release => s.(flush := None)
    case Fail => s.(flush := None, l := s.l.(m := m.(fullDirty := true)))
    case LaunchKernel(kernel, left) =>
      var r := Launched(m, left);
      s.(l := s.l.(m := r.(server := kernel(r.server), deviceDirty := true)))
    case Invalidate => s.(l := s.l.(m := Invalidated(m)))
  }

  // ----------------------------------------------------------------- invariant

  /** The mirror as it would be were the pages of the flush in progress still queued. */
  ghost function KeptMirror(m: Mirror, flush: Option<Flushing>): Mirror {
    match flush
    case None => m
    case Some(f) => m.(queued := m.queued + f.pages, fullDirty := m.fullDirty || f.full)
  }

  ghost function Kept(s: State): Live { s.l.(m := KeptMirror(s.l.m, s.flush)) }

  /** A page that the flush has protected is not writable unless a later flush will see it,
      and one it has sent is then the server's. */
  ghost predicate FlushOk(m: Mirror, f: Flushing)
    requires m.Shaped()
  {
    && (f.pages != {} || f.full) && f.sent <= f.guarded
    && (f.full && f.guarded != {} ==> !m.stale)
    && forall p: nat :: p < |m.host| && f.Took(p) && p in f.guarded && !Pushed(m, p) ==>
         m.prot[p] != ReadWrite && (p in f.sent ==> m.host[p] == m.server[p])
  }

  /** The page is queued, or the flush in progress will still protect it. */
  ghost predicate Expected(s: State, p: nat) {
    Pushed(s.l.m, p) || (s.flush.Some? && s.flush.value.Took(p) && p !in s.flush.value.guarded)
  }

  ghost predicate HandlersOk(s: State)
    requires s.l.m.Shaped()
  {
    && (!Quiet(s) ==> !s.l.m.deviceDirty)
    && (forall p: nat :: p in s.reserved ==> p < |s.l.m.host| && s.l.m.Fresh(p))
    && (forall p: nat :: p in s.published ==> p < |s.l.m.host| && s.l.m.Fresh(p) && Expected(s, p))
  }

  ghost predicate StateInv(s: State) {
    Shaped(s) && LiveInv(Kept(s)) && (s.flush.Some? ==> FlushOk(s.l.m, s.flush.value)) && HandlersOk(s)
  }

  // ------------------------------------------------------------------ the moves

  lemma KeptSame(m: Mirror, flush: Option<Flushing>)
    requires m.Shaped()
    ensures KeptMirror(m, flush).Shaped() && Memory(KeptMirror(m, flush)) == Memory(m)
    ensures forall p: nat :: p < |m.host| ==> (KeptMirror(m, flush).Fresh(p) <==> m.Fresh(p))
    ensures forall p: nat :: Pushed(KeptMirror(m, flush), p) <==> Pushed(m, p) || (flush.Some? && flush.value.Took(p))
  {
  }

  /** What the flush is about to protect or send is fresh. */
  lemma TakenFresh(s: State, p: nat)
    requires StateInv(s) && s.flush.Some? && p < |s.l.m.host| && s.flush.value.Took(p)
    requires !s.flush.value.full || !s.l.m.stale
    ensures s.l.m.Fresh(p) && !s.l.m.deviceDirty
  {
    hide Inv, FetchOk;
    KeptSame(s.l.m, s.flush);
    QueuedFresh(Kept(s));
  }

  /** What neither a flush nor a handler at work notices. */
  ghost predicate Unnoticed(m: Mirror, r: Mirror) {
    && m.Shaped() && r.Shaped() && |r.host| == |m.host| && (r.stale ==> m.stale) && r.deviceDirty == m.deviceDirty
    && (forall p: nat :: p < |m.host| && m.Fresh(p) ==> r.Fresh(p) && (Pushed(m, p) ==> Pushed(r, p)))
    && forall p: nat :: p < |m.host| && m.Fresh(p) && !Pushed(r, p) && m.prot[p] != ReadWrite ==>
         r.prot[p] != ReadWrite && r.host[p] == m.host[p] && r.server[p] == m.server[p]
  }

  lemma Unnoticing(s: State, r: State)
    requires StateInv(s) && r == s.(l := r.l) && Unnoticed(s.l.m, r.l.m)
    ensures (r.flush.Some? ==> FlushOk(r.l.m, r.flush.value)) && HandlersOk(r)
  {
    hide LiveInv;
    var m, n := s.l.m, r.l.m;
    if s.flush.Some? {
      var f := s.flush.value;
      forall p: nat | p < |n.host| && f.Took(p) && p in f.guarded && !Pushed(n, p)
        ensures n.prot[p] != ReadWrite && (p in f.sent ==> n.host[p] == n.server[p])
      {
        TakenFresh(s, p);
      }
    }
    forall p: nat | p in s.published
      ensures p < |n.host| && n.Fresh(p) && Expected(r, p)
    {
      assert Expected(s, p);
    }
  }

  lemma ReadKeeps(s: State, p: nat, o: nat)
    requires StateInv(s) && Enabled(s, Access(Read(p, o))) && Allowed(s, Access(Read(p, o)), Strict)
    ensures s.l.m.host[p] == Memory(s.l.m)[p]
  {
    hide LiveInv;
    KeptSame(s.l.m, s.flush);
    ReadBeside(Kept(s), p, o);
  }

  lemma WriteKeeps(s: State, p: nat, o: nat, b: byte)
    requires StateInv(s) && Enabled(s, Access(Write(p, o, b))) && Allowed(s, Access(Write(p, o, b)), Strict)
    ensures var r := Apply(s, Access(Write(p, o, b)));
      StateInv(r) && PlainEnabled(Memory(s.l.m), Write(p, o, b))
      && Memory(r.l.m) == PlainApply(Memory(s.l.m), Write(p, o, b))
  {
    hide LiveInv, Memory, FlushOk, HandlersOk;
    var r := Apply(s, Access(Write(p, o, b)));
    KeptSame(s.l.m, s.flush);
    KeptSame(r.l.m, r.flush);
    assert Kept(r).m == M.Apply(Kept(s).m, Write(p, o, b));
    WriteBeside(Kept(s), p, o, b);
    Unnoticing(s, r);
  }

  lemma LiveShaped(l: Live)
    requires LiveInv(l)
    ensures F.Shaped(l)
  {
  }

  /** A fetch does not see the queue. */
  lemma FetchCommutes(s: State, a: Action)
    requires Shaped(s) && F.Enabled(s.l, a)
    ensures F.Shaped(Kept(s)) && F.Enabled(Kept(s), a)
    ensures F.Apply(Kept(s), a) == Kept(Apply(s, OfFetch(a)))
    ensures var r := F.Apply(s.l, a).m;
      r == s.l.m.(host := r.host, prot := r.prot, chunks := r.chunks, stale := r.stale)
  {
    var l, k := s.l, Kept(s);
    assert k.m.Shaped();
    match a
    case Open(lo, at, end) => assert OpenedProt(k.m, at, end) == OpenedProt(l.m, at, end);
    case Arrive(p) =>
    case Land =>
    case OpenNext(at, end) => assert OpenedProt(k.m, at, end) == OpenedProt(l.m, at, end);
    case Finish =>
      assert Protected(k.m, l.fetch.value.lo, l.fetch.value.done, ReadOnly) ==
        Protected(l.m, l.fetch.value.lo, l.fetch.value.done, ReadOnly);
    case Abort =>
  }

  lemma OfFetchKeeps(s: State, a: Action)
    requires StateInv(s) && Enabled(s, OfFetch(a)) && Allowed(s, OfFetch(a), Strict)
    ensures StateInv(Apply(s, OfFetch(a))) && Memory(Apply(s, OfFetch(a)).l.m) == Memory(s.l.m)
  {
    hide LiveInv, Memory, FlushOk, HandlersOk, F.Apply, F.Enabled;
    var r := Apply(s, OfFetch(a));
    FetchCommutes(s, a);
    FetchKeeps(Kept(s), a);
    FetchSpares(Kept(s), a);
    KeptSame(s.l.m, s.flush);
    LiveShaped(Kept(r));
    KeptSame(r.l.m, r.flush);
    assert Unnoticed(s.l.m, r.l.m);
    Unnoticing(s, r);
  }

  lemma PublishKeeps(s: State, p: nat, room: bool)
    requires StateInv(s) && Enabled(s, Publish(p, room))
    ensures var r := Apply(s, Publish(p, room)); StateInv(r) && Memory(r.l.m) == Memory(s.l.m)
  {
    hide LiveInv, Memory, FlushOk, Expected;
    var r := Apply(s, Publish(p, room));
    var k, n := Kept(s), Kept(r);
    KeptSame(s.l.m, s.flush);
    KeptSame(r.l.m, r.flush);
    QueuedFresh(k);
    assert Requeueable(k.m, n.m);
    RequeuedBeside(k, n.m);
    assert n == k.(m := n.m);
    PublishSpares(s, p, room);
  }

  lemma PublishSpares(s: State, p: nat, room: bool)
    requires StateInv(s) && Enabled(s, Publish(p, room))
    ensures var r := Apply(s, Publish(p, room));
      Shaped(r) && (r.flush.Some? ==> FlushOk(r.l.m, r.flush.value)) && HandlersOk(r)
  {
    hide LiveInv, Memory;
    var r := Apply(s, Publish(p, room));
    assert Unnoticed(s.l.m, r.l.m);
    Unnoticing(s, s.(l := r.l));
    assert forall q: nat :: q in r.published ==> q == p || q in s.published;
    assert forall q: nat :: Expected(r, q) <==> Expected(s.(l := r.l), q);
  }

  lemma UnprotectKeeps(s: State, p: nat)
    requires StateInv(s) && Enabled(s, Unprotect(p))
    ensures var r := Apply(s, Unprotect(p)); StateInv(r) && Memory(r.l.m) == Memory(s.l.m)
  {
    hide LiveInv, Memory, FlushOk;
    var r := Apply(s, Unprotect(p));
    KeptSame(s.l.m, s.flush);
    KeptSame(r.l.m, r.flush);
    assert Expected(s, p);
    ProtectedBeside(Kept(s), p, ReadWrite);
    assert Kept(r).m == Kept(s).m.(prot := Kept(s).m.prot[p := ReadWrite]);
    UnprotectSpares(s, p);
    hide HandlersOk;
  }

  lemma UnprotectSpares(s: State, p: nat)
    requires StateInv(s) && Enabled(s, Unprotect(p))
    ensures var r := Apply(s, Unprotect(p));
      Shaped(r) && (r.flush.Some? ==> FlushOk(r.l.m, r.flush.value)) && HandlersOk(r)
  {
    hide LiveInv;
    var r := Apply(s, Unprotect(p));
    assert Expected(s, p);
    assert forall q: nat :: q in r.published ==> q in s.published;
    assert forall q: nat :: Expected(r, q) <==> Expected(s, q);
    assert forall q: nat :: q < |s.l.m.host| ==> (r.l.m.Fresh(q) <==> s.l.m.Fresh(q));
  }

  lemma CollectKeeps(s: State, pages: set<nat>, full: bool)
    requires StateInv(s) && Enabled(s, Collect(pages, full))
    ensures var r := Apply(s, Collect(pages, full)); StateInv(r) && Memory(r.l.m) == Memory(s.l.m)
  {
    hide LiveInv;
    var r := Apply(s, Collect(pages, full));
    assert s.l.m.queued - pages + pages == s.l.m.queued;
    assert Kept(r) == Kept(s);
    forall p: nat | p in s.published
      ensures Expected(r, p)
    {
      assert Expected(s, p);
    }
    assert forall q: nat :: q < |s.l.m.host| ==> (r.l.m.Fresh(q) <==> s.l.m.Fresh(q));
  }

  lemma GuardKeeps(s: State, p: nat)
    requires StateInv(s) && Enabled(s, Guard(p)) && Allowed(s, Guard(p), Strict)
    ensures var r := Apply(s, Guard(p)); StateInv(r) && Memory(r.l.m) == Memory(s.l.m)
  {
    hide LiveInv, Memory, FlushOk, HandlersOk;
    var r := Apply(s, Guard(p));
    KeptSame(s.l.m, s.flush);
    KeptSame(r.l.m, r.flush);
    TakenFresh(s, p);
    ProtectedBeside(Kept(s), p, ReadOnly);
    assert Kept(r).m == Kept(s).m.(prot := Kept(s).m.prot[p := ReadOnly]);
    GuardSpares(s, p);
  }

  lemma GuardSpares(s: State, p: nat)
    requires StateInv(s) && Enabled(s, Guard(p)) && Allowed(s, Guard(p), Strict)
    ensures var r := Apply(s, Guard(p)); Shaped(r) && FlushOk(r.l.m, r.flush.value) && HandlersOk(r)
  {
    hide LiveInv;
    var r := Apply(s, Guard(p));
    forall q: nat | q in s.published
      ensures Expected(r, q)
    {
      assert Expected(s, q);
    }
    assert forall q: nat :: q < |s.l.m.host| ==> (r.l.m.Fresh(q) <==> s.l.m.Fresh(q));
  }

  lemma SendKeeps(s: State, p: nat)
    requires StateInv(s) && Enabled(s, Send(p))
    ensures var r := Apply(s, Send(p)); StateInv(r) && Memory(r.l.m) == Memory(s.l.m)
  {
    hide LiveInv, Memory, FlushOk, HandlersOk;
    var r := Apply(s, Send(p));
    KeptSame(s.l.m, s.flush);
    KeptSame(r.l.m, r.flush);
    SendSpares(s, p);
    TakenFresh(s, p);
    SentBeside(Kept(s), p);
    assert Kept(r).m == Kept(s).m.(server := Kept(s).m.server[p := Kept(s).m.host[p]]);
  }

  lemma SendSpares(s: State, p: nat)
    requires StateInv(s) && Enabled(s, Send(p))
    ensures var r := Apply(s, Send(p)); Shaped(r) && FlushOk(r.l.m, r.flush.value) && HandlersOk(r)
    ensures s.flush.value.full ==> !s.l.m.stale
  {
    hide LiveInv;
    var r := Apply(s, Send(p));
    assert forall q: nat :: Expected(r, q) <==> Expected(s, q);
    assert forall q: nat :: q < |s.l.m.host| ==> (r.l.m.Fresh(q) <==> s.l.m.Fresh(q));
  }

  /** At its end a flush forgets its pages: those that no other flush will look at are
      protected and equal to the server's. */
  lemma ReleaseKeeps(s: State)
    requires StateInv(s) && Enabled(s, Release)
    ensures StateInv(Apply(s, Release)) && Apply(s, Release).l.m == s.l.m
  {
    hide LiveInv, Memory;
    var k := Kept(s);
    KeptSame(s.l.m, s.flush);
    QueuedFresh(k);
    assert Requeueable(k.m, s.l.m);
    ReleaseSpares(s);
    hide HandlersOk, FlushOk, Requeueable;
    RequeuedBeside(k, s.l.m);
    assert k.(m := s.l.m) == s.l;
  }

  lemma ReleaseSpares(s: State)
    requires StateInv(s) && Enabled(s, Release)
    ensures HandlersOk(Apply(s, Release))
  {
    hide LiveInv;
    forall q: nat | q in s.published
      ensures Expected(Apply(s, Release), q)
    {
      assert Expected(s, q);
    }
  }

  lemma FailKeeps(s: State)
    requires StateInv(s) && Enabled(s, Move.Fail)
    ensures var r := Apply(s, Move.Fail); StateInv(r) && Memory(r.l.m) == Memory(s.l.m)
  {
    hide LiveInv, Memory;
    var r := Apply(s, Move.Fail);
    var k := Kept(s);
    KeptSame(s.l.m, s.flush);
    QueuedFresh(k);
    assert Requeueable(k.m, r.l.m);
    RequeuedBeside(k, r.l.m);
    assert k.(m := r.l.m) == r.l;
    FailSpares(s);
    hide HandlersOk;
  }

  lemma FailSpares(s: State)
    requires StateInv(s) && Enabled(s, Move.Fail)
    ensures Shaped(Apply(s, Move.Fail)) && HandlersOk(Apply(s, Move.Fail))
  {
    hide LiveInv;
    var r := Apply(s, Move.Fail);
    assert forall q: nat :: q < |s.l.m.host| ==> (r.l.m.Fresh(q) <==> s.l.m.Fresh(q));
  }

  lemma LaunchKeeps(s: State, kernel: seq<Page> -> seq<Page>, left: set<nat>)
    requires StateInv(s) && Enabled(s, LaunchKernel(kernel, left)) && Allowed(s, LaunchKernel(kernel, left), Strict)
    ensures var r := Apply(s, LaunchKernel(kernel, left));
      StateInv(r) && KeepsShape(kernel, Memory(s.l.m)) && Memory(r.l.m) == kernel(Memory(s.l.m))
  {
    var m := s.l.m;
    assert m.queued - left == m.queued;
    assert Launched(m, left) == Flushed(m, |m.chunks|);
    StepRefines(m, Launch(kernel));
  }

  lemma InvalidateKeeps(s: State)
    requires StateInv(s) && Enabled(s, Invalidate)
    ensures var r := Apply(s, Invalidate); StateInv(r) && Memory(r.l.m) == Memory(s.l.m)
  {
    if s.flush.Some? {
      QueuedFresh(Kept(s));
    }
    SyncInv(s.l.m);
  }

  // What a move is to plain memory: accesses and kernels show, the rest is invisible.

  ghost predicate PlainCan(mem: seq<Page>, a: Move) {
    match a
    case Access(t) => PlainEnabled(mem, t)
    case LaunchKernel(kernel, _) => KeepsShape(kernel, mem)
    case _ => true
  }

  ghost function PlainDo(mem: seq<Page>, a: Move): seq<Page>
    requires PlainCan(mem, a)
  {
    match a
    case Access(t) => PlainApply(mem, t)
    case LaunchKernel(kernel, _) => kernel(mem)
    case _ => mem
  }

  /** A read returns the byte of `mem`. */
  ghost predicate Agrees(s: State, a: Move, mem: seq<Page>)
    requires Shaped(s) && Enabled(s, a) && PlainCan(mem, a)
  {
    a.Access? && a.s.Read? ==> s.l.m.host[a.s.p][a.s.o] == mem[a.s.p][a.s.o]
  }

  lemma AccessKeeps(s: State, t: Step)
    requires StateInv(s) && Enabled(s, Access(t)) && Allowed(s, Access(t), Strict)
    ensures StateInv(Apply(s, Access(t)))
    ensures PlainCan(Memory(s.l.m), Access(t))
    ensures Memory(Apply(s, Access(t)).l.m) == PlainDo(Memory(s.l.m), Access(t))
    ensures Agrees(s, Access(t), Memory(s.l.m))
  {
    hide StateInv, Memory;
    match t
    case Read(p, o) => ReadKeeps(s, p, o);
    case Write(p, o, b) => WriteKeeps(s, p, o, b);
  }

  lemma ReserveKeeps(s: State, p: nat)
    requires StateInv(s) && Enabled(s, Reserve(p))
    ensures StateInv(Apply(s, Reserve(p))) && Apply(s, Reserve(p)).l.m == s.l.m
  {
    hide LiveInv;
    assert forall q: nat :: Expected(Apply(s, Reserve(p)), q) <==> Expected(s, q);
  }

  lemma ElsewhereKeeps(s: State, others: nat)
    requires StateInv(s)
    ensures StateInv(Apply(s, Elsewhere(others))) && Apply(s, Elsewhere(others)).l.m == s.l.m
  {
    hide LiveInv;
    assert forall q: nat :: Expected(Apply(s, Elsewhere(others)), q) <==> Expected(s, q);
  }

  /** Every move that the strict policy allows is one of plain memory, or none. */
  lemma MoveRefines(s: State, a: Move)
    requires StateInv(s) && Enabled(s, a) && Allowed(s, a, Strict)
    ensures StateInv(Apply(s, a))
    ensures PlainCan(Memory(s.l.m), a) && Memory(Apply(s, a).l.m) == PlainDo(Memory(s.l.m), a)
    ensures Agrees(s, a, Memory(s.l.m))
  {
    StateShaped(s);
    hide StateInv, Memory, Apply, Enabled, Allowed, Inv, Launched;
    match a
    case Access(t) => AccessKeeps(s, t);
    case OfFetch(b) => OfFetchKeeps(s, b);
    case Reserve(p) => ReserveKeeps(s, p);
    case Publish(p, room) => PublishKeeps(s, p, room);
    case Unprotect(p) => UnprotectKeeps(s, p);
    case Elsewhere(others) => ElsewhereKeeps(s, others);
    case Collect(pages, full) => CollectKeeps(s, pages, full);
    case Guard(p) => GuardKeeps(s, p);
    case Send(p) => SendKeeps(s, p);
    case Release => ReleaseKeeps(s);
    case Fail => FailKeeps(s);
    case LaunchKernel(kernel, left) => LaunchKeeps(s, kernel, left);
    case Invalidate => InvalidateKeeps(s);
  }

  lemma StateShaped(s: State)
    requires StateInv(s)
    ensures Shaped(s) && s.l.m.Shaped()
  {
  }

  // --------------------------------------------------------------------- runs

  ghost predicate IsRun(s: State, run: seq<Move>, policy: Policy)
    decreases |run|
  {
    || run == []
    || (Shaped(s) && Enabled(s, run[0]) && Allowed(s, run[0], policy) && IsRun(Apply(s, run[0]), run[1..], policy))
  }

  ghost function After(s: State, run: seq<Move>, policy: Policy): State
    requires IsRun(s, run, policy)
    decreases |run|
  {
    if run == [] then s else After(Apply(s, run[0]), run[1..], policy)
  }

  /** The run is one of plain memory: every read returns its byte, and the mirror stands
      for it throughout. */
  ghost predicate Coherent(s: State, run: seq<Move>, mem: seq<Page>, policy: Policy)
    requires IsRun(s, run, policy)
    decreases |run|
  {
    && s.l.m.Shaped() && Memory(s.l.m) == mem
    && (run != [] ==>
          && PlainCan(mem, run[0]) && Agrees(s, run[0], mem)
          && Coherent(Apply(s, run[0]), run[1..], PlainDo(mem, run[0]), policy))
  }

  /** Single-copy coherence for any number of host threads, with handlers, flushes and
      fetches taken apart: over every run under the strict policy, reads and kernels see
      one plain memory. */
  lemma {:induction false} RunCoherent(s: State, run: seq<Move>)
    requires StateInv(s) && IsRun(s, run, Strict)
    ensures Coherent(s, run, Memory(s.l.m), Strict) && StateInv(After(s, run, Strict))
    decreases |run|
  {
    StateShaped(s);
    if run != [] {
      hide StateInv, Enabled, Allowed, Apply, Memory, PlainCan, PlainDo, Agrees;
      MoveRefines(s, run[0]);
      RunCoherent(Apply(s, run[0]), run[1..]);
    }
  }

  // ------------------------------------------------- the strict policy is exact

  function Start(m: Mirror): State { State(Live(m, None), None, multiset{}, multiset{}, 0) }

  /** An allocation as it is between launches: a page `p` still stale whose old byte on the
      host is not the memory's, and a page `q` that is current and not dirty. */
  ghost predicate Mixed(m: Mirror, p: nat, o: nat, q: nat) {
    && Inv(m) && m.stale && !m.deviceDirty && !m.fullDirty
    && p < |m.host| && o < |m.host[p]| && !m.Fresh(p) && m.host[p][o] != m.server[p][o]
    && q < |m.host| && m.host[q] != [] && m.Fresh(q) && q !in m.queued
  }

  /** A move in front of a run, and how the run fails then. */
  lemma Prepend(s: State, a: Move, rest: seq<Move>, mem: seq<Page>, policy: Policy)
    requires Shaped(s) && Enabled(s, a) && Allowed(s, a, policy) && IsRun(Apply(s, a), rest, policy)
    ensures IsRun(s, [a] + rest, policy)
    ensures PlainCan(mem, a) && (!Agrees(s, a, mem) || !Coherent(Apply(s, a), rest, PlainDo(mem, a), policy))
      ==> !Coherent(s, [a] + rest, mem, policy)
  {
    hide Shaped, Enabled, Allowed, Apply, Memory, PlainCan, PlainDo, Agrees;
    assert ([a] + rest)[1..] == rest;
  }

  /** What a launch's flush leaves out is not in memory afterwards. */
  lemma LeftOut(s: State, q: nat, left: set<nat>, mem: seq<Page>, policy: Policy) returns (k: Move)
    requires s.l.m.Shaped() && s.l.fetch.None? && s.flush.None? && !s.l.m.fullDirty
    requires left <= s.l.m.queued && (NoneReserved(s) ==> left == {}) && (q in s.l.m.queued ==> q in left)
    requires policy.hasty || (Quiet(s) && s.others == 0)
    requires q < |s.l.m.host| && q < |mem| && s.l.m.server[q] != mem[q]
    ensures IsRun(s, [k], policy) && !Coherent(s, [k], mem, policy)
  {
    k := LaunchKernel(M.Idle, left);
    var pushed := Launched(s.l.m, left);
    assert forall p: nat :: p < |pushed.server| ==> |pushed.server[p]| == |s.l.m.server[p]|;
    var r := Apply(s, k);
    assert Memory(r.l.m)[q] == s.l.m.server[q];
    assert !Coherent(r, [], mem, policy);
    Prepend(s, k, [], mem, policy);
    assert [k] + [] == [k];
  }

  /** A write to a page that no flush will look at is lost at the next launch. */
  lemma LostAtLaunch(s: State, q: nat, b: byte, left: set<nat>, mem: seq<Page>, policy: Policy) returns (run: seq<Move>)
    requires s.l.m.Shaped() && s.l.fetch.None? && s.flush.None? && !s.l.m.fullDirty && !s.l.m.deviceDirty
    requires left <= s.l.m.queued && (NoneReserved(s) ==> left == {}) && (q in s.l.m.queued ==> q in left)
    requires policy.hasty || (Quiet(s) && s.others == 0)
    requires q < |s.l.m.host| && s.l.m.prot[q] == ReadWrite && s.l.m.host[q] != [] && s.l.m.server[q][0] != b
    requires q < |mem| && mem[q] != []
    ensures IsRun(s, run, policy) && !Coherent(s, run, mem, policy)
  {
    var w := Access(Write(q, 0, b));
    var k := LeftOut(Apply(s, w), q, left, mem[q := mem[q][0 := b]], policy);
    hide Memory;
    Prepend(s, w, [k], mem, policy);
    run := [w] + [k];
  }

  /** A fetch has the page open, and may be read there or aborted. */
  ghost predicate Readable(s: State, p: nat, o: nat) {
    && Shaped(s) && Enabled(s, Access(Read(p, o))) && Enabled(s, OfFetch(Abort))
    && Shaped(Apply(s, OfFetch(Abort))) && Enabled(Apply(s, OfFetch(Abort)), Access(Read(p, o)))
  }

  lemma OpenedRead(m: Mirror, p: nat, o: nat, q: nat) returns (open: Move)
    requires Mixed(m, p, o, q)
    ensures open.OfFetch? && !open.a.Abort? && Enabled(Start(m), open)
    ensures var s := Apply(Start(m), open); Readable(s, p, o) && s.l.m.host == m.host && s.l.fetch.Some?
  {
    var c := ChunkOf(m.k, p);
    open := OfFetch(Open(c, c, c + 1));
  }

  lemma SharedRuns(m: Mirror, p: nat, o: nat, q: nat, policy: Policy) returns (run: seq<Move>)
    requires Mixed(m, p, o, q) && policy.shared
    ensures IsRun(Start(m), run, policy) && !Coherent(Start(m), run, Memory(m), policy)
  {
    var s, r := Start(m), Access(Read(p, o));
    var open := OpenedRead(m, p, o, q);
    var t := Apply(s, open);
    hide Inv, F.Enabled, F.Apply;
    Prepend(t, r, [], Memory(m), policy);
    Prepend(s, open, [r], Memory(m), policy);
    run := [open] + ([r] + []);
  }

  lemma AbortRuns(m: Mirror, p: nat, o: nat, q: nat, policy: Policy) returns (run: seq<Move>)
    requires Mixed(m, p, o, q) && policy.aborts
    ensures IsRun(Start(m), run, policy) && !Coherent(Start(m), run, Memory(m), policy)
  {
    var s, a, r := Start(m), OfFetch(Abort), Access(Read(p, o));
    var open := OpenedRead(m, p, o, q);
    var t := Apply(s, open);
    var u := Apply(t, a);
    hide Inv, F.Enabled;
    Prepend(u, r, [], Memory(m), policy);
    Prepend(t, a, [r], Memory(m), policy);
    Prepend(s, open, [a] + [r], Memory(m), policy);
    run := [open] + ([a] + ([r] + []));
  }

  /** A launch that sends everything while a page is stale overwrites it on the server. */
  lemma StalePushed(s: State, p: nat, o: nat, mem: seq<Page>, policy: Policy) returns (run: seq<Move>)
    requires s.l.m.Shaped() && s.l.fetch.None? && s.flush.None? && s.l.m.fullDirty
    requires policy.pushes && Quiet(s) && s.others == 0
    requires p < |s.l.m.host| && o < |s.l.m.host[p]| && p < |mem| && o < |mem[p]| && mem[p][o] != s.l.m.host[p][o]
    ensures IsRun(s, run, policy) && !Coherent(s, run, mem, policy)
  {
    var d := LaunchKernel(M.Idle, {});
    assert s.l.m.queued - {} == s.l.m.queued;
    assert forall q: nat :: q < |s.l.m.host| ==> |Launched(s.l.m, {}).server[q]| == |s.l.m.host[q]|;
    var t := Apply(s, d);
    assert Memory(t.l.m)[p] == s.l.m.host[p];
    assert !Coherent(t, [], mem, policy);
    Prepend(s, d, [], mem, policy);
    run := [d] + [];
  }

  lemma PushRuns(m: Mirror, p: nat, o: nat, q: nat, policy: Policy) returns (run: seq<Move>)
    requires Mixed(m, p, o, q) && policy.pushes
    ensures IsRun(Start(m), run, policy) && !Coherent(Start(m), run, Memory(m), policy)
  {
    var mem := Memory(m);
    var a, b, c := Reserve(q), Publish(q, false), Unprotect(q);
    var s := Start(m);
    var t := Apply(s, a);
    var u := Apply(t, b);
    var v := Apply(u, c);
    var rest := StalePushed(v, p, o, mem, policy);
    hide Inv, Memory;
    Prepend(u, c, rest, mem, policy);
    Prepend(t, b, [c] + rest, mem, policy);
    Prepend(s, a, [b] + ([c] + rest), mem, policy);
    run := [a] + ([b] + ([c] + rest));
  }

  lemma SplitRuns(m: Mirror, p: nat, o: nat, q: nat, policy: Policy) returns (run: seq<Move>)
    requires Mixed(m, p, o, q) && policy.split
    ensures IsRun(Start(m), run, policy) && !Coherent(Start(m), run, Memory(m), policy)
  {
    var mem := Memory(m);
    var s0 := Start(m);
    var s2 := Apply(Apply(s0, Reserve(q)), Publish(q, true));
    var rest := SplitFlush(s2, q, mem, policy);
    Prepend(Apply(s0, Reserve(q)), Publish(q, true), rest, mem, policy);
    Prepend(s0, Reserve(q), [Publish(q, true)] + rest, mem, policy);
    run := [Reserve(q)] + ([Publish(q, true)] + rest);
  }

  /** A flush protects and sends the page before its handler makes it writable. */
  lemma SplitFlush(s: State, q: nat, mem: seq<Page>, policy: Policy) returns (run: seq<Move>)
    requires s.l.m.Shaped() && s.l.fetch.None? && s.flush.None? && !s.l.m.fullDirty && !s.l.m.deviceDirty
    requires q in s.l.m.queued && q < |s.l.m.host| && s.l.m.host[q] != [] && policy.split
    requires NoneReserved(s) && s.published == multiset{q} && q < |mem| && mem[q] != []
    ensures IsRun(s, run, policy) && !Coherent(s, run, mem, policy)
  {
    var a, b, c := Collect({q}, false), Guard(q), Send(q);
    var t := Apply(s, a);
    var u := Apply(t, b);
    var v := Apply(u, c);
    var rest := LateUnprotect(v, q, mem, policy);
    Prepend(u, c, rest, mem, policy);
    Prepend(t, b, [c] + rest, mem, policy);
    Prepend(s, a, [b] + ([c] + rest), mem, policy);
    run := [a] + ([b] + ([c] + rest));
  }

  lemma LateUnprotect(s: State, q: nat, mem: seq<Page>, policy: Policy) returns (run: seq<Move>)
    requires s.l.m.Shaped() && s.l.fetch.None? && s.flush.Some?
    requires !s.flush.value.full && s.flush.value.pages == {q} && q in s.flush.value.sent
    requires !s.l.m.fullDirty && !s.l.m.deviceDirty && q !in s.l.m.queued && q < |s.l.m.host| && s.l.m.host[q] != []
    requires NoneReserved(s) && s.published == multiset{q} && q < |mem| && mem[q] != []
    ensures IsRun(s, run, policy) && !Coherent(s, run, mem, policy)
  {
    var d, e := Release, Unprotect(q);
    var w := Apply(s, d);
    var x := Apply(w, e);
    var rest := LostAtLaunch(x, q, if x.l.m.server[q][0] == 0 then 1 else 0, {}, mem, policy);
    Prepend(w, e, rest, mem, policy);
    Prepend(s, d, [e] + rest, mem, policy);
    run := [d] + ([e] + rest);
  }

  /** A handler at work elsewhere stops the launch's flush before the page's slot. */
  lemma HastyRuns(m: Mirror, p: nat, o: nat, q: nat, policy: Policy) returns (run: seq<Move>)
    requires Mixed(m, p, o, q) && policy.hasty
    ensures IsRun(Start(m), run, policy) && !Coherent(Start(m), run, Memory(m), policy)
  {
    var mem := Memory(m);
    var e, a, b, c := Elsewhere(1), Reserve(q), Publish(q, true), Unprotect(q);
    var s := Start(m);
    var t := Apply(s, e);
    var u := Apply(t, a);
    var v := Apply(u, b);
    var w := Apply(v, c);
    var rest := LostAtLaunch(w, q, if m.server[q][0] == 0 then 1 else 0, {q}, mem, policy);
    Prepend(v, c, rest, mem, policy);
    Prepend(u, b, [c] + rest, mem, policy);
    Prepend(t, a, [b] + ([c] + rest), mem, policy);
    Prepend(s, e, [a] + ([b] + ([c] + rest)), mem, policy);
    run := [e] + ([a] + ([b] + ([c] + rest)));
  }

  /** From such an allocation, every run under a policy is one of plain memory if and only
      if the policy allows nothing of the kind. */
  lemma CoherentIff(m: Mirror, p: nat, o: nat, q: nat, policy: Policy)
    requires Mixed(m, p, o, q)
    ensures (forall run :: IsRun(Start(m), run, policy) ==> Coherent(Start(m), run, Memory(m), policy))
      <==> policy == Strict
  {
    if policy == Strict {
      forall run | IsRun(Start(m), run, policy)
        ensures Coherent(Start(m), run, Memory(m), policy)
      {
        RunCoherent(Start(m), run);
      }
    } else if policy.shared {
      var run := SharedRuns(m, p, o, q, policy);
    } else if policy.aborts {
      var run := AbortRuns(m, p, o, q, policy);
    } else if policy.pushes {
      var run := PushRuns(m, p, o, q, policy);
    } else if policy.split {
      var run := SplitRuns(m, p, o, q, policy);
    } else {
      var run := HastyRuns(m, p, o, q, policy);
    }
  }

  /** Such an allocation arises: one of two pages, registered, overwritten by a kernel,
      invalidated, and then touched at its second page. */
  lemma MixedReached() returns (m: Mirror, steps: seq<Step>)
    ensures Inv(m) && m.host == m.server && M.IsRun(m, steps)
    ensures Mixed(M.After(m, steps), 0, 0, 1)
  {
    var a, b, c := Launch(_ => [[1], [1]]), Sync, Fault(1, true);
    m := Registered();
    var l := AfterLaunch(m, a);
    var n := M.Apply(l, b);
    assert n.chunks == [false, false] && n.prot == [NoAccess, NoAccess];
    var r := M.Apply(n, c);
    AfterFault(n, r);
    StepRefines(m, a);
    StepRefines(l, b);
    StepRefines(n, c);
    ThreeSteps(m, a, b, c);
    steps := [a, b, c];
  }

  lemma Registered() returns (m: Mirror)
    ensures Inv(m) && m.k == 1 && m.host == m.server == [[0], [0]] && m.chunks == [true, true]
    ensures |m.prot| == 2 && !m.stale && m.queued == {} && !m.fullDirty && !m.deviceDirty && m.seqNext == 0
  {
    m := Mirror(1, [[0], [0]], [[0], [0]], [ReadOnly, ReadOnly], [true, true], false, {}, false, false, 0, 0);
    RegisteredInv(m);
  }

  lemma AfterLaunch(m: Mirror, a: Step) returns (l: Mirror)
    requires m.Shaped() && |m.host| == 2 && m.server == [[0], [0]] && m.queued == {} && !m.fullDirty
    requires a.Launch? && a.kernel(m.server) == [[1], [1]]
    ensures M.Enabled(m, a) && l == M.Apply(m, a)
    ensures l == m.(server := [[1], [1]], deviceDirty := true)
  {
    assert PushedServer(m) == m.server && PushedProt(m) == m.prot;
    l := M.Apply(m, a);
  }

  lemma ThreeSteps(m: Mirror, a: Step, b: Step, c: Step)
    requires m.Shaped() && M.Enabled(m, a)
    requires var l := M.Apply(m, a); l.Shaped() && M.Enabled(l, b)
    requires var n := M.Apply(M.Apply(m, a), b); n.Shaped() && M.Enabled(n, c)
    ensures M.IsRun(m, [a, b, c])
    ensures M.After(m, [a, b, c]) == M.Apply(M.Apply(M.Apply(m, a), b), c)
  {
    hide M.Enabled, M.Apply;
    var l := M.Apply(m, a);
    var n := M.Apply(l, b);
    assert [a, b, c][1..] == [b, c] && [b, c][1..] == [c] && [c][1..] == [];
    assert M.IsRun(M.Apply(n, c), []);
    assert M.IsRun(n, [c]) && M.After(n, [c]) == M.Apply(n, c);
    assert M.IsRun(l, [b, c]) && M.After(l, [b, c]) == M.After(n, [c]);
  }

  lemma AfterFault(n: Mirror, r: Mirror)
    requires n.k == 1 && n.host == [[0], [0]] && n.server == [[1], [1]] && n.chunks == [false, false] && n.stale
    requires |n.prot| == 2 && n.seqNext == 0 && r == Faulted(n, 1, true)
    ensures r.host == [[0], [1]] && r.chunks == [false, true] && r.stale && r.queued == n.queued
    ensures r == n.(host := r.host, prot := r.prot, chunks := r.chunks, seqNext := r.seqNext, readahead := r.readahead)
  {
    assert ChunkOf(1, 0) == 0 && ChunkOf(1, 1) == 1;
    assert Window(n, 1) == 1 && FetchEnd(n, 1) == 2;
    assert !r.chunks[0];
  }

  // ---------------------------------------- handlers and flushes on their own

  /** With nothing in between, a handler's three moves are the fault of the step machine. */
  lemma HandlerInOneGo(s: State, p: nat, room: bool)
    requires Shaped(s) && Enabled(s, Reserve(p))
    ensures var t := Apply(s, Reserve(p));
      && Enabled(t, Publish(p, room)) && var u := Apply(t, Publish(p, room));
      && Enabled(u, Unprotect(p)) && Apply(u, Unprotect(p)) == s.(l := s.l.(m := Faulted(s.l.m, p, room)))
  {
    var u := Apply(Apply(s, Reserve(p)), Publish(p, room));
    assert s.reserved + multiset{p} - multiset{p} == s.reserved;
    assert s.published + multiset{p} - multiset{p} == s.published;
  }

  /** A flush that began in `m`, took everything and met nobody. */
  ghost predicate FlushUndisturbed(s: State, m: Mirror)
    requires m.Shaped()
  {
    && s.flush.Some? && s.flush.value.pages == m.queued && s.flush.value.full == m.fullDirty
    && s.flush.value.sent <= s.flush.value.guarded
    && s.l.m == m.(server := Partly(m.server, PushedServer(m), s.flush.value.sent),
                   prot := Partly(m.prot, PushedProt(m), s.flush.value.guarded), queued := {}, fullDirty := false)
  }

  /** When its moves follow one another, a flush passes through the states of the step
      machine's failed flush and ends as the completed one. */
  lemma FlushInOneGo(s: State, m: Mirror, a: Move)
    requires Shaped(s) && m.Shaped() && Enabled(s, a)
    requires if s.flush.None? then s.l.m == m else FlushUndisturbed(s, m)
    ensures a == Collect(m.queued, m.fullDirty) || a.Guard? || a.Send? ==> FlushUndisturbed(Apply(s, a), m)
    ensures a.Release? ==> Apply(s, a).l.m == Push(m)
    ensures a.Fail? && !(m.fullDirty && m.stale) && (exists p: nat :: p < |m.host| && Pushed(m, p)) ==>
      Apply(s, a).l.m == FlushFailed(m, |m.chunks|, s.flush.value.guarded, s.flush.value.sent)
  {
    match a
    case Collect(pages, full) => if a == Collect(m.queued, m.fullDirty) { CollectInOneGo(s, pages, full); }
    case Guard(p) => PagesInOneGo(s, m, a);
    case Send(p) => PagesInOneGo(s, m, a);
    case Release => ReleaseInOneGo(s, m);
    case _ =>
  }

  lemma PagesInOneGo(s: State, m: Mirror, a: Move)
    requires Shaped(s) && m.Shaped() && Enabled(s, a) && FlushUndisturbed(s, m) && (a.Guard? || a.Send?)
    ensures FlushUndisturbed(Apply(s, a), m)
  {
    var f := s.flush.value;
    if a.Guard? {
      assert Apply(s, a).l.m.prot == Partly(m.prot, PushedProt(m), f.guarded + {a.p});
    } else {
      assert Apply(s, a).l.m.server == Partly(m.server, PushedServer(m), f.sent + {a.p});
    }
  }

  lemma CollectInOneGo(s: State, pages: set<nat>, full: bool)
    requires Shaped(s) && Enabled(s, Collect(pages, full)) && pages == s.l.m.queued && full == s.l.m.fullDirty
    ensures FlushUndisturbed(Apply(s, Collect(pages, full)), s.l.m)
  {
    var m := s.l.m;
    assert m.server == Partly(m.server, PushedServer(m), {}) && m.prot == Partly(m.prot, PushedProt(m), {});
  }

  lemma ReleaseInOneGo(s: State, m: Mirror)
    requires Shaped(s) && m.Shaped() && Enabled(s, Release) && FlushUndisturbed(s, m)
    ensures s.l.m == Push(m)
  {
    assert forall p: nat :: s.flush.value.Took(p) <==> Pushed(m, p);
    assert s.l.m.server == PushedServer(m) && s.l.m.prot == PushedProt(m);
  }
}
