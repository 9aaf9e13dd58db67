/** The dirty-range queue of one route: any number of fault handlers append to it without
    locks, one mutex-holding flusher empties it, and allocations come and go. Each
    transition is one access of the code to what another thread may change meanwhile. The
    flusher alone changes `start` and reads a slot that is ready, and `retiring` changes
    under the allocation mutex only, so such accesses come along with a neighbour. */
module DirtyQueue {
  import opened Threads

  type Alloc = nat

  const CAP: nat := 65536

  /** A queued range, named after the fault that wrote it. */
  datatype Range = Range(alloc: Alloc, start: nat, end: nat, fault: Tid)

  /** How far a fault has come, and after that what became of its range. Whole-allocation
      ranges begin as Taken, and readers outside the queue as Borrowed. */
  datatype Life =
    | Active                                          // counted as a running handler
    | Found(a: Alloc)                                 // holds the allocation pointer
    | Counted(a: Alloc, page: nat)                    // pending incremented
    | Loaded(a: Alloc, page: nat, seen: nat)          // value of `next` to compare with
    | Reserved(a: Alloc, page: nat, slot: nat)
    | Written(a: Alloc, page: nat, slot: nat)
    | Published(a: Alloc, page: nat, slot: nat)       // ready flag set
    | Taken(a: Alloc)                                 // in the flusher's list
    | Full(a: Alloc)                                  // no slot left
    | Dropped(a: Alloc)                               // pending decremented again
    | Marked(a: Alloc)                                // full_dirty set, flag not yet
    | Borrowed(a: Alloc)
    | Gone

  datatype Flusher =
    | Idle
    | Scan(reserved: nat, end: nat)
    | Peek(end: nat)                                  // loads full_dirty_pending next
    | Take(slot: nat, end: nat, full: bool)
    | Advance(end: nat, full: bool)                   // start := end comes next
    | Swap(end: nat, full: bool)                      // compare-exchange of next comes next
    | Reset(full: bool)                               // start := 0 comes next
    | Exchange(full: bool)
    | Lock                                            // takes the allocation mutex next
    | Visit(todo: set<Alloc>)                         // under that mutex
    | Add(todo: set<Alloc>, a: Alloc)                 // the mark of `a` was taken, pending is next
    | Send
    | Releasing(restore: bool)
    | Restoring                                       // not retiring: full_dirty comes next
    | Flagging                                        // full_dirty restored, flag not yet
    | Dropping

  datatype Queue = Queue(
    life: map<Tid, Life>, inside: set<Tid>, active: nat,
    next: nat, start: nat, ranges: map<nat, Range>, ready: set<nat>, fullPending: bool,
    flusher: Flusher, taken: seq<Range>,
    pending: map<Alloc, nat>, fullDirty: set<Alloc>, retiring: set<Alloc>,
    listed: set<Alloc>, quiet: set<Alloc>, erased: set<Alloc>,
    published: map<Tid, Range>, delivered: seq<Range>)
  {
    /** The first slot not yet collected, wherever the flusher is. */
    function Low(): nat {
      match flusher
      case Take(slot, _, _) => slot
      case Advance(end, _) => end
      case Reset(_) => 0
      case _ => start
    }
  }

  // ------------------------------------------------------------------ handlers

  function Goto(q: Queue, t: Tid, l: Life): Queue { q.(life := q.life[t := l]) }

  datatype HandlerOp = Arrive | Miss | Find(a: Alloc) | Quit
    | Count(page: nat) | Load | Cas | Write | Publish | Drop | Mark | Flag | Leave

  predicate HandlerEnabled(q: Queue, t: Tid, op: HandlerOp) {
    if op.Arrive? then t !in q.life
    else
      && t in q.life
      && match op
         case Arrive => false
         case Miss => q.life[t].Active?
         case Find(a) => q.life[t].Active? && a in q.listed
         case Quit => q.life[t].Found?
         case Count(_) => q.life[t].Found? && q.life[t].a in q.pending
         case Load => q.life[t].Counted?
         case Cas => q.life[t].Loaded?
         case Write => q.life[t].Reserved?
         case Publish => q.life[t].Written?
         case Drop => q.life[t].Full? && q.life[t].a in q.pending
         case Mark => q.life[t].Dropped?
         case Flag => q.life[t].Marked?
         case Leave => t in q.inside && (q.life[t].Published? || q.life[t].Taken? || q.life[t].Gone?)
  }

  function Less(n: nat): nat { if n == 0 then 0 else n - 1 }

  function Exit(q: Queue, t: Tid): Queue { q.(inside := q.inside - {t}, active := Less(q.active)) }

  function ReserveSlot(q: Queue, t: Tid, l: Life): Queue
    requires l.Loaded?
  {
    if CAP <= l.seen then Goto(q, t, Full(l.a))
    else if q.next == l.seen then Goto(q.(next := l.seen + 1), t, Reserved(l.a, l.page, l.seen))
    else Goto(q, t, Loaded(l.a, l.page, q.next))
  }

  function Handler(q: Queue, t: Tid, op: HandlerOp): (r: Queue)
    requires HandlerEnabled(q, t, op)
    ensures r.erased == q.erased && r.quiet == q.quiet && r.delivered == q.delivered
  {
    if op.Arrive? then Goto(q.(inside := q.inside + {t}, active := q.active + 1), t, Active)
    else
      var l := q.life[t];
      match op
      case Miss => Exit(Goto(q, t, Gone), t)
      case Find(a) => Goto(q, t, Found(a))
      case Quit => Exit(Goto(q, t, Gone), t)
      case Count(page) => Goto(q.(pending := q.pending[l.a := q.pending[l.a] + 1]), t, Counted(l.a, page))
      case Load => Goto(q, t, Loaded(l.a, l.page, q.next))
      case Cas => ReserveSlot(q, t, l)
      case Write =>
        Goto(q.(ranges := q.ranges[l.slot := Range(l.a, l.page, l.page + 1, t)]), t, Written(l.a, l.page, l.slot))
      case Publish =>
        Goto(q.(ready := q.ready + {l.slot}, published := q.published[t := Range(l.a, l.page, l.page + 1, t)]),
             t, Published(l.a, l.page, l.slot))
      case Drop => Goto(q.(pending := q.pending[l.a := Less(q.pending[l.a])]), t, Dropped(l.a))
      case Mark => Goto(q.(fullDirty := q.fullDirty + {l.a}), t, Marked(l.a))
      case Flag => Goto(q.(fullPending := true), t, Gone)
      case Leave => Exit(q, t)
  }

  // ------------------------------------------------------------------- flusher

  datatype FlushOp = Begin | Next | Look(a: Alloc) | Collect(pages: nat, t: Tid) | Sent(ok: bool)

  /** The flusher holds the allocation mutex. */
  predicate Locked(f: Flusher) { f.Visit? || f.Add? }

  predicate FlushEnabled(q: Queue, op: FlushOp) {
    match op
    case Begin => q.flusher.Idle?
    case Next =>
      (match q.flusher
       case Idle | Send | Add(_, _) => false
       case Take(slot, end, _) => slot < end ==> slot in q.ranges && q.ranges[slot].fault in q.life
       case Visit(todo) => todo == {}
       case Releasing(restore) => q.taken != [] ==> q.taken[0].alloc in q.pending
       case Restoring => q.taken != []
       case Flagging => q.taken != []
       case Dropping => q.taken != [] && q.taken[0].alloc in q.pending
       case _ => true)
    case Look(a) => q.flusher.Visit? && a in q.flusher.todo
    case Collect(_, t) => q.flusher.Add? && q.flusher.a in q.pending && t !in q.life
    case Sent(_) => q.flusher.Send?
  }

  /** Drop the reference of the first range still held. */
  function ReleaseHead(q: Queue): Queue
    requires q.taken != [] && q.taken[0].alloc in q.pending
  {
    var r := q.taken[0];
    Goto(q.(pending := q.pending[r.alloc := Less(q.pending[r.alloc])], taken := q.taken[1..]), r.fault, Gone)
  }

  function TakeSlot(q: Queue, f: Flusher): Queue
    requires f.Take? && f.slot in q.ranges && q.ranges[f.slot].fault in q.life
  {
    var r := q.ranges[f.slot];
    Goto(q.(ready := q.ready - {f.slot}, taken := q.taken + [r], delivered := q.delivered + [r],
            flusher := Take(f.slot + 1, f.end, f.full)),
         r.fault, Taken(r.alloc))
  }

  /** The exchange of an allocation's full_dirty. */
  function LookAt(q: Queue, a: Alloc): Queue
    requires q.flusher.Visit?
  {
    var todo := q.flusher.todo - {a};
    if a in q.fullDirty && a !in q.retiring then q.(fullDirty := q.fullDirty - {a}, flusher := Add(todo, a))
    else q.(flusher := Visit(todo))
  }

  /** Its pages join the list. */
  function CollectAll(q: Queue, pages: nat, t: Tid): Queue
    requires q.flusher.Add? && q.flusher.a in q.pending
  {
    var a := q.flusher.a;
    Goto(q.(flusher := Visit(q.flusher.todo), pending := q.pending[a := q.pending[a] + 1],
            taken := q.taken + [Range(a, 0, pages, t)]),
         t, Taken(a))
  }

  function FlushNext(q: Queue): (r: Queue)
    requires FlushEnabled(q, Next)
    ensures r.erased == q.erased && r.quiet == q.quiet && q.delivered <= r.delivered
  {
    match q.flusher
    case Scan(reserved, end) =>
      if end < reserved && end in q.ready then q.(flusher := Scan(reserved, end + 1)) else q.(flusher := Peek(end))
    case Peek(end) =>
      if end == q.start && !q.fullPending then q.(flusher := Idle) else q.(flusher := Take(q.start, end, q.fullPending))
    case Take(slot, end, full) =>
      if slot < end then TakeSlot(q, q.flusher) else q.(flusher := Advance(end, full))
    case Advance(end, full) => q.(start := end, flusher := Swap(end, full))
    case Swap(end, full) =>
      if q.next == end then q.(next := 0, flusher := Reset(full)) else q.(flusher := Exchange(full))
    case Reset(full) => q.(start := 0, flusher := Exchange(full))
    case Exchange(full) =>
      if full && q.fullPending then q.(fullPending := false, flusher := Lock) else q.(flusher := AfterLooking(q))
    case Lock => q.(flusher := Visit(q.pending.Keys))
    case Visit(_) => q.(flusher := AfterLooking(q))
    case Releasing(restore) =>
      if q.taken == [] then q.(flusher := Idle)
      else if restore && q.taken[0].alloc !in q.retiring then q.(flusher := Restoring)
      else ReleaseHead(q)
    case Restoring => q.(fullDirty := q.fullDirty + {q.taken[0].alloc}, flusher := Flagging)
    case Flagging => q.(fullPending := true, flusher := Dropping)
    case Dropping => ReleaseHead(q).(flusher := Releasing(true))
  }

  function AfterLooking(q: Queue): Flusher { if q.taken == [] then Idle else Send }

  function Flush(q: Queue, op: FlushOp): (r: Queue)
    requires FlushEnabled(q, op)
    ensures r.erased == q.erased && r.quiet == q.quiet && q.delivered <= r.delivered
  {
    match op
    case Begin => q.(flusher := Scan(q.next, q.start))
    case Next => FlushNext(q)
    case Look(a) => LookAt(q, a)
    case Collect(pages, t) => CollectAll(q, pages, t)
    case Sent(ok) => q.(flusher := Releasing(!ok))
  }

  // --------------------------------------------------------------- allocations

  /** What else the allocation mutex guards. `Quiesced` is the wait of
      lupine_remove_fault_entry and `Erase` follows the wait for pending to reach zero. */
  datatype AllocOp = List(a: Alloc) | ListDirty(a: Alloc, t: Tid)
    | Retire(a: Alloc) | Unlist(a: Alloc) | Quiesced(a: Alloc) | Erase(a: Alloc)
    | Borrow(a: Alloc, t: Tid) | Return(t: Tid)

  predicate AllocEnabled(q: Queue, op: AllocOp) {
    match op
    case List(a) => !Locked(q.flusher) && a !in q.pending && a !in q.erased
    case ListDirty(a, t) => !Locked(q.flusher) && a !in q.pending && a !in q.erased && t !in q.life
    case Retire(a) => !Locked(q.flusher) && a in q.pending
    case Unlist(a) => !Locked(q.flusher) && a in q.retiring
    case Quiesced(a) => a in q.retiring && a !in q.listed && q.active == 0
    case Erase(a) => !Locked(q.flusher) && a in q.quiet && a in q.pending && q.pending[a] == 0
    case Borrow(a, t) => !Locked(q.flusher) && a in q.pending && a !in q.retiring && t !in q.life
    case Return(t) => t in q.life && q.life[t].Borrowed? && q.life[t].a in q.pending
  }

  function Allocate(q: Queue, op: AllocOp): (r: Queue)
    requires AllocEnabled(q, op)
    ensures q.erased <= r.erased && q.quiet <= r.quiet && r.delivered == q.delivered
  {
    match op
    case List(a) => q.(pending := q.pending[a := 0], listed := q.listed + {a}, fullDirty := q.fullDirty - {a})
    case ListDirty(a, t) =>
      Goto(q.(pending := q.pending[a := 0], listed := q.listed + {a}, fullDirty := q.fullDirty + {a}), t, Marked(a))
    case Retire(a) => q.(retiring := q.retiring + {a})
    case Unlist(a) => q.(listed := q.listed - {a})
    case Quiesced(a) => q.(quiet := q.quiet + {a})
    case Erase(a) => q.(pending := q.pending - {a}, erased := q.erased + {a})
    case Borrow(a, t) => Goto(q.(pending := q.pending[a := q.pending[a] + 1]), t, Borrowed(a))
    case Return(t) => Goto(q.(pending := q.pending[q.life[t].a := Less(q.pending[q.life[t].a])]), t, Gone)
  }

  // ----------------------------------------------------------------- invariant

  predicate HasSlot(l: Life) { l.Reserved? || l.Written? || l.Published? }

  /** The life holds one of the references that pending counts. */
  predicate Refers(l: Life, a: Alloc) {
    (l.Counted? || l.Loaded? || HasSlot(l) || l.Taken? || l.Full? || l.Borrowed?) && l.a == a
  }

  /** A running handler that may still use the allocation pointer. */
  predicate InHandler(l: Life) {
    l.Found? || l.Counted? || l.Loaded? || l.Reserved? || l.Written? || l.Full? || l.Dropped?
  }

  ghost function Refs(life: map<Tid, Life>, a: Alloc): set<Tid> {
    set t | t in life && Refers(life[t], a)
  }

  type Lives = map<Tid, Life>

  function Single(l: Life, t: Tid): Range
    requires HasSlot(l)
  {
    Range(l.a, l.page, l.page + 1, t)
  }

  /** Faults hold distinct slots between `low` and `next`. */
  ghost predicate Slots(life: Lives, low: nat, next: nat) {
    && low <= next <= CAP
    && (forall t :: t in life && HasSlot(life[t]) ==> low <= life[t].slot < next)
    && (forall t, u ::
      t in life && u in life && HasSlot(life[t]) && HasSlot(life[u]) && life[t].slot == life[u].slot ==> t == u)
    && (forall s: nat :: low <= s < next ==> Owned(life, s))
  }

  ghost predicate Owned(life: Lives, s: nat) { exists t :: t in life && HasSlot(life[t]) && life[t].slot == s }

  /** Ready flags and slot contents are those of the slots' owners. */
  ghost predicate Contents(life: Lives, ranges: map<nat, Range>, ready: set<nat>) {
    && (forall t :: t in life && (life[t].Written? || life[t].Published?) ==>
          life[t].slot in ranges && ranges[life[t].slot] == Single(life[t], t))
    && (forall t :: t in life && life[t].Published? ==> life[t].slot in ready)
    && (forall s :: s in ready ==> s in ranges && ranges[s].fault in life && Publisher(life[ranges[s].fault], s))
  }

  predicate Publisher(l: Life, s: nat) { l.Published? && l.slot == s }

  ghost predicate AllReady(ready: set<nat>, lo: nat, hi: nat) { forall s: nat :: lo <= s < hi ==> s in ready }

  ghost predicate Scanned(f: Flusher, start: nat, next: nat, ready: set<nat>) {
    match f
    case Scan(reserved, end) => start <= end <= reserved <= next && AllReady(ready, start, end)
    case Peek(end) => start <= end <= next && AllReady(ready, start, end)
    case Take(slot, end, _) => slot <= end <= next && AllReady(ready, slot, end)
    case Advance(end, _) => end <= next
    case Swap(end, _) => end == start
    case _ => true
  }

  /** Everything published is waiting in its slot or was delivered, once and unchanged. */
  ghost predicate Delivery(life: Lives, published: map<Tid, Range>, delivered: seq<Range>) {
    && (forall t :: t in life && life[t].Published? ==> t in published && published[t] == Single(life[t], t))
    && (forall t :: t in published ==> t in life && (life[t].Published? || published[t] in delivered))
    && (forall r :: r in delivered ==>
          r.fault in published && published[r.fault] == r &&
            r.fault in life && (life[r.fault].Taken? || life[r.fault].Gone?))
    && DistinctFaults(delivered)
  }

  predicate DistinctFaults(s: seq<Range>) { forall i: nat, j: nat :: i < j < |s| ==> s[i].fault != s[j].fault }

  /** The flusher's list is the ranges that are Taken. */
  ghost predicate Held(life: Lives, taken: seq<Range>) {
    && (forall r :: r in taken ==> r.fault in life && life[r.fault] == Taken(r.alloc))
    && DistinctFaults(taken)
    && (forall t :: t in life && life[t].Taken? ==> InList(taken, t))
  }

  ghost predicate InList(taken: seq<Range>, t: Tid) { exists i: nat :: i < |taken| && taken[i].fault == t }

  predicate ListFits(f: Flusher, taken: seq<Range>) {
    && (f.Idle? || f.Scan? || f.Peek? ==> taken == [])
    && (f.Restoring? || f.Flagging? || f.Dropping? ==> taken != [])
  }

  /** pending counts the references. */
  ghost predicate Pending(life: Lives, pending: map<Alloc, nat>) {
    forall a :: a in pending ==> pending[a] == |Refs(life, a)|
  }

  /** active counts the handlers inside. */
  ghost predicate Running(life: Lives, inside: set<Tid>, active: nat) {
    && active == |inside|
    && inside <= life.Keys
    && (forall t :: t in life && (life[t].Active? || InHandler(life[t])) ==> t in inside)
  }

  ghost predicate SomeoneMarks(life: Lives, a: Alloc) { exists t :: t in life && life[t] == Marked(a) }

  /** A fully dirty mark on a live allocation is announced, or about to be. */
  predicate FlusherMarks(f: Flusher, taken: seq<Range>, a: Alloc) {
    || f.Lock?
    || (Locked(f) && a in f.todo)
    || (f.Flagging? && taken != [] && taken[0].alloc == a)
  }

  ghost predicate Marks(q: Queue) {
    forall a :: a in q.fullDirty && a in q.pending && a !in q.retiring ==>
      q.fullPending || SomeoneMarks(q.life, a) || FlusherMarks(q.flusher, q.taken, a)
  }

  predicate Touches(l: Life, a: Alloc) { Refers(l, a) || (InHandler(l) && l.a == a) }

  /** What anyone can still reach exists, and handlers cannot reach what is quiet. */
  ghost predicate Reach(life: Lives, quiet: set<Alloc>, there: set<Alloc>) {
    && (forall t :: t in life && InHandler(life[t]) ==> life[t].a !in quiet)
    && (forall t, a :: t in life && Touches(life[t], a) ==> a in there)
  }

  ghost predicate Stages(q: Queue) {
    && q.quiet <= q.retiring && q.erased <= q.quiet
    && q.retiring <= q.pending.Keys + q.erased
    && q.listed <= q.pending.Keys && q.listed !! q.quiet
    && q.pending.Keys !! q.erased
    && (Locked(q.flusher) ==> q.flusher.todo <= q.pending.Keys)
    && (q.flusher.Add? ==> q.flusher.a in q.pending.Keys)
  }

  ghost predicate Inv(q: Queue) {
    && Slots(q.life, q.Low(), q.next)
    && Contents(q.life, q.ranges, q.ready)
    && Scanned(q.flusher, q.start, q.next, q.ready)
    && Delivery(q.life, q.published, q.delivered)
    && Held(q.life, q.taken) && ListFits(q.flusher, q.taken)
    && Pending(q.life, q.pending)
    && Running(q.life, q.inside, q.active)
    && Marks(q)
    && Reach(q.life, q.quiet, q.pending.Keys)
    && Stages(q)
  }

  // -------------------------------------------------- how one fault's move acts

  /** Not in a slot, delivered, or in the flusher's list. */
  predicate Aside(l: Life) { !HasSlot(l) && !l.Taken? && !l.Gone? }

  /** A move between states outside the queue. */
  lemma AsideSlots(life: Lives, t: Tid, l: Life, low: nat, next: nat, ranges: map<nat, Range>, ready: set<nat>)
    requires Slots(life, low, next) && Contents(life, ranges, ready)
    requires (t in life ==> !HasSlot(life[t])) && !HasSlot(l)
    ensures Slots(life[t := l], low, next) && Contents(life[t := l], ranges, ready)
  {
    var r := life[t := l];
    forall s: nat | low <= s < next
      ensures Owned(r, s)
    {
      assert Owned(life, s);
      var u :| u in life && HasSlot(life[u]) && life[u].slot == s;
      assert u in r && HasSlot(r[u]);
    }
  }

  lemma AsideDelivery(life: Lives, t: Tid, l: Life, published: map<Tid, Range>, delivered: seq<Range>)
    requires Delivery(life, published, delivered)
    requires (t in life ==> Aside(life[t])) && !l.Published?
    ensures Delivery(life[t := l], published, delivered)
  {
  }

  lemma AsideHeld(life: Lives, t: Tid, l: Life, taken: seq<Range>)
    requires Held(life, taken)
    requires (t in life ==> !life[t].Taken?) && !l.Taken?
    ensures Held(life[t := l], taken)
  {
  }

  lemma SlotReserved(life: Lives, t: Tid, l: Life, low: nat, next: nat)
    requires Slots(life, low, next) && t in life && Aside(life[t])
    requires next < CAP && l.Reserved? && l.slot == next
    ensures Slots(life[t := l], low, next + 1)
  {
    var r := life[t := l];
    forall s: nat | low <= s < next + 1
      ensures Owned(r, s)
    {
      if s == next {
        assert t in r && HasSlot(r[t]) && r[t].slot == s;
      } else {
        assert Owned(life, s);
        var u :| u in life && HasSlot(life[u]) && life[u].slot == s;
        assert u in r && HasSlot(r[u]);
      }
    }
  }

  lemma SlotKept(life: Lives, t: Tid, l: Life, low: nat, next: nat)
    requires Slots(life, low, next) && t in life && HasSlot(life[t]) && HasSlot(l) && l.slot == life[t].slot
    ensures Slots(life[t := l], low, next)
  {
    var r := life[t := l];
    forall s: nat | low <= s < next
      ensures Owned(r, s)
    {
      assert Owned(life, s);
      var u :| u in life && HasSlot(life[u]) && life[u].slot == s;
      assert u in r && HasSlot(r[u]);
    }
  }

  lemma SlotTaken(life: Lives, t: Tid, l: Life, low: nat, next: nat)
    requires Slots(life, low, next) && t in life && HasSlot(life[t]) && life[t].slot == low && !HasSlot(l)
    ensures Slots(life[t := l], low + 1, next)
  {
    var r := life[t := l];
    forall s: nat | low + 1 <= s < next
      ensures Owned(r, s)
    {
      assert Owned(life, s);
      var u :| u in life && HasSlot(life[u]) && life[u].slot == s;
      assert u in r && HasSlot(r[u]);
    }
  }

  /** Entering a slot, and writing to one that is not ready, leaves the others alone. */
  lemma ReservedContents(life: Lives, t: Tid, l: Life, ranges: map<nat, Range>, ready: set<nat>)
    requires Contents(life, ranges, ready) && t in life && Aside(life[t]) && l.Reserved?
    ensures Contents(life[t := l], ranges, ready)
  {
  }

  lemma WrittenContents(life: Lives, t: Tid, low: nat, next: nat, ranges: map<nat, Range>, ready: set<nat>)
    requires Slots(life, low, next) && Contents(life, ranges, ready) && t in life && life[t].Reserved?
    ensures var l := Written(life[t].a, life[t].page, life[t].slot);
      Contents(life[t := l], ranges[l.slot := Single(l, t)], ready)
  {
  }

  lemma PublishedContents(life: Lives, t: Tid, ranges: map<nat, Range>, ready: set<nat>)
    requires Contents(life, ranges, ready) && t in life && life[t].Written?
    ensures var l := Published(life[t].a, life[t].page, life[t].slot);
      Contents(life[t := l], ranges, ready + {l.slot})
  {
  }

  lemma TakenContents(life: Lives, s: nat, low: nat, next: nat, ranges: map<nat, Range>, ready: set<nat>)
    requires Slots(life, low, next) && Contents(life, ranges, ready) && s in ready
    ensures Contents(life[ranges[s].fault := Taken(ranges[s].alloc)], ranges, ready - {s})
  {
  }

  lemma QueueDelivery(life: Lives, t: Tid, l: Life,
      published: map<Tid, Range>, delivered: seq<Range>, taken: seq<Range>)
    requires Delivery(life, published, delivered) && Held(life, taken)
    requires t in life && !life[t].Published? && !life[t].Taken? && !life[t].Gone? && HasSlot(l)
    ensures Held(life[t := l], taken)
    ensures !l.Published? ==> Delivery(life[t := l], published, delivered)
    ensures l.Published? ==> Delivery(life[t := l], published[t := Single(l, t)], delivered)
  {
  }

  lemma TakenDelivery(life: Lives, t: Tid, published: map<Tid, Range>, delivered: seq<Range>, taken: seq<Range>)
    requires Delivery(life, published, delivered) && Held(life, taken) && t in life && life[t].Published?
    ensures var r := Single(life[t], t);
      Delivery(life[t := Taken(r.alloc)], published, delivered + [r]) && Held(life[t := Taken(r.alloc)], taken + [r])
  {
    TakenHeld(life, t, Single(life[t], t), taken);
    assert forall r :: r in delivered ==> r in delivered + [Single(life[t], t)];
  }

  lemma TakenHeld(life: Lives, t: Tid, r: Range, taken: seq<Range>)
    requires Held(life, taken) && (t in life ==> !life[t].Taken?) && r.fault == t
    ensures Held(life[t := Taken(r.alloc)], taken + [r])
  {
    var more := taken + [r];
    forall u | u in life[t := Taken(r.alloc)] && life[t := Taken(r.alloc)][u].Taken?
      ensures InList(more, u)
    {
      if u == t {
        assert more[|taken|].fault == t;
      } else {
        var i: nat :| i < |taken| && taken[i].fault == u;
        assert more[i].fault == u;
      }
    }
  }

  lemma ReleasedDelivery(life: Lives, t: Tid, published: map<Tid, Range>, delivered: seq<Range>)
    requires Delivery(life, published, delivered) && t in life && life[t].Taken?
    ensures Delivery(life[t := Gone], published, delivered)
  {
  }

  lemma ReleasedHeld(life: Lives, taken: seq<Range>)
    requires Held(life, taken) && taken != []
    ensures Held(life[taken[0].fault := Gone], taken[1..])
  {
    var t := taken[0].fault;
    forall u | u in life && u != t && life[u].Taken?
      ensures InList(taken[1..], u)
    {
      var i: nat :| i < |taken| && taken[i].fault == u;
      assert taken[1..][i - 1].fault == u;
    }
  }

  lemma RefsMove(life: Lives, t: Tid, l: Life, a: Alloc)
    ensures |Refs(life[t := l], a)| + One(t in life && Refers(life[t], a)) == |Refs(life, a)| + One(Refers(l, a))
  {
    CardinalityMove(Refs(life, a), Refs(life[t := l], a), t);
  }

  lemma SameRefs(life: Lives, t: Tid, l: Life, pending: map<Alloc, nat>)
    requires Pending(life, pending)
    requires forall a :: Refers(l, a) <==> t in life && Refers(life[t], a)
    ensures Pending(life[t := l], pending)
  {
    forall a | a in pending
      ensures pending[a] == |Refs(life[t := l], a)|
    {
      RefsMove(life, t, l, a);
    }
  }

  lemma GainRef(life: Lives, t: Tid, l: Life, a: Alloc, pending: map<Alloc, nat>)
    requires Pending(life, pending) && a in pending && Refers(l, a)
    requires t in life ==> forall b :: !Refers(life[t], b)
    ensures Pending(life[t := l], pending[a := pending[a] + 1])
  {
    forall b | b in pending
      ensures pending[a := pending[a] + 1][b] == |Refs(life[t := l], b)|
    {
      RefsMove(life, t, l, b);
    }
  }

  lemma LoseRef(life: Lives, t: Tid, l: Life, a: Alloc, pending: map<Alloc, nat>)
    requires Pending(life, pending) && a in pending && t in life && Refers(life[t], a)
    requires forall b :: !Refers(l, b)
    ensures 1 <= pending[a] && Pending(life[t := l], pending[a := Less(pending[a])])
  {
    assert t in Refs(life, a);
    forall b | b in pending
      ensures pending[a := Less(pending[a])][b] == |Refs(life[t := l], b)|
    {
      RefsMove(life, t, l, b);
    }
  }

  lemma InsideMove(life: Lives, t: Tid, l: Life, inside: set<Tid>, active: nat)
    requires Running(life, inside, active)
    requires l.Active? || InHandler(l) ==> t in inside
    ensures Running(life[t := l], inside, active)
  {
  }

  lemma InsideEnter(life: Lives, t: Tid, inside: set<Tid>, active: nat)
    requires Running(life, inside, active) && t !in life
    ensures Running(life[t := Active], inside + {t}, active + 1)
  {
  }

  lemma InsideExit(life: Lives, t: Tid, inside: set<Tid>, active: nat)
    requires Running(life, inside, active) && t in inside
    requires t in life && !life[t].Active? && !InHandler(life[t])
    ensures Running(life, inside - {t}, Less(active))
  {
  }

  // ------------------------------------------------------------ handler steps

  /** A handler's move outside the queue that touches nothing else. */
  lemma AsideStep(q: Queue, t: Tid, l: Life)
    requires Inv(q) && (t in q.life ==> Aside(q.life[t])) && !HasSlot(l) && !l.Taken?
    ensures Slots(q.life[t := l], q.Low(), q.next) && Contents(q.life[t := l], q.ranges, q.ready)
    ensures Delivery(q.life[t := l], q.published, q.delivered) && Held(q.life[t := l], q.taken)
  {
    AsideSlots(q.life, t, l, q.Low(), q.next, q.ranges, q.ready);
    AsideDelivery(q.life, t, l, q.published, q.delivered);
    AsideHeld(q.life, t, l, q.taken);
  }

  /** Marks survive when the marking fault stays as it is. */
  lemma MarksMove(q: Queue, r: Queue, t: Tid)
    requires Marks(q) && t in r.life && r.life == q.life[t := r.life[t]]
    requires t in q.life && q.life[t].Marked? ==> r.fullPending
    requires q.fullPending ==> r.fullPending
    requires r.flusher == q.flusher && r.taken == q.taken
    requires r.pending.Keys == q.pending.Keys && q.retiring <= r.retiring
    requires forall a :: a in r.fullDirty ==> a in q.fullDirty || r.life[t] == Marked(a)
    ensures Marks(r)
  {
    forall a | a in r.fullDirty && a in r.pending && a !in r.retiring
      ensures r.fullPending || SomeoneMarks(r.life, a) || FlusherMarks(r.flusher, r.taken, a)
    {
      if r.life[t] == Marked(a) {
        assert SomeoneMarks(r.life, a);
      } else if SomeoneMarks(q.life, a) {
        var u :| u in q.life && q.life[u] == Marked(a);
        if u != t {
          assert r.life[u] == Marked(a);
        }
      }
    }
  }

  lemma ReachMove(life: Lives, t: Tid, l: Life, quiet: set<Alloc>, there: set<Alloc>)
    requires Reach(life, quiet, there)
    requires forall a :: InHandler(l) && l.a == a ==>
      (t in life && InHandler(life[t]) && life[t].a == a) || (a !in quiet && a in there)
    requires forall a :: Refers(l, a) ==> (t in life && Touches(life[t], a)) || a in there
    ensures Reach(life[t := l], quiet, there)
  {
  }

  lemma IsInside(q: Queue, t: Tid)
    requires Inv(q) && t in q.life
    ensures q.life[t].Active? || InHandler(q.life[t]) ==> t in q.inside
  {
  }

  lemma ArriveInv(q: Queue, t: Tid)
    requires Inv(q) && t !in q.life
    ensures Inv(Handler(q, t, Arrive))
  {
    hide Slots, Contents, Delivery, Held, Pending, Running, Reach, Marks, Refs;
    var r := Handler(q, t, Arrive);
    AsideStep(q, t, Active);
    SameRefs(q.life, t, Active, q.pending);
    InsideEnter(q.life, t, q.inside, q.active);
    MarksMove(q, r, t);
    ReachMove(q.life, t, Active, q.quiet, q.pending.Keys);
  }

  lemma LeaveInv(q: Queue, t: Tid, op: HandlerOp)
    requires Inv(q) && HandlerEnabled(q, t, op) && (op.Miss? || op.Quit? || op.Leave?)
    ensures Inv(Handler(q, t, op))
  {
    hide Slots, Contents, Delivery, Held, Pending, Reach, Marks, Refs, Running;
    var r := Handler(q, t, op);
    IsInside(q, t);
    if op.Leave? {
      assert r.life == q.life[t := q.life[t]];
      InsideExit(q.life, t, q.inside, q.active);
    } else {
      AsideStep(q, t, Gone);
      SameRefs(q.life, t, Gone, q.pending);
      InsideMove(q.life, t, Gone, q.inside, q.active);
      InsideExit(q.life[t := Gone], t, q.inside, q.active);
      ReachMove(q.life, t, Gone, q.quiet, q.pending.Keys);
    }
    MarksMove(q, r, t);
  }

  /** Moves of the fault alone. */
  lemma WalkInv(q: Queue, t: Tid, l: Life)
    requires Inv(q) && t in q.life && Aside(q.life[t]) && !q.life[t].Marked?
    requires Aside(l) && !l.Marked? && (l.Active? || InHandler(l) ==> q.life[t].Active? || InHandler(q.life[t]))
    requires forall a :: Refers(l, a) <==> Refers(q.life[t], a)
    requires InHandler(l) ==> (InHandler(q.life[t]) && q.life[t].a == l.a) || (l.a !in q.quiet && l.a in q.pending)
    ensures Inv(Goto(q, t, l))
  {
    hide Slots, Contents, Delivery, Held, Pending, Reach, Marks, Refs, Running;
    IsInside(q, t);
    AsideStep(q, t, l);
    InsideMove(q.life, t, l, q.inside, q.active);
    MarksMove(q, Goto(q, t, l), t);
    ReachMove(q.life, t, l, q.quiet, q.pending.Keys);
    SameRefs(q.life, t, l, q.pending);
  }

  lemma FindInv(q: Queue, t: Tid, a: Alloc)
    requires Inv(q) && HandlerEnabled(q, t, Find(a))
    ensures Inv(Handler(q, t, Find(a)))
  {
    hide Slots, Contents, Delivery, Held, Pending, Reach, Marks, Refs, Running;
    assert a in q.listed && a in q.pending.Keys;
    WalkInv(q, t, Found(a));
  }

  lemma TryInv(q: Queue, t: Tid, op: HandlerOp)
    requires Inv(q) && HandlerEnabled(q, t, op) && (op.Load? || (op.Cas? && !Wins(q, t)))
    ensures Inv(Handler(q, t, op))
  {
    hide Inv;
    WalkInv(q, t, Handler(q, t, op).life[t]);
  }

  lemma FlagInv(q: Queue, t: Tid, op: HandlerOp)
    requires Inv(q) && HandlerEnabled(q, t, op) && (op.Mark? || op.Flag?)
    ensures Inv(Handler(q, t, op))
  {
    hide Slots, Contents, Delivery, Held, Pending, Reach, Marks, Refs, Running;
    var r := Handler(q, t, op);
    var l := r.life[t];
    AsideStep(q, t, l);
    InsideMove(q.life, t, l, q.inside, q.active);
    MarksMove(q, r, t);
    ReachMove(q.life, t, l, q.quiet, q.pending.Keys);
    SameRefs(q.life, t, l, q.pending);
  }

  lemma CountInv(q: Queue, t: Tid, op: HandlerOp)
    requires Inv(q) && HandlerEnabled(q, t, op) && (op.Count? || op.Drop?)
    ensures Inv(Handler(q, t, op))
  {
    hide Slots, Contents, Delivery, Held, Pending, Reach, Marks, Refs, Running;
    var r := Handler(q, t, op);
    var l := r.life[t];
    IsInside(q, t);
    AsideStep(q, t, l);
    InsideMove(q.life, t, l, q.inside, q.active);
    assert r.pending.Keys == q.pending.Keys;
    MarksMove(q, r, t);
    ReachMove(q.life, t, l, q.quiet, q.pending.Keys);
    if op.Count? {
      GainRef(q.life, t, l, l.a, q.pending);
    } else {
      LoseRef(q.life, t, l, l.a, q.pending);
    }
  }

  /** The compare-exchange of lupine_reserve_dirty_host_range succeeds. */
  predicate Wins(q: Queue, t: Tid) {
    t in q.life && q.life[t].Loaded? && q.life[t].seen < CAP && q.next == q.life[t].seen
  }

  lemma ReserveInv(q: Queue, t: Tid)
    requires Inv(q) && HandlerEnabled(q, t, Cas) && Wins(q, t)
    ensures Inv(Handler(q, t, Cas))
  {
    hide Slots, Contents, Delivery, Held, Pending, Reach, Marks, Refs, Running;
    var r := Handler(q, t, Cas);
    var l := r.life[t];
    IsInside(q, t);
    InsideMove(q.life, t, l, q.inside, q.active);
    MarksMove(q, r, t);
    ReachMove(q.life, t, l, q.quiet, q.pending.Keys);
    SameRefs(q.life, t, l, q.pending);
    SlotReserved(q.life, t, l, q.Low(), q.next);
    ReservedContents(q.life, t, l, q.ranges, q.ready);
    QueueDelivery(q.life, t, l, q.published, q.delivered, q.taken);
  }

  lemma FillInv(q: Queue, t: Tid, op: HandlerOp)
    requires Inv(q) && HandlerEnabled(q, t, op) && (op.Write? || op.Publish?)
    ensures Inv(Handler(q, t, op))
  {
    hide Slots, Contents, Delivery, Held, Pending, Reach, Marks, Refs, Running;
    var r := Handler(q, t, op);
    var l := r.life[t];
    IsInside(q, t);
    InsideMove(q.life, t, l, q.inside, q.active);
    MarksMove(q, r, t);
    ReachMove(q.life, t, l, q.quiet, q.pending.Keys);
    SameRefs(q.life, t, l, q.pending);
    SlotKept(q.life, t, l, q.Low(), q.next);
    QueueDelivery(q.life, t, l, q.published, q.delivered, q.taken);
    if op.Write? {
      WrittenContents(q.life, t, q.Low(), q.next, q.ranges, q.ready);
    } else {
      PublishedContents(q.life, t, q.ranges, q.ready);
    }
  }

  lemma HandlerInv(q: Queue, t: Tid, op: HandlerOp)
    requires Inv(q) && HandlerEnabled(q, t, op)
    ensures Inv(Handler(q, t, op))
  {
    hide Inv, Handler;
    if op.Arrive? {
      ArriveInv(q, t);
    } else if op.Miss? || op.Quit? || op.Leave? {
      LeaveInv(q, t, op);
    } else if op.Cas? && Wins(q, t) {
      ReserveInv(q, t);
    } else if op.Count? || op.Drop? {
      CountInv(q, t, op);
    } else if op.Mark? || op.Flag? {
      FlagInv(q, t, op);
    } else if op.Write? || op.Publish? {
      FillInv(q, t, op);
    } else if op.Find? {
      FindInv(q, t, op.a);
    } else {
      TryInv(q, t, op);
    }
  }

  // ------------------------------------------------------------ flusher steps

  /** Collecting one ready slot. */
  lemma TakeSlotInv(q: Queue)
    requires Inv(q) && q.flusher.Take? && q.flusher.slot < q.flusher.end
    ensures FlushEnabled(q, Next)
    ensures Inv(FlushNext(q))
  {
    var s := q.flusher.slot;
    assert s in q.ready;
    TakeReadyInv(q, s);
  }

  lemma TakeReadyInv(q: Queue, s: nat)
    requires Inv(q) && q.flusher.Take? && s == q.flusher.slot < q.flusher.end && s in q.ready
    ensures FlushEnabled(q, Next)
    ensures Inv(FlushNext(q))
  {
    hide Slots, Delivery, Held, Pending, Reach, Marks, Refs, Running;
    var t, a := q.ranges[s].fault, q.ranges[s].alloc;
    var l := q.life[t];
    assert l.Published? && l.slot == s && q.ranges[s] == Single(l, t);
    TakenContents(q.life, s, s, q.next, q.ranges, q.ready);
    hide Contents;
    var r := FlushNext(q);
    SlotTaken(q.life, t, Taken(a), s, q.next);
    TakenDelivery(q.life, t, q.published, q.delivered, q.taken);
    SameRefs(q.life, t, Taken(a), q.pending);
    InsideMove(q.life, t, Taken(a), q.inside, q.active);
    ReachMove(q.life, t, Taken(a), q.quiet, q.pending.Keys);
    MarksFlush(q, r, t);
  }

  /** The flusher neither marks nor unmarks here. */
  lemma MarksFlush(q: Queue, r: Queue, t: Tid)
    requires Marks(q) && t in r.life && r.life == q.life[t := r.life[t]]
    requires t in q.life && q.life[t].Marked? ==> r.life[t] == q.life[t]
    requires q.fullPending ==> r.fullPending
    requires r.pending.Keys == q.pending.Keys && q.retiring <= r.retiring
    requires forall a :: a in r.fullDirty && a in r.pending && a !in r.retiring ==>
      FlusherMarks(r.flusher, r.taken, a) ||
        (a in q.fullDirty && (FlusherMarks(q.flusher, q.taken, a) ==> r.fullPending))
    ensures Marks(r)
  {
    forall a | a in r.fullDirty && a in r.pending && a !in r.retiring
      ensures r.fullPending || SomeoneMarks(r.life, a) || FlusherMarks(r.flusher, r.taken, a)
    {
      if SomeoneMarks(q.life, a) {
        var u :| u in q.life && q.life[u] == Marked(a);
        assert r.life[u] == Marked(a);
      }
    }
  }

  /** Releasing the reference of the first range held. */
  lemma ReleaseHeadInv(q: Queue, f: Flusher)
    requires Inv(q) && (q.flusher.Releasing? || q.flusher.Dropping?) && q.taken != [] && f.Releasing?
    ensures q.taken[0].alloc in q.pending
    ensures Inv(ReleaseHead(q).(flusher := f))
  {
    var t, a := q.taken[0].fault, q.taken[0].alloc;
    assert q.taken[0] in q.taken;
    assert t in q.life && q.life[t] == Taken(a) && Touches(q.life[t], a);
    assert a in q.pending.Keys;
    ReleaseHeldInv(q, f, t, a);
  }

  lemma ReleaseHeldInv(q: Queue, f: Flusher, t: Tid, a: Alloc)
    requires Inv(q) && (q.flusher.Releasing? || q.flusher.Dropping?) && q.taken != [] && f.Releasing?
    requires t == q.taken[0].fault && a == q.taken[0].alloc && a in q.pending && t in q.life && q.life[t] == Taken(a)
    ensures Inv(ReleaseHead(q).(flusher := f))
  {
    hide Slots, Contents, Delivery, Held, Pending, Reach, Marks, Refs, Running;
    var r := ReleaseHead(q).(flusher := f);
    AsideSlots(q.life, t, Gone, q.Low(), q.next, q.ranges, q.ready);
    ReleasedHeld(q.life, q.taken);
    ReleasedDelivery(q.life, t, q.published, q.delivered);
    LoseRef(q.life, t, Gone, a, q.pending);
    InsideMove(q.life, t, Gone, q.inside, q.active);
    ReachMove(q.life, t, Gone, q.quiet, q.pending.Keys);
    assert r.pending.Keys == q.pending.Keys;
    MarksFlush(q, r, t);
  }

  lemma LookInv(q: Queue, a: Alloc)
    requires Inv(q) && FlushEnabled(q, Look(a))
    ensures Inv(LookAt(q, a))
  {
    hide Slots, Contents, Delivery, Held, Pending, Reach, Refs, Running;
    LookMarks(q, LookAt(q, a), a);
  }

  lemma LookMarks(q: Queue, r: Queue, a: Alloc)
    requires Marks(q) && q.flusher.Visit? && r == LookAt(q, a)
    ensures Marks(r)
  {
    forall b | b in r.fullDirty && b in r.pending && b !in r.retiring
      ensures r.fullPending || SomeoneMarks(r.life, b) || FlusherMarks(r.flusher, r.taken, b)
    {
    }
  }

  /** Adding a whole allocation to the list. */
  lemma CollectInv(q: Queue, pages: nat, t: Tid)
    requires Inv(q) && FlushEnabled(q, Collect(pages, t))
    ensures Inv(CollectAll(q, pages, t))
  {
    hide Slots, Contents, Delivery, Held, Pending, Reach, Refs, Running, Marks;
    var a, r := q.flusher.a, CollectAll(q, pages, t);
    AsideSlots(q.life, t, Taken(a), q.Low(), q.next, q.ranges, q.ready);
    AsideDelivery(q.life, t, Taken(a), q.published, q.delivered);
    TakenHeld(q.life, t, Range(a, 0, pages, t), q.taken);
    GainRef(q.life, t, Taken(a), a, q.pending);
    InsideMove(q.life, t, Taken(a), q.inside, q.active);
    ReachMove(q.life, t, Taken(a), q.quiet, q.pending.Keys);
    assert r.pending.Keys == q.pending.Keys;
    MarksFlush(q, r, t);
  }

  /** With every slot collected, resetting `next` strands nobody. */
  lemma EmptySlots(life: Lives, n: nat)
    requires Slots(life, n, n)
    ensures Slots(life, 0, 0)
  {
  }

  /** The flusher accounts for marks. */
  predicate Marking(f: Flusher) { f.Lock? || Locked(f) || f.Flagging? }

  /** Nothing but the cursors changed. */
  predicate SameRest(q: Queue, r: Queue) {
    r == q.(flusher := r.flusher, start := r.start, next := r.next) && !Marking(r.flusher) && !Marking(q.flusher)
  }

  lemma CursorMove(q: Queue, r: Queue)
    requires Inv(q) && SameRest(q, r)
    requires Slots(r.life, r.Low(), r.next)
    requires Scanned(r.flusher, r.start, r.next, r.ready) && ListFits(r.flusher, r.taken)
    ensures Inv(r)
  {
    hide Slots, Contents, Scanned, Delivery, Held, Pending, Reach, Refs, Running;
  }

  lemma PeekInv(q: Queue)
    requires Inv(q) && q.flusher.Peek?
    ensures Inv(FlushNext(q))
  {
    hide Slots, Contents, Delivery, Held, Pending, Reach, Refs, Running, Marks, Stages;
    CursorMove(q, FlushNext(q));
  }

  lemma ScanInv(q: Queue)
    requires Inv(q) && (q.flusher.Scan? || (q.flusher.Take? && q.flusher.slot == q.flusher.end))
    ensures Inv(FlushNext(q))
  {
    hide Slots, Contents, Delivery, Held, Pending, Reach, Refs, Running, Marks, Stages;
    CursorMove(q, FlushNext(q));
  }

  lemma RewindInv(q: Queue)
    requires Inv(q) && (q.flusher.Advance? || q.flusher.Swap? || q.flusher.Reset?)
    ensures Inv(FlushNext(q))
  {
    hide Slots, Contents, Delivery, Held, Pending, Reach, Refs, Running, Marks;
    if q.flusher.Swap? && q.next == q.flusher.end {
      EmptySlots(q.life, q.next);
    }
    CursorMove(q, FlushNext(q));
  }

  lemma FlagsInv(q: Queue)
    requires Inv(q) && FlushEnabled(q, Next)
    requires q.flusher.Exchange? || q.flusher.Lock? || q.flusher.Visit? || q.flusher.Restoring? || q.flusher.Flagging?
      || (q.flusher.Releasing? && (q.taken == [] || (q.flusher.restore && q.taken[0].alloc !in q.retiring)))
    ensures Inv(FlushNext(q))
  {
    hide Slots, Contents, Delivery, Held, Pending, Reach, Refs, Running;
    var r := FlushNext(q);
  }

  lemma FlushInv(q: Queue, op: FlushOp)
    requires Inv(q) && FlushEnabled(q, op)
    ensures Inv(Flush(q, op))
  {
    match op
    case Begin => BeginInv(q);
    case Look(a) => LookInv(q, a);
    case Collect(pages, t) => CollectInv(q, pages, t);
    case Sent(ok) => SentInv(q, ok);
    case Next => NextInv(q);
  }

  lemma BeginInv(q: Queue)
    requires Inv(q) && q.flusher.Idle?
    ensures Inv(Flush(q, Begin))
  {
    hide Contents, Delivery, Held, Pending, Reach, Refs, Running;
  }

  lemma SentInv(q: Queue, ok: bool)
    requires Inv(q) && q.flusher.Send?
    ensures Inv(Flush(q, Sent(ok)))
  {
    hide Slots, Contents, Delivery, Held, Pending, Reach, Refs, Running;
  }

  lemma NextInv(q: Queue)
    requires Inv(q) && FlushEnabled(q, Next)
    ensures Inv(FlushNext(q))
  {
    var f := q.flusher;
    if f.Take? && f.slot < f.end {
      TakeSlotInv(q);
    } else if f.Dropping? || (f.Releasing? && q.taken != [] && (!f.restore || q.taken[0].alloc in q.retiring)) {
      hide Inv;
      ReleaseHeadInv(q, if f.Dropping? then Releasing(true) else f);
    } else if f.Exchange? || f.Lock? || f.Visit? || f.Restoring? || f.Flagging? || f.Releasing? {
      FlagsInv(q);
    } else if f.Peek? {
      PeekInv(q);
    } else if f.Scan? || f.Take? {
      ScanInv(q);
    } else {
      RewindInv(q);
    }
  }

  // --------------------------------------------------------- allocation steps

  lemma ListInv(q: Queue, a: Alloc)
    requires Inv(q) && AllocEnabled(q, List(a))
    ensures Inv(Allocate(q, List(a)))
  {
    hide Slots, Contents, Delivery, Held, Pending, Refs, Running, Reach, Marks;
    NoRefs(q, a);
    var r := Allocate(q, List(a));
    MoreReach(q.life, q.quiet, q.pending.Keys, r.pending.Keys);
    assert a !in q.retiring;
    NewMarks(q, r, a);
  }

  /** An allocation that is not there is referred to by nobody. */
  lemma NoRefs(q: Queue, a: Alloc)
    requires Inv(q) && a !in q.pending
    ensures Refs(q.life, a) == {}
    ensures Pending(q.life, q.pending[a := 0])
  {
    forall t | t in q.life
      ensures Refers(q.life[t], a) ==> Touches(q.life[t], a)
    {
    }
    assert Refs(q.life, a) == {};
  }

  lemma NewMarks(q: Queue, r: Queue, a: Alloc)
    requires Marks(q) && r.life == q.life && r.flusher == q.flusher
    requires r.taken == q.taken && r.fullPending == q.fullPending
    requires r.retiring == q.retiring && r.pending.Keys == q.pending.Keys + {a} && r.fullDirty == q.fullDirty - {a}
    ensures Marks(r)
  {
  }

  lemma ListDirtyInv(q: Queue, a: Alloc, t: Tid)
    requires Inv(q) && AllocEnabled(q, ListDirty(a, t))
    ensures Inv(Allocate(q, ListDirty(a, t)))
  {
    ListInv(q, a);
    var b := Allocate(q, List(a));
    DirtyListed(q, b, a, t);
  }

  lemma DirtyListed(q: Queue, b: Queue, a: Alloc, t: Tid)
    requires AllocEnabled(q, ListDirty(a, t)) && b == Allocate(q, List(a)) && Inv(b)
    ensures Inv(Allocate(q, ListDirty(a, t)))
  {
    hide Slots, Contents, Delivery, Held, Pending, Refs, Running, Reach, Marks;
    AsideStep(b, t, Marked(a));
    SameRefs(b.life, t, Marked(a), b.pending);
    InsideMove(b.life, t, Marked(a), b.inside, b.active);
    ReachMove(b.life, t, Marked(a), b.quiet, b.pending.Keys);
    MarksMove(b, Allocate(q, ListDirty(a, t)), t);
  }

  lemma BorrowInv(q: Queue, op: AllocOp, t: Tid, a: Alloc, l: Life)
    requires Inv(q) && AllocEnabled(q, op)
    requires (op == Borrow(a, t) && l == Borrowed(a)) || (op == Return(t) && q.life[t] == Borrowed(a) && l == Gone)
    ensures Inv(Allocate(q, op))
  {
    hide Slots, Contents, Delivery, Held, Pending, Refs, Running, Reach, Marks;
    var r := Allocate(q, op);
    AsideStep(q, t, l);
    InsideMove(q.life, t, l, q.inside, q.active);
    ReachMove(q.life, t, l, q.quiet, q.pending.Keys);
    if op.Borrow? {
      GainRef(q.life, t, l, a, q.pending);
    } else {
      LoseRef(q.life, t, l, a, q.pending);
    }
    assert r.pending.Keys == q.pending.Keys;
    MarksMove(q, r, t);
  }

  lemma RetireInv(q: Queue, op: AllocOp)
    requires Inv(q) && AllocEnabled(q, op) && (op.Retire? || op.Unlist?)
    ensures Inv(Allocate(q, op))
  {
    hide Slots, Contents, Delivery, Held, Pending, Refs, Running, Reach;
  }

  /** When no handler is running, none holds any allocation. */
  lemma QuiescedInv(q: Queue, a: Alloc)
    requires Inv(q) && AllocEnabled(q, Quiesced(a))
    ensures Inv(Allocate(q, Quiesced(a)))
  {
    hide Slots, Contents, Delivery, Held, Pending, Refs, Running, Marks, Reach, InHandler;
    NoHandler(q);
    QuietReach(q.life, q.quiet, q.pending.Keys, a);
    MarksSame(q, Allocate(q, Quiesced(a)));
  }

  lemma MoreReach(life: Lives, quiet: set<Alloc>, there: set<Alloc>, more: set<Alloc>)
    requires Reach(life, quiet, there) && there <= more
    ensures Reach(life, quiet, more)
  {
  }

  lemma QuietReach(life: Lives, quiet: set<Alloc>, there: set<Alloc>, a: Alloc)
    requires Reach(life, quiet, there) && forall t :: t in life ==> !InHandler(life[t])
    ensures Reach(life, quiet + {a}, there)
  {
  }

  lemma ErasedReach(life: Lives, quiet: set<Alloc>, there: set<Alloc>, a: Alloc)
    requires Reach(life, quiet, there) && a in quiet && forall t :: t in life ==> !Refers(life[t], a)
    ensures Reach(life, quiet, there - {a})
  {
  }

  lemma MarksSame(q: Queue, r: Queue)
    requires Marks(q) && r.life == q.life && r.flusher == q.flusher
    requires r.taken == q.taken && r.fullPending == q.fullPending
    requires q.retiring == r.retiring && r.pending.Keys <= q.pending.Keys && r.fullDirty == q.fullDirty
    ensures Marks(r)
  {
  }

  lemma NoHandler(q: Queue)
    requires Inv(q) && q.active == 0
    ensures forall t :: t in q.life ==> !InHandler(q.life[t])
  {
  }

  lemma ZeroRefs(life: Lives, pending: map<Alloc, nat>, a: Alloc)
    requires Pending(life, pending) && a in pending
    ensures pending[a] == 0 <==> forall t :: t in life ==> !Refers(life[t], a)
  {
    if pending[a] == 0 {
      assert Refs(life, a) == {};
      assert forall t :: t in life && Refers(life[t], a) ==> t in Refs(life, a);
    } else {
      var t :| t in Refs(life, a);
    }
  }

  /** A zero reading of pending means that nothing refers to the allocation: no handler,
      no slot, no flush in progress, no reader. */
  lemma ZeroMeansNone(q: Queue, a: Alloc)
    requires Inv(q) && a in q.pending
    ensures q.pending[a] == 0 <==> forall t :: t in q.life ==> !Refers(q.life[t], a)
    ensures q.pending[a] == 0 ==>
      && (forall s: nat :: q.Low() <= s < q.next && s in q.ready ==> s in q.ranges && q.ranges[s].alloc != a)
      && (forall r :: r in q.taken ==> r.alloc != a)
  {
    ZeroRefs(q.life, q.pending, a);
  }

  lemma EraseInv(q: Queue, a: Alloc)
    requires Inv(q) && AllocEnabled(q, Erase(a))
    ensures Inv(Allocate(q, Erase(a)))
  {
    hide Slots, Contents, Delivery, Held, Pending, Refs, Running, Marks, Reach, Refers;
    ZeroRefs(q.life, q.pending, a);
    var r := Allocate(q, Erase(a));
    assert r.pending.Keys == q.pending.Keys - {a};
    ErasedReach(q.life, q.quiet, q.pending.Keys, a);
    PendingLess(q.life, q.pending, a);
    MarksSame(q, r);
  }

  lemma PendingLess(life: Lives, pending: map<Alloc, nat>, a: Alloc)
    requires Pending(life, pending)
    ensures Pending(life, pending - {a})
  {
  }

  lemma AllocInv(q: Queue, op: AllocOp)
    requires Inv(q) && AllocEnabled(q, op)
    ensures Inv(Allocate(q, op))
  {
    hide Inv, Allocate;
    match op
    case List(a) => ListInv(q, a);
    case ListDirty(a, t) => ListDirtyInv(q, a, t);
    case Borrow(a, t) => BorrowInv(q, op, t, a, Borrowed(a));
    case Return(t) => BorrowInv(q, op, t, q.life[t].a, Gone);
    case Retire(_) => RetireInv(q, op);
    case Unlist(_) => RetireInv(q, op);
    case Quiesced(a) => QuiescedInv(q, a);
    case Erase(a) => EraseInv(q, a);
  }

  // --------------------------------------------------------------------- runs

  datatype Step = ByHandler(t: Tid, hop: HandlerOp) | ByFlusher(fop: FlushOp) | ByOwner(aop: AllocOp)

  predicate Enabled(q: Queue, step: Step) {
    match step
    case ByHandler(t, op) => HandlerEnabled(q, t, op)
    case ByFlusher(op) => FlushEnabled(q, op)
    case ByOwner(op) => AllocEnabled(q, op)
  }

  function Apply(q: Queue, step: Step): (r: Queue)
    requires Enabled(q, step)
    ensures q.erased <= r.erased && q.quiet <= r.quiet && q.delivered <= r.delivered
  {
    match step
    case ByHandler(t, op) => Handler(q, t, op)
    case ByFlusher(op) => Flush(q, op)
    case ByOwner(op) => Allocate(q, op)
  }

  /** Every atomic access, by any thread at any time, keeps the invariant. */
  lemma StepInv(q: Queue, step: Step)
    requires Inv(q) && Enabled(q, step)
    ensures Inv(Apply(q, step))
  {
    hide Inv, Handler, Flush, Allocate;
    match step
    case ByHandler(t, op) => HandlerInv(q, t, op);
    case ByFlusher(op) => FlushInv(q, op);
    case ByOwner(op) => AllocInv(q, op);
  }

  ghost predicate Initial(q: Queue) {
    && q.life == map[] && q.inside == {} && q.active == 0
    && q.next == 0 && q.start == 0 && q.ready == {} && q.flusher.Idle? && q.taken == []
    && q.pending == map[] && q.fullDirty == {} && q.retiring == {}
    && q.listed == {} && q.quiet == {} && q.erased == {} && q.published == map[] && q.delivered == []
  }

  lemma InitialInv(q: Queue)
    requires Initial(q)
    ensures Inv(q)
  {
  }

  ghost predicate IsRun(q: Queue, steps: seq<Step>)
    decreases |steps|
  {
    steps == [] || (Enabled(q, steps[0]) && IsRun(Apply(q, steps[0]), steps[1..]))
  }

  ghost function After(q: Queue, steps: seq<Step>): Queue
    requires IsRun(q, steps)
    decreases |steps|
  {
    if steps == [] then q else After(Apply(q, steps[0]), steps[1..])
  }

  /** Over every run: the invariant holds; what was delivered stays delivered; once the
      removal of a fault-table entry has returned, no handler holds or ever again obtains
      that allocation; and an erased allocation is never again within reach of a handler,
      the queue, the flusher or a reader. */
  lemma {:induction false} RunInv(q: Queue, steps: seq<Step>)
    requires Inv(q) && IsRun(q, steps)
    ensures Inv(After(q, steps))
    ensures q.delivered <= After(q, steps).delivered
    ensures forall a, t :: a in q.erased && t in After(q, steps).life ==> !Touches(After(q, steps).life[t], a)
    ensures forall a, t :: a in q.quiet && t in After(q, steps).life && InHandler(After(q, steps).life[t]) ==>
      After(q, steps).life[t].a != a
    ensures q.erased <= After(q, steps).erased && q.quiet <= After(q, steps).quiet
    decreases |steps|
  {
    if steps == [] {
      assert forall a, t :: a in q.erased && t in q.life && Touches(q.life[t], a) ==> a in q.pending.Keys;
    } else {
      hide Inv, Apply;
      StepInv(q, steps[0]);
      RunInv(Apply(q, steps[0]), steps[1..]);
    }
  }

  /** The wait of lupine_remove_fault_entry ends only when no handler holds anything. */
  lemma RemovalWaits(q: Queue, a: Alloc)
    requires Inv(q) && AllocEnabled(q, Quiesced(a))
    ensures forall t :: t in q.life ==> !q.life[t].Active? && !InHandler(q.life[t])
    ensures a in Allocate(q, Quiesced(a)).quiet
  {
    assert q.inside == {};
  }

  /** Two faults never share a slot, and a delivered range was published, is delivered at
      one position only, and is what the fault wrote. */
  lemma ExactlyOnce(q: Queue, t: Tid)
    requires Inv(q)
    ensures t in q.published && !q.life[t].Published? ==> q.published[t] in q.delivered
    ensures t in q.published && q.life[t].Published? ==>
      q.published[t] !in q.delivered && q.life[t].slot in q.ready && q.ranges[q.life[t].slot] == q.published[t]
    ensures t !in q.published ==> forall r :: r in q.delivered ==> r.fault != t
    ensures forall i: nat, j: nat ::
      i < |q.delivered| && j < |q.delivered| && q.delivered[i].fault == t == q.delivered[j].fault ==> i == j
    ensures forall u :: u != t && t in q.life && u in q.life && HasSlot(q.life[t]) && HasSlot(q.life[u]) ==>
      q.life[t].slot != q.life[u].slot
  {
    assert Delivery(q.life, q.published, q.delivered);
    forall i: nat, j: nat | i < |q.delivered| && j < |q.delivered| && q.delivered[i].fault == t == q.delivered[j].fault
      ensures i == j
    {
      if i < j {
        assert false;
      } else if j < i {
        assert false;
      }
    }
  }

  /** Where the flusher's scan stops short, a handler is between reserving that slot and
      publishing it; so a flush that meets no such handler collects every slot. */
  lemma ScanStopsAtWriter(q: Queue)
    requires Inv(q) && q.flusher.Scan? && q.flusher.end < q.flusher.reserved && q.flusher.end !in q.ready
    ensures exists t :: t in q.life && (q.life[t].Reserved? || q.life[t].Written?) && q.life[t].slot == q.flusher.end
  {
    assert Owned(q.life, q.flusher.end);
    var t :| t in q.life && HasSlot(q.life[t]) && q.life[t].slot == q.flusher.end;
    assert !q.life[t].Published?;
  }

  /** Between flushes, a live allocation marked fully dirty is announced to the next one
      unless the fault that marked it is just about to do so. */
  lemma MarksAnnounced(q: Queue, a: Alloc)
    requires Inv(q) && q.flusher.Idle? && a in q.fullDirty && a in q.pending && a !in q.retiring
    ensures q.fullPending || exists t :: t in q.life && q.life[t] == Marked(a)
  {
    if !q.fullPending {
      assert SomeoneMarks(q.life, a);
    }
  }

  /** No step waits on a missing record: every pointer a handler or the flusher is about
      to use is to an allocation that exists. */
  lemma PointersLive(q: Queue)
    requires Inv(q)
    ensures forall t :: t in q.life && InHandler(q.life[t]) ==> q.life[t].a in q.pending && t in q.inside
    ensures forall r :: r in q.taken ==> r.alloc in q.pending
    ensures FlushEnabled(q, Next) <==>
      !q.flusher.Idle? && !q.flusher.Send? && !q.flusher.Add? && (q.flusher.Visit? ==> q.flusher.todo == {})
  {
    forall t | t in q.life && InHandler(q.life[t])
      ensures q.life[t].a in q.pending
    {
      assert Touches(q.life[t], q.life[t].a);
    }
    forall r | r in q.taken
      ensures r.alloc in q.pending
    {
      assert Touches(q.life[r.fault], r.alloc);
    }
  }
}
