/** The lane-context cache: which context a server lane already has current.

    Each client thread drives its own lane on every route. The cache is a small
    thread-local table indexed by the low bits of the route; one process-wide epoch
    invalidates every table at once. */
module LaneCache {

  type Tid = nat
  type Context = nat   // zero is the null context

  const SLOTS: nat := 32

  datatype Entry = Entry(epoch: nat, route: int, context: Context)

  const EMPTY := Entry(0, -2, 0)

  /** The slot of a route; routes below -1 have none. */
  function SlotOf(route: int): (slot: nat)
    requires -1 <= route
    ensures slot < SLOTS
  {
    route % SLOTS
  }

  type Table = t: seq<Entry> | |t| == SLOTS witness seq(SLOTS, _ => EMPTY)

  predicate Hit(table: Table, epoch: nat, route: int, context: Context) {
    -1 <= route && table[SlotOf(route)] == Entry(epoch, route, context)
  }

  function Updated(table: Table, epoch: nat, route: int, context: Context, seen: nat, succeeded: bool): Table {
    if route < -1 then table
    else
      var i := SlotOf(route);
      if !succeeded || epoch != seen then
        if table[i].route == route then table[i := table[i].(epoch := 0)] else table
      else table[i := Entry(seen, route, context)]
  }

  // ------------------------------------------------------------ the code

  class Epoch {
    var value: nat

    constructor ()
      ensures value == 1
    {
      value := 1;
    }

    /** lupine_invalidate_current_context_cache, as far as lanes go. */
    method Invalidate()
      modifies this
      ensures value == old(value) + 1
    {
      value := value + 1;
    }
  }

  class ThreadCache {
    const epoch: Epoch
    const slots: array<Entry>

    ghost predicate Valid()
      reads this
    {
      slots.Length == SLOTS
    }

    ghost function Contents(): Table
      requires Valid()
      reads this, slots
    {
      slots[..]
    }

    constructor (epoch: Epoch)
      ensures Valid() && fresh(slots) && this.epoch == epoch
      ensures forall i :: 0 <= i < SLOTS ==> Contents()[i] == EMPTY
    {
      this.epoch := epoch;
      slots := new Entry[SLOTS](_ => EMPTY);
    }

    /** lupine_lane_context_cache_matches. */
    method Matches(route: int, context: Context) returns (hit: bool)
      requires Valid()
      ensures hit <==> Hit(Contents(), epoch.value, route, context)
    {
      if route < -1 {
        return false;
      }
      var entry := slots[SlotOf(route)];
      hit := entry.route == route && entry.context == context && entry.epoch == epoch.value;
    }

    /** lupine_lane_context_cache_update. */
    method Update(route: int, context: Context, seen: nat, succeeded: bool)
      requires Valid()
      modifies slots
      ensures Contents() == Updated(old(Contents()), epoch.value, route, context, seen, succeeded)
    {
      if route < -1 {
        return;
      }
      var i := SlotOf(route);
      if !succeeded || epoch.value != seen {
        if slots[i].route == route {
          slots[i] := slots[i].(epoch := 0);
        }
        return;
      }
      slots[i] := Entry(seen, route, context);
    }

    /** lupine_lane_context_cache_store. */
    method Store(route: int, context: Context)
      requires Valid()
      modifies slots
      ensures Contents() == Updated(old(Contents()), epoch.value, route, context, epoch.value, true)
    {
      Update(route, context, epoch.value, true);
    }
  }

  // ---------------------------------------------------- threads and lanes

  /** lupine_set_current_context_on_route after its cache check: the request is on its
      way, or the server has answered it. */
  datatype Call =
    | NoCall
    | Sent(route: int, context: Context, seen: nat)
    | Served(route: int, context: Context, seen: nat, ok: bool)

  datatype Thread = Thread(table: Table, call: Call)

  /** `lanes` is the server's state: the context current on each thread's lane. `behind`
      are the lanes that changed under the client since it last bumped the epoch. */
  datatype State = State(threads: map<Tid, Thread>, epoch: nat,
      lanes: map<(Tid, int), Context>, behind: set<(Tid, int)>)

  function Lane(lanes: map<(Tid, int), Context>, t: Tid, route: int): Context {
    if (t, route) in lanes then lanes[(t, route)] else 0
  }

  datatype Step =
    // the caller asks for a context: a hit answers at once, a miss sends
    | Ask(t: Tid, route: int, context: Context)
    // the server runs the request; after a failure the lane may hold anything
    | Serve(t: Tid, ok: bool, left: Context)
    // the reply reaches the thread
    | Reply(t: Tid)
    // a created context is current on the lane, and is stored
    | Create(t: Tid, route: int, context: Context)
    // a call that destroys or resets a context takes effect on the server, whatever it
    // will report
    | Change(changed: map<(Tid, int), Context>)
    // such a call's successful reply reaches the client, which bumps the epoch
    | Bump

  predicate Enabled(s: State, step: Step) {
    match step
    case Ask(t, _, _) => t in s.threads && s.threads[t].call.NoCall?
    case Serve(t, _, _) => t in s.threads && s.threads[t].call.Sent?
    case Reply(t) => t in s.threads && s.threads[t].call.Served?
    case Create(t, _, _) => t in s.threads && s.threads[t].call.NoCall?
    case Change(_) => true
    case Bump => true
  }

  function Apply(s: State, step: Step): State
    requires Enabled(s, step)
  {
    match step
    case Ask(t, route, context) =>
      if Hit(s.threads[t].table, s.epoch, route, context) then s
      else s.(threads := s.threads[t := s.threads[t].(call := Sent(route, context, s.epoch))])
    case Serve(t, ok, left) =>
      var c := s.threads[t].call;
      s.(threads := s.threads[t := s.threads[t].(call := Served(c.route, c.context, c.seen, ok))],
         lanes := s.lanes[(t, c.route) := if ok then c.context else left], behind := s.behind - {(t, c.route)})
    case Reply(t) =>
      var c := s.threads[t].call;
      s.(threads :=
        s.threads[t := Thread(Updated(s.threads[t].table, s.epoch, c.route, c.context, c.seen, c.ok), NoCall)])
    case Create(t, route, context) =>
      s.(threads :=
        s.threads[t := s.threads[t].(table := Updated(s.threads[t].table, s.epoch, route, context, s.epoch, true))],
         lanes := s.lanes[(t, route) := context], behind := s.behind - {(t, route)})
    case Change(changed) => s.(lanes := s.lanes + changed, behind := s.behind + changed.Keys)
    case Bump => s.(epoch := s.epoch + 1, behind := {})
  }

  ghost predicate Initial(s: State) {
    && s.epoch == 1 && s.behind == {}
    && forall t :: t in s.threads ==>
      s.threads[t].call.NoCall? && forall i :: 0 <= i < SLOTS ==> s.threads[t].table[i] == EMPTY
  }

  /** A live entry tells the truth about its lane, unless the lane has changed since the
      last bump, or the thread has just been served there and is about to update its
      table. */
  ghost predicate EntrySound(s: State, t: Tid, i: nat)
    requires t in s.threads && i < SLOTS
  {
    var e := s.threads[t].table[i];
    var c := s.threads[t].call;
    && e.epoch <= s.epoch
    && (e.epoch == s.epoch ==>
        && -1 <= e.route && SlotOf(e.route) == i
        && ((c.Served? && c.route == e.route) || Truthful(s, t, e.route, e.context)))
  }

  predicate Truthful(s: State, t: Tid, route: int, context: Context) {
    Lane(s.lanes, t, route) == context || (t, route) in s.behind
  }

  ghost predicate CallSound(s: State, t: Tid)
    requires t in s.threads
  {
    var c := s.threads[t].call;
    && (!c.NoCall? ==> c.seen <= s.epoch)
    && (c.Served? && c.ok && c.seen == s.epoch ==> Truthful(s, t, c.route, c.context))
  }

  ghost predicate Inv(s: State) {
    && 1 <= s.epoch
    && (forall t :: t in s.threads ==> CallSound(s, t))
    && (forall t, i: nat :: t in s.threads && i < SLOTS ==> EntrySound(s, t, i))
  }

  // -------------------------------------------------------------- properties

  lemma InitialInv(s: State)
    requires Initial(s)
    ensures Inv(s)
  {
  }

  lemma StepInv(s: State, step: Step)
    requires Inv(s) && Enabled(s, step)
    ensures Inv(Apply(s, step))
  {
    var s' := Apply(s, step);
    forall t | t in s'.threads
      ensures CallSound(s', t)
    {
      assert CallSound(s, t);
    }
    forall t, i: nat | t in s'.threads && i < SLOTS
      ensures EntrySound(s', t, i)
    {
      assert CallSound(s, t);
      assert EntrySound(s, t, i);
    }
  }

  /** A hit means that the server lane already has that context current, unless the lane
      has changed since the last bump. */
  lemma HitSound(s: State, t: Tid, route: int, context: Context)
    requires Inv(s) && t in s.threads && s.threads[t].call.NoCall?
    requires Hit(s.threads[t].table, s.epoch, route, context)
    ensures Lane(s.lanes, t, route) == context || (t, route) in s.behind
  {
    assert EntrySound(s, t, SlotOf(route));
  }

  /** `early`: threads may ask for a context on a lane that has changed, before the epoch
      is bumped. */
  predicate Allowed(s: State, step: Step, early: bool) {
    !early && step.Ask? ==> (step.t, step.route) !in s.behind
  }

  ghost predicate IsRun(s: State, steps: seq<Step>, early: bool)
    decreases |steps|
  {
    steps == [] || (Enabled(s, steps[0]) && Allowed(s, steps[0], early) && IsRun(Apply(s, steps[0]), steps[1..], early))
  }

  ghost function After(s: State, steps: seq<Step>, early: bool): State
    requires IsRun(s, steps, early)
    decreases |steps|
  {
    if steps == [] then s else After(Apply(s, steps[0]), steps[1..], early)
  }

  /** One step of a server that gets every request: what the cache would have answered
      is carried out instead of skipped. */
  function Sending(s: State, lanes: map<(Tid, int), Context>, step: Step): map<(Tid, int), Context>
    requires Enabled(s, step)
  {
    match step
    case Ask(t, route, context) =>
      if Hit(s.threads[t].table, s.epoch, route, context) then lanes[(t, route) := context] else lanes
    case Serve(t, ok, left) =>
      var c := s.threads[t].call;
      lanes[(t, c.route) := if ok then c.context else left]
    case Reply(_) => lanes
    case Create(t, route, context) => lanes[(t, route) := context]
    case Change(changed) => lanes + changed
    case Bump => lanes
  }

  ghost function AlwaysSending(s: State, lanes: map<(Tid, int), Context>,
      steps: seq<Step>, early: bool): map<(Tid, int), Context>
    requires IsRun(s, steps, early)
    decreases |steps|
  {
    if steps == [] then lanes
    else AlwaysSending(Apply(s, steps[0]), Sending(s, lanes, steps[0]), steps[1..], early)
  }

  ghost predicate SameLanes(a: map<(Tid, int), Context>, b: map<(Tid, int), Context>) {
    forall t, route :: Lane(a, t, route) == Lane(b, t, route)
  }

  lemma StepTransparent(s: State, lanes: map<(Tid, int), Context>, step: Step)
    requires Inv(s) && Enabled(s, step) && Allowed(s, step, false)
    requires SameLanes(s.lanes, lanes)
    ensures SameLanes(Apply(s, step).lanes, Sending(s, lanes, step))
  {
    if step.Ask? && Hit(s.threads[step.t].table, s.epoch, step.route, step.context) {
      HitSound(s, step.t, step.route, step.context);
    }
    forall t, route
      ensures Lane(Apply(s, step).lanes, t, route) == Lane(Sending(s, lanes, step), t, route)
    {
      assert Lane(s.lanes, t, route) == Lane(lanes, t, route);
    }
  }

  /** Skipping the requests the cache answers leaves every lane of the server exactly as
      sending them would, in every run of any number of threads in which nobody asks for a
      changed lane before the bump. */
  lemma {:induction false} Transparent(s: State, lanes: map<(Tid, int), Context>, steps: seq<Step>)
    requires Inv(s) && IsRun(s, steps, false)
    requires SameLanes(s.lanes, lanes)
    ensures SameLanes(After(s, steps, false).lanes, AlwaysSending(s, lanes, steps, false))
    decreases |steps|
  {
    if steps != [] {
      StepInv(s, steps[0]);
      StepTransparent(s, lanes, steps[0]);
      Transparent(Apply(s, steps[0]), Sending(s, lanes, steps[0]), steps[1..]);
    }
  }

  /** A context is set, the lane changes under the client, and the thread asks again before
      the bump: the cache answers, and the lane keeps the other context. A call that takes
      effect and still reports an error is never followed by a bump. */
  lemma EarlyAskDiffers(s: State, t: Tid) returns (steps: seq<Step>)
    requires Initial(s) && t in s.threads
    ensures IsRun(s, steps, true)
    ensures Lane(After(s, steps, true).lanes, t, 0) == 2
    ensures Lane(AlwaysSending(s, s.lanes, steps, true), t, 0) == 1
  {
    steps := [Ask(t, 0, 1), Serve(t, true, 0), Reply(t), Change(map[(t, 0) := 2]), Ask(t, 0, 1)];
    assert s.threads[t].table[0] == EMPTY;
    var s1 := Apply(s, steps[0]);
    var s2 := Apply(s1, steps[1]);
    var s3 := Apply(s2, steps[2]);
    var s4 := Apply(s3, steps[3]);
    assert s3.threads[t].table[0] == Entry(1, 0, 1);
    RunOf(s4, [steps[4]], steps[4], []);
    RunOf(s3, steps[3..], steps[3], steps[4..]);
    RunOf(s2, steps[2..], steps[2], steps[3..]);
    RunOf(s1, steps[1..], steps[1], steps[2..]);
    RunOf(s, steps, steps[0], steps[1..]);
  }

  lemma RunOf(s: State, steps: seq<Step>, first: Step, rest: seq<Step>)
    requires steps == [first] + rest && Enabled(s, first) && IsRun(Apply(s, first), rest, true)
    ensures IsRun(s, steps, true) && After(s, steps, true) == After(Apply(s, first), rest, true)
    ensures forall lanes ::
      AlwaysSending(s, lanes, steps, true) == AlwaysSending(Apply(s, first), Sending(s, lanes, first), rest, true)
  {
    assert steps[1..] == rest;
  }

  /** So the cache is transparent if and only if nobody asks that early. */
  lemma TransparentIff(s: State, t: Tid, early: bool)
    requires Initial(s) && t in s.threads
    ensures (forall steps :: IsRun(s, steps, early) ==>
      SameLanes(After(s, steps, early).lanes, AlwaysSending(s, s.lanes, steps, early)))
      <==> !early
  {
    InitialInv(s);
    if early {
      var steps := EarlyAskDiffers(s, t);
      var a, b := After(s, steps, true).lanes, AlwaysSending(s, s.lanes, steps, true);
      assert Lane(a, t, 0) != Lane(b, t, 0);
      assert !SameLanes(a, b);
    } else {
      forall steps | IsRun(s, steps, early)
        ensures SameLanes(After(s, steps, early).lanes, AlwaysSending(s, s.lanes, steps, early))
      {
        Transparent(s, s.lanes, steps);
      }
    }
  }
}
