/** cuda_call_gate: CUDA handlers pass through; a checkpointer drains them. */
module CallGates {
  import opened Threads

  /** DrainWait is the first wait of drain(), DrainClaim the second; Held lasts from
      the return of drain() to resume(). */
  datatype Phase = Out | BeginWait | InCall | DrainWait | DrainClaim | Held

  datatype Gate = Gate(room: Room<Phase>, active: nat, waiters: nat, draining: bool)

  predicate Waiting(p: Phase) { p.BeginWait? || p.DrainWait? || p.DrainClaim? }

  predicate MayPass(g: Gate, p: Phase) {
    match p
    case BeginWait => !g.draining && g.waiters == 0
    case DrainWait => !g.draining
    case DrainClaim => g.active == 0
    case _ => true
  }

  function Goto(g: Gate, t: Tid, p: Phase): Gate { g.(room := g.room.Goto(t, p)) }

  function Notified(g: Gate): Gate { g.(room := g.room.NotifyAll()) }

  /** A thread at a wait tests its predicate, and either sleeps or runs on. */
  function Test(g: Gate, t: Tid): Gate
    requires t in g.room.phase && Waiting(g.room.phase[t])
  {
    if !MayPass(g, g.room.phase[t]) then g.(room := g.room.Sleep(t))
    else match g.room.phase[t]
      case BeginWait => Goto(g.(active := g.active + 1), t, InCall)
      case DrainWait =>
        Claim(Goto(g.(waiters := if g.waiters == 0 then 0 else g.waiters - 1, draining := true), t, DrainClaim), t)
      case DrainClaim => Goto(g, t, Held)
  }

  /** The second wait of drain(), reached without leaving the mutex. */
  function Claim(g: Gate, t: Tid): Gate {
    if g.active == 0 then Goto(g, t, Held) else g.(room := g.room.Sleep(t))
  }

  function Begin(g: Gate, t: Tid): Gate
    requires t in g.room.phase
  {
    Test(Goto(g, t, BeginWait), t)
  }

  function End(g: Gate, t: Tid): Gate {
    if g.active == 0 then Goto(g, t, Out)
    else Notified(Goto(g.(active := g.active - 1), t, Out))
  }

  function Drain(g: Gate, t: Tid): Gate
    requires t in g.room.phase
  {
    Test(Goto(g.(waiters := g.waiters + 1), t, DrainWait), t)
  }

  function Resume(g: Gate, t: Tid): Gate {
    if !g.draining then Goto(g, t, Out)
    else Notified(Goto(g.(draining := false), t, Out))
  }

  datatype Op = DoBegin | DoEnd | DoDrain | DoResume | Retest | Wake

  predicate Enabled(g: Gate, t: Tid, op: Op) {
    && t in g.room.phase
    && match op
       case DoBegin | DoDrain => g.room.phase[t].Out?
       case DoEnd => g.room.phase[t].InCall?
       case DoResume => g.room.phase[t].Held?
       case Retest => Waiting(g.room.phase[t]) && t !in g.room.asleep
       case Wake => t in g.room.asleep
  }

  function Apply(g: Gate, t: Tid, op: Op): Gate
    requires Enabled(g, t, op)
  {
    match op
    case DoBegin => Begin(g, t)
    case DoEnd => End(g, t)
    case DoDrain => Drain(g, t)
    case DoResume => Resume(g, t)
    case Retest => Test(g, t)
    case Wake => g.(room := g.room.Wake(t))
  }

  ghost predicate Initial(g: Gate) {
    && (forall t :: t in g.room.phase ==> g.room.phase[t] == Out)
    && g.active == 0 && g.waiters == 0 && !g.draining && g.room.asleep == {}
  }

  /** The fields count the threads in each phase. */
  ghost predicate Counted(g: Gate) {
    && g.active == |At(g.room.phase, InCall)|
    && g.waiters == |At(g.room.phase, DrainWait)|
    && One(g.draining) == |At(g.room.phase, DrainClaim)| + |At(g.room.phase, Held)|
  }

  /** While a checkpointer holds the gate no call is active. */
  ghost predicate HeldIsQuiet(g: Gate) {
    forall t :: t in g.room.phase && g.room.phase[t].Held? ==> g.active == 0
  }

  /** No thread sleeps while its wait predicate is true. */
  ghost predicate NoLostWakeup(g: Gate) {
    forall t :: t in g.room.asleep ==> t in g.room.phase && Waiting(g.room.phase[t]) && !MayPass(g, g.room.phase[t])
  }

  ghost predicate Inv(g: Gate) { Counted(g) && HeldIsQuiet(g) && NoLostWakeup(g) }

  lemma PhaseCounted(g: Gate)
    requires Counted(g)
    ensures forall t :: t in g.room.phase ==>
      && (g.room.phase[t].InCall? ==> 1 <= g.active)
      && (g.room.phase[t].DrainWait? ==> 1 <= g.waiters)
      && (g.room.phase[t].DrainClaim? || g.room.phase[t].Held? ==> g.draining)
  {
    forall t | t in g.room.phase
      ensures g.room.phase[t].InCall? ==> 1 <= g.active
      ensures g.room.phase[t].DrainWait? ==> 1 <= g.waiters
      ensures g.room.phase[t].DrainClaim? || g.room.phase[t].Held? ==> g.draining
    {
      Present(g.room.phase, t);
    }
  }

  lemma InitialInv(g: Gate)
    requires Initial(g)
    ensures Inv(g)
  {
    assert At(g.room.phase, InCall) == At(g.room.phase, DrainWait) ==
      At(g.room.phase, DrainClaim) == At(g.room.phase, Held) == {};
  }

  lemma TestInv(g: Gate, t: Tid)
    requires Counted(g) && HeldIsQuiet(g) && NoLostWakeup(g)
    requires t in g.room.phase && Waiting(g.room.phase[t]) && t !in g.room.asleep
    ensures Inv(Test(g, t))
  {
    PhaseCounted(g);
    if MayPass(g, g.room.phase[t]) {
      match g.room.phase[t]
      case BeginWait => CountMoves(g.room.phase, t, InCall);
      case DrainWait =>
        CountMoves(g.room.phase, t, DrainClaim);
        var claimed := Goto(g.(waiters := g.waiters - 1, draining := true), t, DrainClaim);
        CountMoves(claimed.room.phase, t, Held);
      case DrainClaim => CountMoves(g.room.phase, t, Held);
    }
  }

  /** Every operation, by any thread at any time, keeps the gate's invariant. */
  lemma StepInv(g: Gate, t: Tid, op: Op)
    requires Inv(g) && Enabled(g, t, op)
    ensures Inv(Apply(g, t, op))
  {
    PhaseCounted(g);
    match op
    case DoBegin =>
      CountMoves(g.room.phase, t, BeginWait);
      TestInv(Goto(g, t, BeginWait), t);
    case DoEnd => CountMoves(g.room.phase, t, Out);
    case DoDrain =>
      CountMoves(g.room.phase, t, DrainWait);
      TestInv(Goto(g.(waiters := g.waiters + 1), t, DrainWait), t);
    case DoResume => CountMoves(g.room.phase, t, Out);
    case Retest => TestInv(g, t);
    case Wake =>
  }

  /** An operation moves its own thread only. */
  lemma Moves(g: Gate, t: Tid, op: Op)
    requires Enabled(g, t, op)
    ensures MovesOnly(g.room.phase, Apply(g, t, op).room.phase, t)
  {
  }

  /** At most one checkpointer has claimed the gate, and none of its calls is active
      once drain() has returned. */
  lemma Exclusion(g: Gate, t: Tid, u: Tid)
    requires Inv(g) && t in g.room.phase && u in g.room.phase
    ensures var p, r := g.room.phase[t], g.room.phase[u];
      (p.DrainClaim? || p.Held?) && (r.DrainClaim? || r.Held?) ==> t == u
    ensures g.room.phase[t].Held? ==> !g.room.phase[u].InCall?
  {
    Present(g.room.phase, t);
    Present(g.room.phase, u);
    if t != u && g.room.phase[t] == g.room.phase[u] {
      Distinct(g.room.phase, t, u);
    }
  }
}
