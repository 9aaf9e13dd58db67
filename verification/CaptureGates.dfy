/** capture_gate: stream captures are reserved, become active and end; a checkpointer
    waits for all of them and keeps new ones out. The gate counts captures, not threads:
    a thread may have several, and any thread may end one. */
module CaptureGates {
  import opened Threads

  /** QuietWait is the first wait of wait_for_captures(), QuietClaim the second; Held
      lasts from its return to resume_captures(). */
  datatype Phase = Out | BeginWait | QuietWait | QuietClaim | Held

  /** `reserved` and `running` name the thread that began each capture: admitted by
      begin() and not yet completed, and active. */
  datatype Gate = Gate(room: Room<Phase>, admitted: nat, active: nat, waiters: nat, checkpoint: bool,
                       reserved: multiset<Tid>, running: multiset<Tid>)

  predicate Waiting(p: Phase) { p.BeginWait? || p.QuietWait? || p.QuietClaim? }

  predicate MayPass(g: Gate, p: Phase) {
    match p
    case BeginWait => !g.checkpoint && g.waiters == 0
    case QuietWait => !g.checkpoint
    case QuietClaim => g.admitted == 0 && g.active == 0
    case _ => true
  }

  /** The captures a thread has begun and that have not ended. */
  function Own(g: Gate, t: Tid): nat { g.reserved[t] + g.running[t] }

  function Goto(g: Gate, t: Tid, p: Phase): Gate { g.(room := g.room.Goto(t, p)) }

  function Notified(g: Gate): Gate { g.(room := g.room.NotifyAll()) }

  function Less(n: nat): nat { if n == 0 then 0 else n - 1 }

  function Test(g: Gate, t: Tid): Gate
    requires t in g.room.phase && Waiting(g.room.phase[t])
  {
    if !MayPass(g, g.room.phase[t]) then g.(room := g.room.Sleep(t))
    else match g.room.phase[t]
      case BeginWait => Goto(g.(admitted := g.admitted + 1, reserved := g.reserved + multiset{t}), t, Out)
      case QuietWait => Claim(Goto(g.(waiters := Less(g.waiters), checkpoint := true), t, QuietClaim), t)
      case QuietClaim => Goto(g, t, Held)
  }

  function Claim(g: Gate, t: Tid): Gate {
    if g.admitted == 0 && g.active == 0 then Goto(g, t, Held) else g.(room := g.room.Sleep(t))
  }

  function Begin(g: Gate, t: Tid): Gate
    requires t in g.room.phase
  {
    Test(Goto(g, t, BeginWait), t)
  }

  function BeginComplete(g: Gate, t: Tid, started: bool): Gate {
    if g.admitted == 0 then g
    else
      var c := g.(admitted := g.admitted - 1, reserved := g.reserved - multiset{t});
      Notified(if started then c.(active := c.active + 1, running := c.running + multiset{t}) else c)
  }

  /** A thread got the result that ends a capture begun by `owner`. */
  function End(g: Gate, owner: Tid): Gate {
    if g.active == 0 then g
    else Notified(g.(active := g.active - 1, running := g.running - multiset{owner}))
  }

  function WaitForCaptures(g: Gate, t: Tid): Gate
    requires t in g.room.phase
  {
    Test(Goto(g.(waiters := g.waiters + 1), t, QuietWait), t)
  }

  function Resume(g: Gate, t: Tid): Gate {
    if !g.checkpoint then Goto(g, t, Out)
    else Notified(Goto(g.(checkpoint := false), t, Out))
  }

  datatype Op = DoBegin | DoComplete(started: bool) | DoEnd(owner: Tid) | DoWait | DoResume | Retest | Wake

  predicate Enabled(g: Gate, t: Tid, op: Op) {
    && t in g.room.phase
    && match op
       case DoBegin | DoWait => g.room.phase[t].Out?
       case DoComplete(_) => !Waiting(g.room.phase[t]) && t in g.reserved
       case DoEnd(owner) => !Waiting(g.room.phase[t]) && owner in g.running
       case DoResume => g.room.phase[t].Held?
       case Retest => Waiting(g.room.phase[t]) && t !in g.room.asleep
       case Wake => t in g.room.asleep
  }

  function Apply(g: Gate, t: Tid, op: Op): Gate
    requires Enabled(g, t, op)
  {
    match op
    case DoBegin => Begin(g, t)
    case DoComplete(started) => BeginComplete(g, t, started)
    case DoEnd(owner) => End(g, owner)
    case DoWait => WaitForCaptures(g, t)
    case DoResume => Resume(g, t)
    case Retest => Test(g, t)
    case Wake => g.(room := g.room.Wake(t))
  }

  ghost predicate Initial(g: Gate) {
    && (forall t :: t in g.room.phase ==> g.room.phase[t] == Out)
    && g.admitted == 0 && g.active == 0 && g.waiters == 0 && !g.checkpoint && g.room.asleep == {}
    && g.reserved == multiset{} && g.running == multiset{}
  }

  /** The fields count the captures and the checkpointers. */
  ghost predicate Counted(g: Gate) {
    && g.admitted == |g.reserved| && g.active == |g.running|
    && (forall t :: t in g.reserved || t in g.running ==> t in g.room.phase)
    && g.waiters == |At(g.room.phase, QuietWait)|
    && One(g.checkpoint) == |At(g.room.phase, QuietClaim)| + |At(g.room.phase, Held)|
  }

  ghost predicate HeldIsQuiet(g: Gate) {
    forall t :: t in g.room.phase && g.room.phase[t].Held? ==> g.admitted == 0 && g.active == 0
  }

  ghost predicate NoLostWakeup(g: Gate) {
    forall t :: t in g.room.asleep ==> t in g.room.phase && Waiting(g.room.phase[t]) && !MayPass(g, g.room.phase[t])
  }

  ghost predicate Inv(g: Gate) { Counted(g) && HeldIsQuiet(g) && NoLostWakeup(g) }

  lemma PhaseCounted(g: Gate)
    requires Counted(g)
    ensures forall t :: t in g.room.phase ==>
      && (g.room.phase[t].QuietWait? ==> 1 <= g.waiters)
      && (g.room.phase[t].QuietClaim? || g.room.phase[t].Held? ==> g.checkpoint)
  {
    forall t | t in g.room.phase
      ensures g.room.phase[t].QuietWait? ==> 1 <= g.waiters
      ensures g.room.phase[t].QuietClaim? || g.room.phase[t].Held? ==> g.checkpoint
    {
      Present(g.room.phase, t);
    }
  }

  lemma InitialInv(g: Gate)
    requires Initial(g)
    ensures Inv(g)
  {
    assert At(g.room.phase, QuietWait) == At(g.room.phase, QuietClaim) == At(g.room.phase, Held) == {};
  }

  lemma TestInv(g: Gate, t: Tid)
    requires Counted(g) && HeldIsQuiet(g) && NoLostWakeup(g)
    requires t in g.room.phase && Waiting(g.room.phase[t]) && t !in g.room.asleep
    ensures Inv(Test(g, t))
  {
    if MayPass(g, g.room.phase[t]) {
      match g.room.phase[t]
      case BeginWait => AdmitInv(g, t);
      case QuietWait =>
        PhaseCounted(g);
        CountMoves(g.room.phase, t, QuietClaim);
        CountMoves(g.room.phase[t := QuietClaim], t, Held);
      case QuietClaim => CountMoves(g.room.phase, t, Held);
    }
  }

  lemma AdmitInv(g: Gate, t: Tid)
    requires Counted(g) && HeldIsQuiet(g) && NoLostWakeup(g)
    requires t in g.room.phase && g.room.phase[t].BeginWait? && MayPass(g, BeginWait) && t !in g.room.asleep
    ensures Inv(Test(g, t))
  {
    PhaseCounted(g);
    CountMoves(g.room.phase, t, Out);
    assert |g.reserved + multiset{t}| == |g.reserved| + 1;
  }

  /** Every operation, by any thread at any time, keeps the gate's invariant. */
  lemma StepInv(g: Gate, t: Tid, op: Op)
    requires Inv(g) && Enabled(g, t, op)
    ensures Inv(Apply(g, t, op))
  {
    match op
    case DoBegin =>
      CountMoves(g.room.phase, t, BeginWait);
      TestInv(Goto(g, t, BeginWait), t);
    case DoWait =>
      PhaseCounted(g);
      CountMoves(g.room.phase, t, QuietWait);
      TestInv(Goto(g.(waiters := g.waiters + 1), t, QuietWait), t);
    case DoResume =>
      PhaseCounted(g);
      CountMoves(g.room.phase, t, Out);
    case Retest => TestInv(g, t);
    case DoComplete(_) => CaptureInv(g, t, op);
    case DoEnd(_) => CaptureInv(g, t, op);
    case Wake =>
  }

  lemma CaptureInv(g: Gate, t: Tid, op: Op)
    requires Inv(g) && Enabled(g, t, op) && (op.DoComplete? || op.DoEnd?)
    ensures Inv(Apply(g, t, op))
  {
    if op.DoEnd? {
      assert |g.running - multiset{op.owner}| == |g.running| - 1;
    } else {
      assert |g.reserved - multiset{t}| == |g.reserved| - 1;
    }
  }

  /** An operation moves its own thread only. */
  lemma Moves(g: Gate, t: Tid, op: Op)
    requires Enabled(g, t, op)
    ensures MovesOnly(g.room.phase, Apply(g, t, op).room.phase, t)
    ensures Waiting(Apply(g, t, op).room.phase[t]) ==> Waiting(g.room.phase[t]) || op.DoBegin? || op.DoWait?
  {
  }

  /** Only completing a wait to begin adds to a thread's own captures. */
  lemma OwnMoves(g: Gate, t: Tid, op: Op, u: Tid)
    requires Enabled(g, t, op)
    ensures Own(Apply(g, t, op), u) <= Own(g, u) || (u == t && !Waiting(Apply(g, t, op).room.phase[t]))
  {
    hide Test;
    match op
    case DoBegin => TestOwn(Goto(g, t, BeginWait), t, u);
    case DoWait => TestOwn(Goto(g.(waiters := g.waiters + 1), t, QuietWait), t, u);
    case Retest => TestOwn(g, t, u);
    case DoComplete(_) =>
    case DoEnd(_) =>
    case DoResume =>
    case Wake =>
  }

  lemma TestOwn(g: Gate, t: Tid, u: Tid)
    requires t in g.room.phase && Waiting(g.room.phase[t])
    ensures t in Test(g, t).room.phase
    ensures Own(Test(g, t), u) <= Own(g, u) || (u == t && !Waiting(Test(g, t).room.phase[t]))
  {
  }

  /** At most one checkpointer has claimed the gate, and no capture of any thread is
      reserved or active once wait_for_captures() has returned. */
  lemma Exclusion(g: Gate, t: Tid, u: Tid)
    requires Inv(g) && t in g.room.phase && u in g.room.phase
    ensures var p, r := g.room.phase[t], g.room.phase[u];
      (p.QuietClaim? || p.Held?) && (r.QuietClaim? || r.Held?) ==> t == u
    ensures g.room.phase[t].Held? ==> g.reserved == multiset{} && g.running == multiset{}
  {
    Present(g.room.phase, t);
    Present(g.room.phase, u);
    if t != u && g.room.phase[t] == g.room.phase[u] {
      Distinct(g.room.phase, t, u);
    }
  }
}
