/** The two gates used together. */
module Checkpoint {
  import opened Threads
  import CallGates
  import CaptureGates

  datatype State = State(calls: CallGates.Gate, captures: CaptureGates.Gate)

  datatype Step = OnCalls(t: Tid, callOp: CallGates.Op) | OnCaptures(t: Tid, captureOp: CaptureGates.Op)

  predicate CallsOut(s: State, t: Tid) { t in s.calls.room.phase && s.calls.room.phase[t].Out? }

  predicate CapturesOut(s: State, t: Tid) { t in s.captures.room.phase && s.captures.room.phase[t].Out? }

  function Own(s: State, t: Tid): nat { CaptureGates.Own(s.captures, t) }

  /** A thread blocked at one gate does nothing at the other. */
  predicate Enabled(s: State, step: Step) {
    && step.t in s.calls.room.phase && step.t in s.captures.room.phase
    && match step
       case OnCalls(t, op) => CallGates.Enabled(s.calls, t, op) && !CaptureGates.Waiting(s.captures.room.phase[t])
       case OnCaptures(t, op) => CaptureGates.Enabled(s.captures, t, op) && !CallGates.Waiting(s.calls.room.phase[t])
  }

  /** What threads keep to when they call begin() or wait_for_captures() of the capture
      gate. `ordered` is the documented order: captures are quiesced before calls are
      drained, and reserved before their dispatch, so the caller is outside the call gate.
      The limits say how many captures of its own the caller may have by then. */
  datatype Discipline = Discipline(ordered: bool, beginLimit: nat, waitLimit: nat)

  const Strict := Discipline(true, 0, 0)

  predicate Follows(s: State, step: Step, d: Discipline) {
    step.OnCaptures? && (step.captureOp.DoBegin? || step.captureOp.DoWait?) ==>
      && (d.ordered ==> CallsOut(s, step.t))
      && Own(s, step.t) <= if step.captureOp.DoBegin? then d.beginLimit else d.waitLimit
  }

  function Apply(s: State, step: Step): State
    requires Enabled(s, step)
  {
    match step
    case OnCalls(t, op) => s.(calls := CallGates.Apply(s.calls, t, op))
    case OnCaptures(t, op) => s.(captures := CaptureGates.Apply(s.captures, t, op))
  }

  ghost predicate IsRun(s: State, steps: seq<Step>, d: Discipline)
    decreases |steps|
  {
    steps == [] || (Enabled(s, steps[0]) && Follows(s, steps[0], d) && IsRun(Apply(s, steps[0]), steps[1..], d))
  }

  ghost function After(s: State, steps: seq<Step>, d: Discipline): State
    requires IsRun(s, steps, d)
    decreases |steps|
  {
    if steps == [] then s else After(Apply(s, steps[0]), steps[1..], d)
  }

  ghost predicate Initial(s: State) {
    && s.calls.room.phase.Keys == s.captures.room.phase.Keys
    && CallGates.Initial(s.calls) && CaptureGates.Initial(s.captures)
  }

  ghost predicate Inv(s: State) {
    && s.calls.room.phase.Keys == s.captures.room.phase.Keys
    && CallGates.Inv(s.calls) && CaptureGates.Inv(s.captures)
  }

  /** A thread waiting at the capture gate is outside the call gate and has no capture. */
  ghost predicate Guarded(s: State) {
    forall t :: t in s.captures.room.phase && CaptureGates.Waiting(s.captures.room.phase[t]) ==>
      CallsOut(s, t) && Own(s, t) == 0
  }

  /** Outside both gates, with every capture it began ended. */
  predicate Finished(s: State, t: Tid) { CallsOut(s, t) && CapturesOut(s, t) && Own(s, t) == 0 }

  /** Asleep, or at a wait whose predicate is false. */
  predicate Blocked(s: State, t: Tid)
    requires t in s.calls.room.phase && t in s.captures.room.phase
  {
    || t in s.calls.room.asleep || !CallGates.MayPass(s.calls, s.calls.room.phase[t])
    || t in s.captures.room.asleep || !CaptureGates.MayPass(s.captures, s.captures.room.phase[t])
  }

  ghost predicate Deadlocked(s: State) {
    && (exists t :: t in s.calls.room.phase && t in s.captures.room.phase && !Finished(s, t))
    && (forall t :: t in s.calls.room.phase && t in s.captures.room.phase && !Finished(s, t) ==> Blocked(s, t))
  }

  lemma StepInv(s: State, step: Step)
    requires Inv(s) && Enabled(s, step)
    ensures Inv(Apply(s, step))
  {
    hide CallGates.Apply, CaptureGates.Apply, CallGates.Inv, CaptureGates.Inv;
    match step
    case OnCalls(t, op) =>
      CallGates.StepInv(s.calls, t, op);
      CallGates.Moves(s.calls, t, op);
    case OnCaptures(t, op) =>
      CaptureGates.StepInv(s.captures, t, op);
      CaptureGates.Moves(s.captures, t, op);
  }

  lemma StepGuarded(s: State, step: Step)
    requires Inv(s) && Guarded(s) && Enabled(s, step) && Follows(s, step, Strict)
    ensures Guarded(Apply(s, step))
  {
    hide CallGates.Apply, CaptureGates.Apply, CallGates.Inv, CaptureGates.Inv, CaptureGates.Own;
    var r := Apply(s, step);
    match step
    case OnCalls(t, op) => CallGates.Moves(s.calls, t, op);
    case OnCaptures(t, op) =>
      CaptureGates.Moves(s.captures, t, op);
      forall u | u in r.captures.room.phase && CaptureGates.Waiting(r.captures.room.phase[u])
        ensures CallsOut(r, u) && Own(r, u) == 0
      {
        CaptureGates.OwnMoves(s.captures, t, op, u);
      }
  }

  /** Both gates stay counted, exclusive and free of lost wake-ups in every run of any
      number of threads and captures, whatever discipline they keep. */
  lemma {:induction false} RunInv(s: State, steps: seq<Step>, d: Discipline)
    requires Inv(s) && IsRun(s, steps, d)
    ensures Inv(After(s, steps, d))
    ensures d == Strict && Guarded(s) ==> Guarded(After(s, steps, d))
    decreases |steps|
  {
    if steps != [] {
      hide Inv, Enabled, Apply, Follows;
      StepInv(s, steps[0]);
      if d == Strict && Guarded(s) {
        StepGuarded(s, steps[0]);
      }
      RunInv(Apply(s, steps[0]), steps[1..], d);
    }
  }

  lemma InitialInv(s: State)
    requires Initial(s)
    ensures Inv(s) && Guarded(s)
  {
    CallGates.InitialInv(s.calls);
    CaptureGates.InitialInv(s.captures);
  }

  lemma EmptyPhase<P>(phase: map<Tid, P>, p: P)
    requires forall t :: t in phase ==> phase[t] != p
    ensures |At(phase, p)| == 0
  {
    assert At(phase, p) == {};
  }

  /** With nobody inside the call gate or in possession of it, its waits open in turn. */
  lemma CallWaitsOpen(s: State)
    requires Inv(s)
    requires forall u :: u in s.calls.room.phase && !s.calls.room.phase[u].Out? ==>
      CallGates.Waiting(s.calls.room.phase[u])
      && (u in s.calls.room.asleep || !CallGates.MayPass(s.calls, s.calls.room.phase[u]))
    ensures forall u :: u in s.calls.room.phase ==> s.calls.room.phase[u].Out?
  {
    EmptyPhase(s.calls.room.phase, CallGates.InCall);
    EmptyPhase(s.calls.room.phase, CallGates.Held);
    assert s.calls.active == 0;
    EmptyPhase(s.calls.room.phase, CallGates.DrainClaim);
    assert !s.calls.draining;
    EmptyPhase(s.calls.room.phase, CallGates.DrainWait);
  }

  /** The same at the capture gate, when no capture is outstanding. */
  lemma CaptureWaitsOpen(s: State)
    requires Inv(s) && s.captures.admitted == 0 && s.captures.active == 0
    requires forall u :: u in s.captures.room.phase && !s.captures.room.phase[u].Out? ==>
      CaptureGates.Waiting(s.captures.room.phase[u])
      && (u in s.captures.room.asleep || !CaptureGates.MayPass(s.captures, s.captures.room.phase[u]))
    ensures forall u :: u in s.captures.room.phase ==> s.captures.room.phase[u].Out?
  {
    EmptyPhase(s.captures.room.phase, CaptureGates.Held);
    EmptyPhase(s.captures.room.phase, CaptureGates.QuietClaim);
    assert !s.captures.checkpoint;
    EmptyPhase(s.captures.room.phase, CaptureGates.QuietWait);
  }

  /** A blocked thread is at a wait of one of the gates, and cannot pass it. */
  lemma BlockedWaits(s: State, u: Tid)
    requires Inv(s) && u in s.calls.room.phase && Blocked(s, u)
    ensures
      || (CallGates.Waiting(s.calls.room.phase[u])
          && (u in s.calls.room.asleep || !CallGates.MayPass(s.calls, s.calls.room.phase[u])))
      || (CaptureGates.Waiting(s.captures.room.phase[u])
          && (u in s.captures.room.asleep || !CaptureGates.MayPass(s.captures, s.captures.room.phase[u])))
  {
  }

  /** A state in which waiting threads are outside the other gate and have no captures is
      not deadlocked. */
  lemma GuardedMovesOn(s: State)
    requires Inv(s) && Guarded(s)
    ensures !Deadlocked(s)
  {
    if Deadlocked(s) {
      hide CallGates.Inv, CaptureGates.Inv;
      forall u | u in s.calls.room.phase && !s.calls.room.phase[u].Out?
        ensures CallGates.Waiting(s.calls.room.phase[u])
        ensures (u in s.calls.room.asleep || !CallGates.MayPass(s.calls, s.calls.room.phase[u]))
      {
        BlockedWaits(s, u);
      }
      CallWaitsOpen(s);
      NoCaptures(s);
      forall u | u in s.captures.room.phase && !s.captures.room.phase[u].Out?
        ensures CaptureGates.Waiting(s.captures.room.phase[u])
        ensures u in s.captures.room.asleep || !CaptureGates.MayPass(s.captures, s.captures.room.phase[u])
      {
        BlockedWaits(s, u);
      }
      CaptureWaitsOpen(s);
      var t :| t in s.calls.room.phase && t in s.captures.room.phase && !Finished(s, t);
      BlockedWaits(s, t);
    }
  }

  /** When all unfinished threads are blocked, every owner of a capture would have to be
      waiting, and a guarded owner is not. */
  lemma NoCaptures(s: State)
    requires Inv(s) && Guarded(s)
    requires forall u :: u in s.calls.room.phase ==> s.calls.room.phase[u].Out?
    requires forall u :: u in s.calls.room.phase && u in s.captures.room.phase && !Finished(s, u) ==> Blocked(s, u)
    ensures s.captures.admitted == 0 && s.captures.active == 0
  {
    if t :| t in s.captures.reserved || t in s.captures.running {
      assert Own(s, t) > 0 && t in s.captures.room.phase;
      assert !Finished(s, t);
      BlockedWaits(s, t);
    }
  }

  /** In the documented order, and when threads begin captures and wait for them only with
      none of their own outstanding, no reachable state has all unfinished threads
      blocked. */
  lemma DeadlockFree(s: State, steps: seq<Step>)
    requires Initial(s) && IsRun(s, steps, Strict)
    ensures !Deadlocked(After(s, steps, Strict))
  {
    InitialInv(s);
    RunInv(s, steps, Strict);
    GuardedMovesOn(After(s, steps, Strict));
  }

  // ----------------------------------------------- each part is needed

  /** Only `a` is unfinished: it has captures and is outside both gates. */
  ghost predicate Alone(s: State, a: Tid) {
    && Inv(s) && a in s.calls.room.phase && 0 < Own(s, a)
    && CallsOut(s, a) && CapturesOut(s, a)
    && forall u :: u in s.calls.room.phase && u != a ==> Finished(s, u)
  }

  /** Nothing is claimed, waited for or asleep then. */
  lemma AloneIsIdle(s: State, a: Tid)
    requires Alone(s, a)
    ensures s.calls.active == 0 && s.calls.waiters == 0 && !s.calls.draining && s.calls.room.asleep == {}
    ensures s.captures.waiters == 0 && !s.captures.checkpoint && s.captures.room.asleep == {}
    ensures 0 < s.captures.admitted + s.captures.active
  {
    EmptyPhase(s.calls.room.phase, CallGates.InCall);
    EmptyPhase(s.calls.room.phase, CallGates.Held);
    EmptyPhase(s.calls.room.phase, CallGates.DrainClaim);
    EmptyPhase(s.calls.room.phase, CallGates.DrainWait);
    EmptyPhase(s.captures.room.phase, CaptureGates.Held);
    EmptyPhase(s.captures.room.phase, CaptureGates.QuietClaim);
    EmptyPhase(s.captures.room.phase, CaptureGates.QuietWait);
    assert a in s.captures.reserved || a in s.captures.running;
    assert s.captures.reserved != multiset{} || s.captures.running != multiset{};
  }

  /** Waiting for captures with captures of one's own blocks for good. */
  lemma OwnWaitDeadlocks(s: State, a: Tid)
    requires Alone(s, a)
    ensures Enabled(s, OnCaptures(a, CaptureGates.DoWait))
    ensures Deadlocked(Apply(s, OnCaptures(a, CaptureGates.DoWait)))
  {
    AloneIsIdle(s, a);
    var r := Apply(s, OnCaptures(a, CaptureGates.DoWait));
    assert r.captures.room.phase[a].QuietClaim? && a in r.captures.room.asleep;
  }

  /** A checkpointer waiting for captures, when only `a` has any. */
  lemma CheckpointerClaims(s: State, a: Tid, b: Tid)
    requires Alone(s, a) && b != a && b in s.calls.room.phase
    ensures Enabled(s, OnCaptures(b, CaptureGates.DoWait))
    ensures var r := Apply(s, OnCaptures(b, CaptureGates.DoWait));
      && r.calls == s.calls && r.captures.checkpoint
      && r.captures.room.phase == s.captures.room.phase[b := CaptureGates.QuietClaim]
      && r.captures.room.asleep == {b} && r.captures.reserved == s.captures.reserved
      && r.captures.running == s.captures.running
  {
    AloneIsIdle(s, a);
  }

  /** With any captures of its own, beginning another one may block for good: a
      checkpointer that comes in between waits for them, and the new one waits for it. */
  lemma SecondBeginDeadlocks(s: State, a: Tid, b: Tid)
    requires Alone(s, a) && b != a && b in s.calls.room.phase
    ensures Enabled(s, OnCaptures(b, CaptureGates.DoWait))
    ensures var w := Apply(s, OnCaptures(b, CaptureGates.DoWait));
      && Enabled(w, OnCaptures(a, CaptureGates.DoBegin)) && Own(w, a) == Own(s, a) && CallsOut(w, a)
      && Deadlocked(Apply(w, OnCaptures(a, CaptureGates.DoBegin)))
  {
    CheckpointerClaims(s, a, b);
    AloneIsIdle(s, a);
    var w := Apply(s, OnCaptures(b, CaptureGates.DoWait));
    var r := Apply(w, OnCaptures(a, CaptureGates.DoBegin));
    assert r.captures.room.phase[a].BeginWait? && r.captures.room.asleep == {a, b};
    forall u | u in r.calls.room.phase && u in r.captures.room.phase && !Finished(r, u)
      ensures Blocked(r, u)
    {
      assert u == a || u == b;
    }
    assert !Finished(r, a);
  }

  /** Waiting for captures while holding the call gate blocks for good: the capture
      cannot reach its EndCapture dispatch. */
  lemma DrainFirstDeadlocks(s: State, a: Tid, b: Tid)
    requires Alone(s, a) && b != a && b in s.calls.room.phase
    ensures Enabled(s, OnCalls(b, CallGates.DoDrain))
    ensures var d := Apply(s, OnCalls(b, CallGates.DoDrain));
      Enabled(d, OnCalls(a, CallGates.DoBegin))
      && var c := Apply(d, OnCalls(a, CallGates.DoBegin));
      && Enabled(c, OnCaptures(b, CaptureGates.DoWait)) && Own(c, b) == 0
      && Deadlocked(Apply(c, OnCaptures(b, CaptureGates.DoWait)))
  {
    DrainedDispatchBlocks(s, a, b);
    AloneIsIdle(s, a);
    var c := Apply(Apply(s, OnCalls(b, CallGates.DoDrain)), OnCalls(a, CallGates.DoBegin));
    QuiesceBlocks(s, c, a, b);
  }

  lemma DrainedDispatchBlocks(s: State, a: Tid, b: Tid)
    requires Alone(s, a) && b != a && b in s.calls.room.phase
    ensures Enabled(s, OnCalls(b, CallGates.DoDrain))
    ensures var d := Apply(s, OnCalls(b, CallGates.DoDrain));
      Enabled(d, OnCalls(a, CallGates.DoBegin))
      && var c := Apply(d, OnCalls(a, CallGates.DoBegin));
      c.captures == s.captures && c.calls.room.asleep == {a}
      && c.calls.room.phase == s.calls.room.phase[b := CallGates.Held][a := CallGates.BeginWait]
  {
    AloneIsIdle(s, a);
    hide Inv;
    var d := Apply(s, OnCalls(b, CallGates.DoDrain));
    assert d.calls.draining && d.calls.room.phase[b].Held?;
  }

  lemma QuiesceBlocks(s: State, c: State, a: Tid, b: Tid)
    requires Alone(s, a) && b != a && b in s.calls.room.phase
    requires c.captures == s.captures && c.calls.room.asleep == {a}
    requires c.calls.room.phase == s.calls.room.phase[b := CallGates.Held][a := CallGates.BeginWait]
    ensures Enabled(c, OnCaptures(b, CaptureGates.DoWait)) && Own(c, b) == 0
    ensures Deadlocked(Apply(c, OnCaptures(b, CaptureGates.DoWait)))
  {
    AloneIsIdle(s, a);
    hide Inv;
    var r := Apply(c, OnCaptures(b, CaptureGates.DoWait));
    assert r.captures.room.phase[b].QuietClaim? && b in r.captures.room.asleep;
    assert !Finished(r, a);
    forall u | u in r.calls.room.phase && u in r.captures.room.phase && !Finished(r, u)
      ensures Blocked(r, u)
    {
      assert u == a || u == b;
    }
  }

  lemma {:induction false} Extend(s: State, steps: seq<Step>, step: Step, d: Discipline)
    requires IsRun(s, steps, d) && Enabled(After(s, steps, d), step) && Follows(After(s, steps, d), step, d)
    ensures IsRun(s, steps + [step], d)
    ensures After(s, steps + [step], d) == Apply(After(s, steps, d), step)
    decreases |steps|
  {
    hide Enabled, Follows, Apply;
    var more := steps + [step];
    if steps == [] {
      assert more[1..] == [];
    } else {
      Extend(Apply(s, steps[0]), steps[1..], step, d);
      assert more[1..] == steps[1..] + [step];
    }
  }

  /** Some thread starts a capture. */
  lemma CaptureStarted(s: State, a: Tid, d: Discipline) returns (steps: seq<Step>)
    requires Initial(s) && a in s.calls.room.phase
    ensures IsRun(s, steps, d) && Alone(After(s, steps, d), a) && Own(After(s, steps, d), a) == 1
    ensures After(s, steps, d).calls.room.phase.Keys == s.calls.room.phase.Keys
  {
    var begin, complete := OnCaptures(a, CaptureGates.DoBegin), OnCaptures(a, CaptureGates.DoComplete(true));
    StartSteps(s, a);
    var s1 := Apply(s, begin);
    steps := [begin] + [complete];
    hide Enabled, Apply, Alone, Initial;
    assert Follows(s, begin, d);
    Extend(s, [], begin, d);
    assert [] + [begin] == [begin];
    Extend(s, [begin], complete, d);
  }

  lemma StartSteps(s: State, a: Tid)
    requires Initial(s) && a in s.calls.room.phase
    ensures Own(s, a) == 0 && CallsOut(s, a)
    ensures Enabled(s, OnCaptures(a, CaptureGates.DoBegin))
    ensures var s1 := Apply(s, OnCaptures(a, CaptureGates.DoBegin));
      Enabled(s1, OnCaptures(a, CaptureGates.DoComplete(true)))
      && var s2 := Apply(s1, OnCaptures(a, CaptureGates.DoComplete(true)));
      Alone(s2, a) && Own(s2, a) == 1 && s2.calls == s.calls
  {
    InitialInv(s);
    var begin, complete := OnCaptures(a, CaptureGates.DoBegin), OnCaptures(a, CaptureGates.DoComplete(true));
    var s1 := Apply(s, begin);
    StepInv(s, begin);
    StepInv(s1, complete);
    hide Inv;
    assert s1.captures.reserved == multiset{a};
    var s2 := Apply(s1, complete);
    assert s2.captures.running == multiset{a} && s2.captures.reserved == multiset{};
  }

  /** Every looser discipline lets a run deadlock. */
  lemma LooseDeadlocks(s: State, a: Tid, b: Tid, d: Discipline) returns (steps: seq<Step>)
    requires Initial(s) && a in s.calls.room.phase && b in s.calls.room.phase && a != b && d != Strict
    ensures IsRun(s, steps, d) && Deadlocked(After(s, steps, d))
  {
    hide Enabled, Apply, Alone, Deadlocked, Initial, Own, CallsOut;
    steps := CaptureStarted(s, a, d);
    var e := After(s, steps, d);
    AloneOutside(e, a, b);
    if 1 <= d.waitLimit {
      OwnWaitDeadlocks(e, a);
      Extend(s, steps, OnCaptures(a, CaptureGates.DoWait), d);
      steps := steps + [OnCaptures(a, CaptureGates.DoWait)];
    } else if 1 <= d.beginLimit {
      SecondBeginDeadlocks(e, a, b);
      var wait, begin := OnCaptures(b, CaptureGates.DoWait), OnCaptures(a, CaptureGates.DoBegin);
      Extend(s, steps, wait, d);
      Extend(s, steps + [wait], begin, d);
      steps := steps + [wait] + [begin];
    } else {
      DrainFirstDeadlocks(e, a, b);
      var drain, dispatch, wait := OnCalls(b, CallGates.DoDrain),
        OnCalls(a, CallGates.DoBegin), OnCaptures(b, CaptureGates.DoWait);
      Extend(s, steps, drain, d);
      Extend(s, steps + [drain], dispatch, d);
      Extend(s, steps + [drain] + [dispatch], wait, d);
      steps := steps + [drain] + [dispatch] + [wait];
    }
  }

  lemma AloneOutside(s: State, a: Tid, b: Tid)
    requires Alone(s, a) && b in s.calls.room.phase && b != a
    ensures CallsOut(s, a) && CallsOut(s, b) && Own(s, b) == 0
  {
  }

  /** The strict discipline is exact: with two threads or more, every run that keeps a
      discipline is free of deadlock if and only if the discipline has the documented
      order and lets nobody begin a capture, or wait for captures, with captures of its
      own. */
  lemma DeadlockFreeIff(s: State, a: Tid, b: Tid, d: Discipline)
    requires Initial(s) && a in s.calls.room.phase && b in s.calls.room.phase && a != b
    ensures (forall steps :: IsRun(s, steps, d) ==> !Deadlocked(After(s, steps, d))) <==> d == Strict
  {
    hide Deadlocked;
    if d == Strict {
      forall steps | IsRun(s, steps, d)
        ensures !Deadlocked(After(s, steps, d))
      {
        DeadlockFree(s, steps);
      }
    } else {
      var steps := LooseDeadlocks(s, a, b, d);
    }
  }
}
