/** Staging operations against the teardown of CUDA contexts. Each transition is one
    critical section of the staging state's mutex, up to where it returns or blocks; the
    lifecycle mutex lets one teardown run at a time. */
module Teardown {
  import opened Threads

  type Context = nat    // 0 is no context
  type Device = nat

  /** OpWait to Notify is a staging operation; Notify lies between releasing the mutex and
      waking the waiters. The other phases are a teardown's: waiting to prepare, prepared,
      past the lookup of the context to forget, and waiting to forget it. */
  datatype Phase =
    | Out
    | OpWait(c: Context, d: Device)
    | Op(c: Context, d: Device)
    | Notify
    | PrimaryWait(d: Device)
    | PrimaryReady(d: Device)
    | PrimaryRead(d: Device, found: set<Context>)
    | PrimaryForget(d: Device, c: Context)
    | DestroyWait(c: Context, detach: bool)
    | DestroyReady(c: Context, detach: bool)
    | DestroyForget(c: Context)

  /** `disturbed` records whether staging was ever retired or forgotten during an
      operation. */
  datatype State = State(
    phase: map<Tid, Phase>, active: bool, contexts: set<Context>, devices: set<Device>,
    primary: map<Device, Context>, created: set<Context>, lifecycle: set<Tid>,
    asleep: set<Tid>, disturbed: bool)

  predicate Waiting(p: Phase) {
    p.OpWait? || p.PrimaryWait? || p.PrimaryForget? || p.DestroyWait? || p.DestroyForget?
  }

  predicate InTeardown(p: Phase) {
    p.PrimaryWait? || p.PrimaryReady? || p.PrimaryRead? ||
      p.PrimaryForget? || p.DestroyWait? || p.DestroyReady? || p.DestroyForget?
  }

  ghost predicate Busy(s: State) { exists t :: t in s.phase && s.phase[t].Op? }

  function Goto(s: State, t: Tid, p: Phase): State { s.(phase := s.phase[t := p]) }

  /** The contexts known as the device's primary one. */
  function Primary(s: State, d: Device): set<Context> {
    if d in s.primary then {s.primary[d]} else {}
  }

  predicate TornDown(s: State, c: Context, d: Device) { c in s.contexts || d in s.devices }

  /** lupine_note_inferred_primary_context. */
  function Inferred(s: State, c: Context, d: Device): map<Device, Context> {
    if c == 0 || c in s.created then s.primary else s.primary[d := c]
  }

  /** lupine_server_forget_context_metadata, whatever staging it drops. */
  ghost function Forget(s: State, c: Context): State {
    s.(created := s.created - {c}, primary := map d | d in s.primary && s.primary[d] != c :: s.primary[d],
       disturbed := s.disturbed || Busy(s))
  }

  ghost function Retire(s: State): State { s.(disturbed := s.disturbed || Busy(s)) }

  function EndTeardown(s: State, t: Tid, d: set<Device>, c: set<Context>): State {
    Goto(s.(devices := s.devices - d, contexts := s.contexts - c, lifecycle := s.lifecycle - {t}), t, Out)
  }

  /** A thread at a wait tests its predicate, and either sleeps or runs on. */
  ghost function Test(s: State, t: Tid): State
    requires t in s.phase && Waiting(s.phase[t])
  {
    var p := s.phase[t];
    if p.OpWait? && TornDown(s, p.c, p.d) then Goto(s, t, Out)
    else if s.active then s.(asleep := s.asleep + {t})
    else
      match p
      case OpWait(c, d) => Goto(s.(active := true, primary := Inferred(s, c, d)), t, Op(c, d))
      case PrimaryWait(d) => Goto(Retire(s).(contexts := s.contexts + Primary(s, d)), t, PrimaryReady(d))
      case PrimaryForget(d, c) => EndTeardown(Forget(s, c), t, {d}, {c})
      case DestroyWait(c, detach) => Goto(Retire(s), t, DestroyReady(c, detach))
      case DestroyForget(c) => EndTeardown(Forget(s, c), t, {}, {c})
  }

  ghost function AnyOf(contexts: set<Context>): (c: Context)
    requires contexts != {}
    ensures c in contexts
  {
    var c: Context :| c in contexts;
    c
  }

  /** `forget` and `failed` are what CUDA reported. */
  datatype Action =
    | BeginOp(c: Context, d: Device) | EndOp | WakeAll
    | BeginPrimary(d: Device) | ReadPrimary | FinishPrimary(forget: bool)
    | BeginDestroy(c: Context, detach: bool) | FinishDestroy(failed: bool)
    | NoteCreated(c: Context) | NotePrimary(d: Device, c: Context)
    | Retest | Wake

  predicate Enabled(s: State, t: Tid, a: Action) {
    && t in s.phase
    && match a
       case BeginOp(_, _) => s.phase[t].Out?
       case EndOp => s.phase[t].Op?
       case WakeAll => s.phase[t].Notify?
       case BeginPrimary(_) | BeginDestroy(_, _) | NoteCreated(_) | NotePrimary(_, _) =>
         s.phase[t].Out? && s.lifecycle == {}
       case ReadPrimary => s.phase[t].PrimaryReady?
       case FinishPrimary(_) => s.phase[t].PrimaryRead?
       case FinishDestroy(_) => s.phase[t].DestroyReady?
       case Retest => Waiting(s.phase[t]) && t !in s.asleep
       case Wake => t in s.asleep
  }

  ghost function Apply(s: State, t: Tid, a: Action): State
    requires Enabled(s, t, a)
  {
    match a
    case BeginOp(c, d) => Test(Goto(s, t, OpWait(c, d)), t)
    case EndOp => Goto(s.(active := false), t, Notify)
    case WakeAll => Goto(s.(asleep := {}), t, Out)
    case BeginPrimary(d) => Test(Goto(s.(lifecycle := {t}, devices := s.devices + {d}), t, PrimaryWait(d)), t)
    case ReadPrimary => Goto(s, t, PrimaryRead(s.phase[t].d, Primary(s, s.phase[t].d)))
    case FinishPrimary(forget) =>
      var p := s.phase[t];
      if forget && p.found != {} then
        Test(Goto(s, t, PrimaryForget(p.d, AnyOf(p.found))), t)
      else EndTeardown(s, t, {p.d}, p.found)
    case BeginDestroy(c, detach) =>
      Test(Goto(s.(lifecycle := {t}, contexts := s.contexts + {c}), t, DestroyWait(c, detach)), t)
    case FinishDestroy(failed) =>
      var p := s.phase[t];
      if failed || !p.detach then Test(Goto(s, t, DestroyForget(p.c)), t)
      else EndTeardown(s, t, {}, {p.c})
    case NoteCreated(c) => s.(created := s.created + {c})
    case NotePrimary(d, c) => s.(primary := s.primary[d := c])
    case Retest => Test(s, t)
    case Wake => s.(asleep := s.asleep - {t})
  }

  // ----------------------------------------------------------------- invariant

  /** At most one operation is under way, and `active` says whether one is. */
  ghost predicate OneOperation(s: State) {
    && (s.active <==> Busy(s))
    && (forall t, u :: t in s.phase && u in s.phase && s.phase[t].Op? && s.phase[u].Op? ==> t == u)
  }

  /** The sets a teardown in this phase has put up. */
  predicate Marked(s: State, p: Phase) {
    match p
    case PrimaryWait(d) => s.devices == {d} && s.contexts == {}
    case PrimaryReady(d) => s.devices == {d} && s.contexts == Primary(s, d)
    case PrimaryRead(d, found) => s.devices == {d} && s.contexts == found == Primary(s, d)
    case PrimaryForget(d, c) => s.devices == {d} && s.contexts == {c} == Primary(s, d)
    case DestroyWait(c, _) => s.devices == {} && s.contexts == {c}
    case DestroyReady(c, _) => s.devices == {} && s.contexts == {c}
    case DestroyForget(c) => s.devices == {} && s.contexts == {c}
    case _ => s.devices == {} && s.contexts == {}
  }

  /** The lifecycle mutex's holder is the one thread in a teardown, and the teardown sets
      are exactly its own. */
  ghost predicate OneTeardown(s: State) {
    && (forall t :: t in s.lifecycle ==> t in s.phase && InTeardown(s.phase[t]) && Marked(s, s.phase[t]))
    && (forall t :: t in s.phase && InTeardown(s.phase[t]) ==> s.lifecycle == {t})
    && (s.lifecycle == {} ==> s.contexts == {} && s.devices == {})
  }

  predicate Prepared(p: Phase) {
    p.PrimaryReady? || p.PrimaryRead? || p.PrimaryForget? || p.DestroyReady? || p.DestroyForget?
  }

  /** Once a teardown is prepared, no operation is on what it tears down. */
  ghost predicate Excluded(s: State) {
    forall t, u :: t in s.phase && u in s.phase && Prepared(s.phase[t]) && s.phase[u].Op? ==>
      !TornDown(s, s.phase[u].c, s.phase[u].d)
  }

  ghost predicate Notifying(s: State) { exists t :: t in s.phase && s.phase[t].Notify? }

  /** A thread sleeps only while an operation runs, or is about to wake everybody. */
  ghost predicate WillWake(s: State) {
    && (forall t :: t in s.asleep ==> t in s.phase && Waiting(s.phase[t]))
    && (s.asleep != {} ==> s.active || Notifying(s))
  }

  ghost predicate Inv(s: State) {
    OneOperation(s) && OneTeardown(s) && Excluded(s) && WillWake(s) && !s.disturbed
  }

  ghost predicate Initial(s: State) {
    && (forall t :: t in s.phase ==> s.phase[t].Out?)
    && !s.active && s.contexts == {} && s.devices == {} && s.lifecycle == {} && s.asleep == {} && !s.disturbed
  }

  lemma InitialInv(s: State)
    requires Initial(s)
    ensures Inv(s)
  {
  }

  ghost predicate MovesOnly(s: State, r: State, t: Tid) {
    t in s.phase && t in r.phase && r.phase == s.phase[t := r.phase[t]]
  }

  /** A thread that neither begins nor ends an operation. */
  lemma OperationKept(s: State, r: State, t: Tid)
    requires OneOperation(s) && MovesOnly(s, r, t) && !s.phase[t].Op? && !r.phase[t].Op? && r.active == s.active
    ensures OneOperation(r)
  {
    if u :| u in s.phase && s.phase[u].Op? {
      assert r.phase[u].Op?;
    }
    if u :| u in r.phase && r.phase[u].Op? {
      assert s.phase[u].Op?;
    }
  }

  lemma OperationBegins(s: State, r: State, t: Tid)
    requires OneOperation(s) && MovesOnly(s, r, t) && !s.active && r.active && r.phase[t].Op?
    ensures OneOperation(r)
  {
    assert forall u :: u in s.phase ==> !s.phase[u].Op?;
  }

  lemma OperationEnds(s: State, r: State, t: Tid)
    requires OneOperation(s) && MovesOnly(s, r, t) && s.phase[t].Op? && !r.phase[t].Op? && !r.active
    ensures OneOperation(r)
  {
  }

  /** Somebody outside any teardown moves; the torn-down devices' contexts stay known. */
  lemma TeardownKept(s: State, r: State, t: Tid)
    requires OneTeardown(s) && MovesOnly(s, r, t) && !InTeardown(s.phase[t]) && !InTeardown(r.phase[t])
    requires r.devices == s.devices && r.contexts == s.contexts && r.lifecycle == s.lifecycle
    requires forall d :: d in s.devices ==> Primary(r, d) == Primary(s, d)
    ensures OneTeardown(r)
  {
    forall u | u in r.lifecycle
      ensures u in r.phase && InTeardown(r.phase[u]) && Marked(r, r.phase[u])
    {
      assert Marked(s, s.phase[u]);
    }
  }

  lemma ExclusionKept(s: State, r: State, t: Tid)
    requires Excluded(s) && MovesOnly(s, r, t) && r.devices == s.devices && r.contexts == s.contexts
    requires Prepared(r.phase[t]) ==> Prepared(s.phase[t])
    requires r.phase[t].Op? ==> !TornDown(s, r.phase[t].c, r.phase[t].d)
    ensures Excluded(r)
  {
  }

  /** The one teardown goes from one stage to the next. */
  lemma TeardownGoesOn(s: State, r: State, t: Tid)
    requires OneTeardown(s) && MovesOnly(s, r, t) && InTeardown(s.phase[t]) && InTeardown(r.phase[t])
    requires r.lifecycle == s.lifecycle && Marked(r, r.phase[t])
    ensures OneTeardown(r)
  {
    assert s.lifecycle == {t};
  }

  lemma TeardownBegins(s: State, r: State, t: Tid)
    requires OneTeardown(s) && MovesOnly(s, r, t) && s.lifecycle == {}
    requires r.lifecycle == {t} && InTeardown(r.phase[t]) && !Prepared(r.phase[t]) && Marked(r, r.phase[t])
    ensures OneTeardown(r) && Excluded(r)
  {
  }

  /** The holder of the lifecycle mutex knows its own marks. */
  lemma OwnMarks(s: State, t: Tid)
    requires OneTeardown(s) && t in s.phase
    ensures InTeardown(s.phase[t]) ==> s.lifecycle == {t} && Marked(s, s.phase[t])
    ensures s.lifecycle == {} ==> s.devices == {} && s.contexts == {}
  {
    if InTeardown(s.phase[t]) {
      assert t in s.lifecycle;
    }
  }

  /** The one teardown ends, and takes its marks with it. */
  lemma TeardownEnds(s: State, r: State, t: Tid)
    requires OneTeardown(s) && MovesOnly(s, r, t) && InTeardown(s.phase[t]) && r.phase[t].Out?
    requires r.devices == {} && r.contexts == {} && r.lifecycle == {}
    ensures OneTeardown(r) && Excluded(r)
  {
  }

  /** A thread that moves without falling asleep or dropping a wake-up. */
  lemma WakeKept(s: State, r: State, t: Tid)
    requires WillWake(s) && MovesOnly(s, r, t) && r.asleep <= s.asleep && t !in r.asleep
    requires s.active && !r.active ==> r.phase[t].Notify?
    requires s.phase[t].Notify? ==> r.phase[t].Notify? || r.asleep == {}
    ensures WillWake(r)
  {
    if u :| u in s.phase && s.phase[u].Notify? {
      assert u != t ==> r.phase[u].Notify?;
    }
    assert r.phase[t].Notify? ==> Notifying(r);
  }

  lemma NotBusy(s: State)
    requires OneOperation(s) && !s.active
    ensures !Busy(s) && forall u :: u in s.phase ==> !s.phase[u].Op?
  {
  }

  /** A wait's test. */
  lemma TestInv(s: State, t: Tid)
    requires Inv(s) && t in s.phase && Waiting(s.phase[t]) && t !in s.asleep
    ensures Inv(Test(s, t))
  {
    var p := s.phase[t];
    if p.OpWait? && (TornDown(s, p.c, p.d) || !s.active) {
      OpTestInv(s, t);
    } else if s.active {
    } else {
      TeardownTestInv(s, t);
    }
  }

  lemma OpTestInv(s: State, t: Tid)
    requires Inv(s) && t in s.phase && s.phase[t].OpWait? && t !in s.asleep
    requires TornDown(s, s.phase[t].c, s.phase[t].d) || !s.active
    ensures Inv(Test(s, t))
  {
    hide OneOperation, WillWake, OneTeardown, Excluded;
    var r := Test(s, t);
    WakeKept(s, r, t);
    TeardownKept(s, r, t);
    ExclusionKept(s, r, t);
    if TornDown(s, s.phase[t].c, s.phase[t].d) {
      OperationKept(s, r, t);
    } else {
      OperationBegins(s, r, t);
    }
  }

  lemma TeardownTestInv(s: State, t: Tid)
    requires Inv(s) && t in s.phase && Waiting(s.phase[t]) && !s.phase[t].OpWait? && t !in s.asleep && !s.active
    ensures Inv(Test(s, t))
  {
    NotBusy(s);
    OwnMarks(s, t);
    hide OneOperation, WillWake, OneTeardown, Excluded, Busy;
    var r := Test(s, t);
    WakeKept(s, r, t);
    OperationKept(s, r, t);
    if r.phase[t].Out? {
      TeardownEnds(s, r, t);
    } else {
      TeardownGoesOn(s, r, t);
      ExcludedIdle(s, r, t);
    }
  }

  lemma ExcludedIdle(s: State, r: State, t: Tid)
    requires MovesOnly(s, r, t) && !r.phase[t].Op? && forall u :: u in s.phase ==> !s.phase[u].Op?
    ensures Excluded(r)
  {
  }

  /** Every critical section, by any thread at any time, keeps the invariant. */
  lemma StepInv(s: State, t: Tid, a: Action)
    requires Inv(s) && Enabled(s, t, a)
    ensures Inv(Apply(s, t, a))
  {
    hide Inv, Test;
    match a
    case BeginOp(c, d) => WaitInv(s, t, s, OpWait(c, d));
    case BeginPrimary(d) => WaitInv(s, t, s.(lifecycle := {t}, devices := s.devices + {d}), PrimaryWait(d));
    case BeginDestroy(c, detach) =>
      WaitInv(s, t, s.(lifecycle := {t}, contexts := s.contexts + {c}), DestroyWait(c, detach));
    case FinishPrimary(forget) =>
      if forget && s.phase[t].found != {} {
        WaitInv(s, t, s, PrimaryForget(s.phase[t].d, AnyOf(s.phase[t].found)));
      } else {
        MoveInv(s, t, a);
      }
    case FinishDestroy(failed) =>
      if failed || !s.phase[t].detach {
        WaitInv(s, t, s, DestroyForget(s.phase[t].c));
      } else {
        MoveInv(s, t, a);
      }
    case Retest => TestInv(s, t);
    case _ => MoveInv(s, t, a);
  }

  /** Reaching a wait. */
  lemma WaitInv(s: State, t: Tid, m: State, p: Phase)
    requires Inv(s) && t in s.phase && Waiting(p)
    requires m == s.(lifecycle := m.lifecycle, devices := m.devices, contexts := m.contexts)
    requires s.phase[t].Out? ||
      (s.phase[t].PrimaryRead? && p.PrimaryForget? && p.d == s.phase[t].d && p.c in s.phase[t].found)
      || (s.phase[t].DestroyReady? && p.DestroyForget? && p.c == s.phase[t].c)
    requires p.PrimaryForget? || p.DestroyForget? ==> !s.phase[t].Out?
    requires p.OpWait? || p.PrimaryForget? || p.DestroyForget? ==> m == s
    requires p.PrimaryWait? ==>
      s.phase[t].Out? && s.lifecycle == {} && m == s.(lifecycle := {t}, devices := s.devices + {p.d})
    requires p.DestroyWait? ==>
      s.phase[t].Out? && s.lifecycle == {} && m == s.(lifecycle := {t}, contexts := s.contexts + {p.c})
    ensures Inv(Test(Goto(m, t, p), t))
  {
    var g := Goto(m, t, p);
    Awake(s, t);
    WaitReached(s, t, m, p);
    TestInv(g, t);
  }

  lemma Awake(s: State, t: Tid)
    requires Inv(s) && t in s.phase && !Waiting(s.phase[t])
    ensures t !in s.asleep
  {
  }

  lemma WaitReached(s: State, t: Tid, m: State, p: Phase)
    requires Inv(s) && t in s.phase && !Waiting(s.phase[t])
    requires t !in s.asleep && Waiting(p) && !s.phase[t].Op? && !s.phase[t].Notify?
    requires m == s.(lifecycle := m.lifecycle, devices := m.devices, contexts := m.contexts)
    requires s.phase[t].Out? ||
      (s.phase[t].PrimaryRead? && p.PrimaryForget? && p.d == s.phase[t].d && p.c in s.phase[t].found)
      || (s.phase[t].DestroyReady? && p.DestroyForget? && p.c == s.phase[t].c)
    requires p.PrimaryForget? || p.DestroyForget? ==> !s.phase[t].Out?
    requires p.OpWait? || p.PrimaryForget? || p.DestroyForget? ==> m == s
    requires p.PrimaryWait? ==>
      s.phase[t].Out? && s.lifecycle == {} && m == s.(lifecycle := {t}, devices := s.devices + {p.d})
    requires p.DestroyWait? ==>
      s.phase[t].Out? && s.lifecycle == {} && m == s.(lifecycle := {t}, contexts := s.contexts + {p.c})
    ensures Inv(Goto(m, t, p))
  {
    OwnMarks(s, t);
    hide OneOperation, WillWake, OneTeardown, Excluded;
    var r := Goto(m, t, p);
    WakeKept(s, r, t);
    OperationKept(s, r, t);
    if p.OpWait? {
      TeardownKept(s, r, t);
      ExclusionKept(s, r, t);
    } else if s.phase[t].Out? {
      TeardownBegins(s, r, t);
    } else {
      TeardownGoesOn(s, r, t);
      ExclusionKept(s, r, t);
    }
  }

  lemma MoveInv(s: State, t: Tid, a: Action)
    requires Inv(s) && Enabled(s, t, a)
    requires a.EndOp? || a.WakeAll? || a.ReadPrimary? || a.NoteCreated? || a.NotePrimary? || a.Wake?
      || (a.FinishPrimary? && !(a.forget && s.phase[t].found != {}))
      || (a.FinishDestroy? && !a.failed && s.phase[t].detach)
    ensures Inv(Apply(s, t, a))
  {
    if a.Wake? || a.NoteCreated? || a.NotePrimary? {
      NoteInv(s, t, a);
    } else if a.EndOp? || a.WakeAll? {
      ReleaseInv(s, t, a);
    } else if a.ReadPrimary? {
      ReadInv(s, t);
    } else {
      FinishInv(s, t, a);
    }
  }

  lemma ReleaseInv(s: State, t: Tid, a: Action)
    requires Inv(s) && Enabled(s, t, a) && (a.EndOp? || a.WakeAll?)
    ensures Inv(Apply(s, t, a))
  {
    Awake(s, t);
    hide OneOperation, WillWake, OneTeardown, Excluded;
    var r := Apply(s, t, a);
    WakeKept(s, r, t);
    TeardownKept(s, r, t);
    ExclusionKept(s, r, t);
    if a.EndOp? {
      OperationEnds(s, r, t);
    } else {
      OperationKept(s, r, t);
    }
  }

  lemma ReadInv(s: State, t: Tid)
    requires Inv(s) && Enabled(s, t, ReadPrimary)
    ensures Inv(Apply(s, t, ReadPrimary))
  {
    Awake(s, t);
    OwnMarks(s, t);
    hide OneOperation, WillWake, Excluded, OneTeardown;
    var r := Apply(s, t, ReadPrimary);
    WakeKept(s, r, t);
    OperationKept(s, r, t);
    TeardownGoesOn(s, r, t);
    ExclusionKept(s, r, t);
  }

  lemma FinishInv(s: State, t: Tid, a: Action)
    requires Inv(s) && Enabled(s, t, a)
    requires (a.FinishPrimary? && !(a.forget && s.phase[t].found != {})) ||
      (a.FinishDestroy? && !a.failed && s.phase[t].detach)
    ensures Inv(Apply(s, t, a))
  {
    Awake(s, t);
    assert s.lifecycle == {t} && Marked(s, s.phase[t]) by {
      assert t in {t};
    }
    hide OneOperation, WillWake, OneTeardown, Excluded;
    var r := Apply(s, t, a);
    WakeKept(s, r, t);
    OperationKept(s, r, t);
    TeardownEnds(s, r, t);
  }

  lemma NoteInv(s: State, t: Tid, a: Action)
    requires Inv(s) && Enabled(s, t, a) && (a.Wake? || a.NoteCreated? || a.NotePrimary?)
    ensures Inv(Apply(s, t, a))
  {
    hide Busy, Notifying;
    var r := Apply(s, t, a);
    assert r.phase == s.phase;
    PhasesAlike(s, r);
  }

  lemma PhasesAlike(s: State, r: State)
    requires r.phase == s.phase
    ensures Busy(r) == Busy(s) && Notifying(r) == Notifying(s)
  {
  }

  // --------------------------------------------------------------------- runs

  datatype Step = Step(t: Tid, a: Action)

  ghost predicate IsRun(s: State, steps: seq<Step>)
    decreases |steps|
  {
    steps == [] || (Enabled(s, steps[0].t, steps[0].a) && IsRun(Apply(s, steps[0].t, steps[0].a), steps[1..]))
  }

  ghost function After(s: State, steps: seq<Step>): State
    requires IsRun(s, steps)
    decreases |steps|
  {
    if steps == [] then s else After(Apply(s, steps[0].t, steps[0].a), steps[1..])
  }

  /** Over every run from an initial state: staging is never retired or forgotten while an
      operation is under way, no operation is on a context or device whose teardown is
      prepared and not finished, and once no teardown is running the teardown sets are
      empty again. */
  lemma {:induction false} RunExcludes(s: State, steps: seq<Step>)
    requires Inv(s) && IsRun(s, steps)
    ensures Inv(After(s, steps))
    ensures !After(s, steps).disturbed
    ensures After(s, steps).lifecycle == {} ==> After(s, steps).contexts == {} && After(s, steps).devices == {}
    decreases |steps|
  {
    if steps != [] {
      StepInv(s, steps[0].t, steps[0].a);
      RunExcludes(Apply(s, steps[0].t, steps[0].a), steps[1..]);
    }
  }

  /** What a prepared teardown excludes, spelt out. */
  lemma PreparedExcludes(s: State, t: Tid, u: Tid)
    requires Inv(s) && t in s.phase && u in s.phase && s.phase[u].Op?
    ensures s.phase[t].PrimaryReady? || s.phase[t].PrimaryRead? || s.phase[t].PrimaryForget? ==>
      s.phase[u].d != s.phase[t].d && s.phase[u].c !in Primary(s, s.phase[t].d)
    ensures s.phase[t].DestroyReady? || s.phase[t].DestroyForget? ==> s.phase[u].c != s.phase[t].c
  {
    if Prepared(s.phase[t]) {
      assert s.lifecycle == {t};
      assert t in s.lifecycle;
      assert !TornDown(s, s.phase[u].c, s.phase[u].d);
    }
  }

  /** Nobody is left asleep for good: as long as a thread sleeps, some thread can take a
      step that ends an operation or wakes all sleepers. */
  lemma SleepersAreWoken(s: State)
    requires Inv(s) && s.asleep != {}
    ensures exists u :: u in s.phase && (Enabled(s, u, EndOp) || Enabled(s, u, WakeAll))
  {
    if s.active {
      var u :| u in s.phase && s.phase[u].Op?;
      assert Enabled(s, u, EndOp);
    } else {
      var u :| u in s.phase && s.phase[u].Notify?;
      assert Enabled(s, u, WakeAll);
    }
  }

  /** A destroyed context is forgotten when its teardown ends. */
  lemma DestroyForgets(s: State, t: Tid)
    requires Inv(s) && t in s.phase && s.phase[t].DestroyForget? && t !in s.asleep && !s.active
    ensures Apply(s, t, Retest).phase[t].Out? && Apply(s, t, Retest).lifecycle == {}
    ensures Forgotten(Apply(s, t, Retest), s.phase[t].c)
  {
    NotBusy(s);
    OwnMarks(s, t);
  }

  /** The records do not mention the context, and no operation is on it. */
  ghost predicate Forgotten(s: State, c: Context) {
    && c !in s.created && (forall d :: d in s.primary ==> s.primary[d] != c)
    && forall t :: t in s.phase ==> !(s.phase[t].Op? && s.phase[t].c == c)
  }

  ghost predicate Awaited(s: State, c: Context) {
    exists t :: t in s.phase && s.phase[t].OpWait? && s.phase[t].c == c
  }

  /** A call that gives the context's handle a new life. */
  predicate Names(a: Action, c: Context) {
    (a.BeginOp? && a.c == c) || (a.NoteCreated? && a.c == c) || (a.NotePrimary? && a.c == c)
  }

  ghost predicate NamelessRun(s: State, steps: seq<Step>, c: Context) {
    IsRun(s, steps) && forall i: nat :: i < |steps| ==> !Names(steps[i].a, c)
  }

  /** Nobody is on the context, waits for it, or has it recorded. */
  ghost predicate Unused(s: State, c: Context) { Forgotten(s, c) && !Awaited(s, c) }

  lemma GotoUnused(s: State, r: State, t: Tid, c: Context)
    requires Unused(s, c) && MovesOnly(s, r, t) && r.created == s.created && r.primary == s.primary
    requires !((r.phase[t].OpWait? || r.phase[t].Op?) && r.phase[t].c == c)
    ensures Unused(r, c)
  {
    assert forall u :: u in r.phase && r.phase[u].OpWait? && r.phase[u].c == c ==>
      u in s.phase && s.phase[u].OpWait? && s.phase[u].c == c;
  }

  lemma TestUnused(s: State, t: Tid, c: Context)
    requires Unused(s, c) && t in s.phase && Waiting(s.phase[t])
    ensures Unused(Test(s, t), c)
  {
    assert !(s.phase[t].OpWait? && s.phase[t].c == c);
    var r := Test(s, t);
    assert forall u :: u in r.phase && r.phase[u].OpWait? && r.phase[u].c == c ==>
      u in s.phase && s.phase[u].OpWait? && s.phase[u].c == c;
  }

  lemma StepForgets(s: State, t: Tid, a: Action, c: Context)
    requires Enabled(s, t, a) && !Names(a, c) && Unused(s, c)
    ensures Unused(Apply(s, t, a), c)
  {
    hide Test, Unused;
    var p := s.phase[t];
    match a
    case BeginOp(b, d) => WaitUnused(s, s, t, OpWait(b, d), c);
    case BeginPrimary(d) => WaitUnused(s, s.(lifecycle := {t}, devices := s.devices + {d}), t, PrimaryWait(d), c);
    case BeginDestroy(b, detach) =>
      WaitUnused(s, s.(lifecycle := {t}, contexts := s.contexts + {b}), t, DestroyWait(b, detach), c);
    case FinishPrimary(forget) =>
      if forget && p.found != {} {
        WaitUnused(s, s, t, PrimaryForget(p.d, AnyOf(p.found)), c);
      } else {
        GotoUnused(s, Apply(s, t, a), t, c);
      }
    case FinishDestroy(failed) =>
      if failed || !p.detach {
        WaitUnused(s, s, t, DestroyForget(p.c), c);
      } else {
        GotoUnused(s, Apply(s, t, a), t, c);
      }
    case Retest => TestUnused(s, t, c);
    case NoteCreated(_) => NoteUnused(s, t, a, c);
    case NotePrimary(_, _) => NoteUnused(s, t, a, c);
    case Wake => NoteUnused(s, t, a, c);
    case EndOp => GotoUnused(s, Apply(s, t, a), t, c);
    case WakeAll => GotoUnused(s, Apply(s, t, a), t, c);
    case ReadPrimary => GotoUnused(s, Apply(s, t, a), t, c);
  }

  lemma WaitUnused(s: State, m: State, t: Tid, p: Phase, c: Context)
    requires Unused(s, c) && t in s.phase && Waiting(p) && !(p.OpWait? && p.c == c)
    requires m == s.(lifecycle := m.lifecycle, devices := m.devices, contexts := m.contexts)
    ensures Unused(Test(Goto(m, t, p), t), c)
  {
    GotoUnused(s, Goto(m, t, p), t, c);
    TestUnused(Goto(m, t, p), t, c);
  }

  lemma NoteUnused(s: State, t: Tid, a: Action, c: Context)
    requires Enabled(s, t, a) && !Names(a, c) && Unused(s, c) && (a.NoteCreated? || a.NotePrimary? || a.Wake?)
    ensures Unused(Apply(s, t, a), c)
  {
    assert Apply(s, t, a).phase == s.phase;
  }

  lemma {:induction false} RunForgets(s: State, steps: seq<Step>, c: Context)
    requires NamelessRun(s, steps, c) && Unused(s, c)
    ensures Forgotten(After(s, steps), c)
    decreases |steps|
  {
    if steps != [] {
      hide Unused, Apply, Enabled;
      assert !Names(steps[0].a, c);
      StepForgets(s, steps[0].t, steps[0].a, c);
      assert forall i: nat :: i < |steps[1..]| ==> steps[1..][i] == steps[i + 1];
      RunForgets(Apply(s, steps[0].t, steps[0].a), steps[1..], c);
    }
  }

  /** An operation that was waiting all along gets the context when its turn comes. */
  lemma LateOperation(s: State, t: Tid) returns (steps: seq<Step>)
    requires Inv(s) && s.lifecycle == {} && t in s.phase && s.phase[t].OpWait?
    ensures NamelessRun(s, steps, s.phase[t].c) && !Forgotten(After(s, steps), s.phase[t].c)
  {
    OwnMarks(s, t);
    var c := s.phase[t].c;
    hide OneTeardown, Excluded;
    steps := [];
    var e := s;
    if s.active {
      var u :| u in s.phase && s.phase[u].Op?;
      steps := [Step(u, EndOp)];
      e := Apply(s, u, EndOp);
      RunEnds(s, [], Step(u, EndOp), s);
      assert [] + [Step(u, EndOp)] == steps;
    }
    if t in e.asleep {
      RunEnds(s, steps, Step(t, Wake), e);
      steps := steps + [Step(t, Wake)];
      e := Apply(e, t, Wake);
    }
    RunEnds(s, steps, Step(t, Retest), e);
    steps := steps + [Step(t, Retest)];
    assert Apply(e, t, Retest).phase[t] == Op(c, s.phase[t].d);
  }

  lemma {:induction false} RunEnds(s: State, steps: seq<Step>, last: Step, e: State)
    requires IsRun(s, steps) && After(s, steps) == e && Enabled(e, last.t, last.a)
    ensures IsRun(s, steps + [last]) && After(s, steps + [last]) == Apply(e, last.t, last.a)
    decreases |steps|
  {
    hide Enabled, Apply;
    var more := steps + [last];
    if steps == [] {
      assert more[1..] == [];
    } else {
      RunEnds(Apply(s, steps[0].t, steps[0].a), steps[1..], last, e);
      assert more[1..] == steps[1..] + [last];
    }
  }

  /** `a` runs an operation, `b` waits with one on `c`, and `d` waits to destroy `c`. */
  ghost predicate AllWait(s: State, e: State, a: Tid, b: Tid, d: Tid, c: Context, other: Context) {
    && e.phase == s.phase[a := Op(other, 0)][b := OpWait(c, 0)][d := DestroyWait(c, false)]
    && e.active && e.asleep == {b, d} && e.contexts == {c} && e.devices == {} && e.lifecycle == {d}
  }

  lemma RunWaits(s: State, a: Tid, b: Tid, d: Tid, c: Context, other: Context) returns (steps: seq<Step>, e: State)
    requires Initial(s) && {a, b, d} <= s.phase.Keys && a != b && b != d && d != a && c != other
    ensures IsRun(s, steps) && After(s, steps) == e && AllWait(s, e, a, b, d, c, other)
  {
    assert a in s.phase && b in s.phase && d in s.phase;
    var first, second, third := Step(a, BeginOp(other, 0)), Step(b, BeginOp(c, 0)), Step(d, BeginDestroy(c, false));
    var x := Apply(s, first.t, first.a);
    var y := Apply(x, second.t, second.a);
    e := Apply(y, third.t, third.a);
    hide Apply;
    RunEnds(s, [], first, s);
    RunEnds(s, [] + [first], second, x);
    RunEnds(s, [] + [first] + [second], third, y);
    steps := [] + [first] + [second] + [third];
  }

  /** `a` is done and wakes both: */
  lemma OperationDone(s: State, w: State, a: Tid, b: Tid, d: Tid, c: Context, other: Context) returns (y: State)
    requires Initial(s) && {a, b, d} <= s.phase.Keys && a != b && b != d && d != a
    requires AllWait(s, w, a, b, d, c, other)
    ensures Enabled(w, a, EndOp) && Enabled(Apply(w, a, EndOp), a, WakeAll)
    ensures y == Apply(Apply(w, a, EndOp), a, WakeAll) && Destroying(s, y, b, d, c)
  {
    y := Apply(Apply(w, a, EndOp), a, WakeAll);
    assert d in s.phase && b in s.phase;
    forall t | t in y.phase && t != b && t != d
      ensures y.phase[t].Out?
    {
      assert t == a || y.phase[t] == s.phase[t];
    }
  }

  /** All but `b` and `d` are out, and both may test again. */
  ghost predicate Destroying(s: State, y: State, b: Tid, d: Tid, c: Context) {
    && y.phase.Keys == s.phase.Keys && b in y.phase && d in y.phase && b != d
    && y.phase[b] == OpWait(c, 0) && y.phase[d] == DestroyWait(c, false)
    && (forall t :: t in y.phase && t != b && t != d ==> y.phase[t].Out?)
    && !y.active && y.asleep == {} && y.contexts == {c} && y.devices == {} && y.lifecycle == {d}
  }

  /** and `d` goes first. */
  lemma DestroyFirst(s: State, y: State, b: Tid, d: Tid, c: Context) returns (e: State)
    requires Destroying(s, y, b, d, c)
    ensures Enabled(y, d, Retest) && Enabled(Apply(y, d, Retest), d, FinishDestroy(false))
    ensures e == Apply(Apply(y, d, Retest), d, FinishDestroy(false))
    ensures e.lifecycle == {} && Forgotten(e, c) && b in e.phase && e.phase[b] == OpWait(c, 0)
  {
    var z := Apply(y, d, Retest);
    assert z == Goto(Retire(y), d, DestroyReady(c, false));
    e := Apply(z, d, FinishDestroy(false));
    assert forall t :: t in e.phase && t != b ==> e.phase[t].Out?;
  }

  lemma DestroyOvertakes(s: State, was: seq<Step>, w: State, a: Tid, b: Tid, d: Tid, c: Context, other: Context)
    returns (steps: seq<Step>, e: State)
    requires Initial(s) && {a, b, d} <= s.phase.Keys && a != b && b != d && d != a
    requires IsRun(s, was) && After(s, was) == w && AllWait(s, w, a, b, d, c, other)
    ensures IsRun(s, steps) && After(s, steps) == e
    ensures e.lifecycle == {} && Forgotten(e, c) && b in e.phase && e.phase[b] == OpWait(c, 0)
  {
    hide AllWait, Forgotten, Apply, Enabled, Destroying;
    var first, second := Step(a, EndOp), Step(a, WakeAll);
    var third, fourth := Step(d, Retest), Step(d, FinishDestroy(false));
    var y := OperationDone(s, w, a, b, d, c, other);
    e := DestroyFirst(s, y, b, d, c);
    RunEnds(s, was, first, w);
    RunEnds(s, was + [first], second, Apply(w, a, EndOp));
    RunEnds(s, was + [first] + [second], third, y);
    RunEnds(s, was + [first] + [second] + [third], fourth, Apply(y, d, Retest));
    steps := was + [first] + [second] + [third] + [fourth];
  }

  /** The case arises. From any initial state there is a run in which an operation runs,
      another waits for `c`, a thread waits to destroy `c`, and the destroyer goes first: it
      leaves `c` forgotten and awaited, and the operation gets `c` after all. */
  lemma LateOperationReached(s: State, a: Tid, b: Tid, d: Tid, c: Context, other: Context)
    returns (steps: seq<Step>, more: seq<Step>)
    requires Initial(s) && {a, b, d} <= s.phase.Keys && a != b && b != d && d != a && c != other
    ensures IsRun(s, steps) && After(s, steps).lifecycle == {}
    ensures Forgotten(After(s, steps), c) && Awaited(After(s, steps), c)
    ensures NamelessRun(After(s, steps), more, c) && !Forgotten(After(After(s, steps), more), c)
  {
    hide AllWait, Forgotten;
    var w, e;
    steps, w := RunWaits(s, a, b, d, c, other);
    steps, e := DestroyOvertakes(s, steps, w, a, b, d, c, other);
    InitialInv(s);
    RunExcludes(s, steps);
    more := LateOperation(e, b);
  }

  /** Once a teardown is over, the destroyed context stays forgotten, until a call names it
      again, if and only if no operation was still waiting for it. */
  lemma ForgottenIff(s: State, c: Context)
    requires Inv(s) && s.lifecycle == {} && Forgotten(s, c)
    ensures (forall steps :: NamelessRun(s, steps, c) ==> Forgotten(After(s, steps), c)) <==> !Awaited(s, c)
  {
    if Awaited(s, c) {
      var t :| t in s.phase && s.phase[t].OpWait? && s.phase[t].c == c;
      var steps := LateOperation(s, t);
    } else {
      forall steps | NamelessRun(s, steps, c)
        ensures Forgotten(After(s, steps), c)
      {
        RunForgets(s, steps, c);
      }
    }
  }
}
