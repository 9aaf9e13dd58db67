/** Threads around a mutex and its condition variable, each in some phase. Each transition
    of a state machine over them is one critical section, up to the point where it returns
    or blocks. A blocked thread is in `asleep`; notify_all and spurious wake-ups take it
    out, and it then tests its predicate again. */
module Threads {
  type Tid = nat

  function One(b: bool): nat { if b then 1 else 0 }

  /** The phase each thread is in, and those asleep on the condition. */
  datatype Room<P> = Room(phase: map<Tid, P>, asleep: set<Tid>) {
    function Goto(t: Tid, p: P): Room<P> { this.(phase := phase[t := p]) }

    function Sleep(t: Tid): Room<P> { this.(asleep := asleep + {t}) }

    function Wake(t: Tid): Room<P> { this.(asleep := asleep - {t}) }

    function NotifyAll(): Room<P> { this.(asleep := {}) }
  }

  /** Only thread `t` changed phase. */
  ghost predicate MovesOnly<P(!new)>(before: map<Tid, P>, after: map<Tid, P>, t: Tid) {
    after.Keys == before.Keys && forall u :: u in before && u != t ==> after[u] == before[u]
  }

  /** The threads whose phase is `p`. */
  ghost function At<P>(phase: map<Tid, P>, p: P): set<Tid> {
    set t | t in phase && phase[t] == p
  }

  lemma CardinalityMove<T>(a: set<T>, b: set<T>, t: T)
    requires a - {t} == b - {t}
    ensures |b| + One(t in a) == |a| + One(t in b)
  {
    assert a == if t in a then (a - {t}) + {t} else a - {t};
    assert b == if t in b then (b - {t}) + {t} else b - {t};
  }

  /** Moving one thread from phase `was` to phase `now` moves one count. */
  lemma CountMove<P>(phase: map<Tid, P>, t: Tid, now: P, p: P)
    requires t in phase
    ensures |At(phase[t := now], p)| + One(phase[t] == p) == |At(phase, p)| + One(now == p)
  {
    CardinalityMove(At(phase, p), At(phase[t := now], p), t);
  }

  lemma CountMoves<P(!new)>(phase: map<Tid, P>, t: Tid, now: P)
    requires t in phase
    ensures forall p :: |At(phase[t := now], p)| + One(phase[t] == p) == |At(phase, p)| + One(now == p)
  {
    forall p
      ensures |At(phase[t := now], p)| + One(phase[t] == p) == |At(phase, p)| + One(now == p)
    {
      CountMove(phase, t, now, p);
    }
  }

  lemma Present<P>(phase: map<Tid, P>, t: Tid)
    requires t in phase
    ensures 1 <= |At(phase, phase[t])|
  {
    assert t in At(phase, phase[t]);
  }

  lemma Distinct<P>(phase: map<Tid, P>, t: Tid, u: Tid)
    requires t in phase && u in phase && t != u
    requires phase[t] == phase[u]
    ensures 2 <= |At(phase, phase[t])|
  {
    assert {t, u} <= At(phase, phase[t]);
    CardinalityLe({t, u}, At(phase, phase[t]));
  }

  lemma {:induction false} CardinalityLe<T>(a: set<T>, b: set<T>)
    requires a <= b
    ensures |a| <= |b|
  {
    if a != {} {
      var x :| x in a;
      CardinalityLe(a - {x}, b - {x});
    }
  }
}
