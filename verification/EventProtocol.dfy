/** Many client threads recording, re-recording, destroying and querying events against
    one server, with any number of query batches in flight. Recording an event and
    sending the record is one step. */
module EventProtocol {
  import opened Events

  type Qid = nat

  /** A query batch on its way: collected, stamped with the number of async copies
      issued so far, answered, its results noted. */
  datatype Query =
    | Gathered(asks: seq<Ask>, conn: Conn)
    | Sampled(asks: seq<Ask>, conn: Conn, sample: nat)
    | Answered(asks: seq<Ask>, sample: nat, results: seq<bool>)
    | Draining(sample: nat)

  /** The server's latest record of a live event. */
  datatype Record = Record(seqno: nat, done: bool)

  datatype State = State(
    table: Table, seqno: nat, issued: nat, drained: nat,
    server: map<Event, Record>, queries: map<Qid, Query>,
    reported: set<nat>,    // records the server has reported complete
    delivered: set<nat>,   // samples of the queries that came back successful
    onWay: set<nat>,       // async copies noted, whose requests have not reached a server
    waiting: set<nat>,     // copies a server holds back for a query on their connection
    via: map<nat, Conn>)   // the connection of each copy
  {
    /** Copies whose bytes have not reached the client. */
    function Undrained(): set<nat> { onWay + waiting }
  }

  datatype Step =
    | RecordEvent(event: Event)
    | DestroyEvent(event: Event)
    | Finish(event: Event)
    | IssueCopy(conn: Conn)
    | ArriveCopy(n: nat)
    | Collect(q: Qid, primary: Event, conn: Conn, resolver: Event -> Conn)
    | Sample(q: Qid)
    | Answer(q: Qid, results: seq<bool>)
    | Note(q: Qid)
    | Drain(q: Qid)

  /** A query for `event` is answered without a round trip. */
  predicate AnsweredLocally(s: State, event: Event) {
    s.issued == s.drained && KnownComplete(s.table, event)
  }

  /** What the server may answer: success for an event only if its latest record is
      done (or it has none). */
  predicate Truthful(s: State, asks: seq<Ask>, results: seq<bool>) {
    && |results| == |asks|
    && forall i :: 0 <= i < |asks| && results[i] && asks[i].event in s.server ==> s.server[asks[i].event].done
  }

  predicate Enabled(s: State, step: Step) {
    match step
    case RecordEvent(event) => event != 0
    case DestroyEvent(event) => event != 0
    case Finish(event) => event in s.server
    case IssueCopy(_) => true
    case ArriveCopy(n) => n in s.onWay
    case Collect(q, primary, _, _) => q !in s.queries && primary != 0 && !AnsweredLocally(s, primary)
    case Sample(q) => q in s.queries && s.queries[q].Gathered?
    case Answer(q, results) => q in s.queries && s.queries[q].Sampled? && Truthful(s, s.queries[q].asks, results)
    case Note(q) => q in s.queries && s.queries[q].Answered? && |s.queries[q].results| == |s.queries[q].asks| != 0
    case Drain(q) => q in s.queries && s.queries[q].Draining?
  }

  /** Records the server vouches for by answering. */
  function Vouched(s: State, asks: seq<Ask>, results: seq<bool>): set<nat>
    requires |asks| == |results|
  {
    set i | 0 <= i < |asks| && results[i] && asks[i].event in s.server :: s.server[asks[i].event].seqno
  }

  predicate Succeeds(results: seq<bool>) { |results| != 0 && results[0] }

  function Apply(s: State, step: Step): State
    requires Enabled(s, step)
  {
    match step
    case RecordEvent(event) =>
      var n := s.seqno + 1;
      s.(seqno := n, table := Recorded(s.table, event, n), server := s.server[event := Record(n, false)])
    case DestroyEvent(event) => s.(table := Destroyed(s.table, event), server := s.server - {event})
    case Finish(event) => s.(server := s.server[event := s.server[event].(done := true)])
    case IssueCopy(conn) =>
      s.(issued := s.issued + 1, onWay := s.onWay + {s.issued + 1}, via := s.via[s.issued + 1 := conn])
    case ArriveCopy(n) => s.(onWay := s.onWay - {n}, waiting := s.waiting + {n})
    case Collect(q, primary, conn, resolver) =>
      s.(queries := s.queries[q := Gathered(Batch(s.table, primary, conn, resolver), conn)])
    case Sample(q) => s.(queries := s.queries[q := Sampled(s.queries[q].asks, s.queries[q].conn, s.issued)])
    case Answer(q, results) =>
      var query := s.queries[q];
      s.(queries := s.queries[q := Answered(query.asks, query.sample, results)],
         reported := s.reported + Vouched(s, query.asks, results),
         delivered := if Succeeds(results) then s.delivered + {query.sample} else s.delivered,
         waiting := if Succeeds(results) then set n | n in s.waiting && !(n in s.via && s.via[n] == query.conn)
           else s.waiting)
    case Note(q) =>
      var query := s.queries[q];
      s.(table := Noted(s.table, query.asks, query.results),
         queries := if query.results[0] then s.queries[q := Draining(query.sample)] else s.queries - {q})
    case Drain(q) => s.(drained := s.queries[q].sample, queries := s.queries - {q})
  }

  ghost predicate Initial(s: State) {
    && (forall i :: 0 <= i < BATCH ==> s.table[i] == FREE)
    && s.seqno == s.issued == s.drained == 0
    && s.server == map[] && s.queries == map[] && s.reported == {} && s.delivered == {}
    && s.onWay == {} && s.waiting == {} && s.via == map[]
  }

  // --------------------------------------------------------------- invariant

  /** No live event's latest record has this number, now or ever again. */
  ghost predicate Superseded(s: State, n: nat) {
    n <= s.seqno && forall e :: e in s.server ==> s.server[e].seqno != n
  }

  ghost predicate ServerOk(s: State) {
    && (forall e :: e in s.server ==> e != 0 && 1 <= s.server[e].seqno <= s.seqno)
    && (forall e, f :: e in s.server && f in s.server && s.server[e].seqno == s.server[f].seqno ==> e == f)
  }

  /** A slot is free, or holds the latest record of a live event; when it says the record
      is complete, the server has said so. */
  ghost predicate SlotOk(s: State, slot: Slot) {
    slot == FREE ||
    (&& slot.event in s.server && s.server[slot.event].seqno == slot.recorded
     && slot.completed <= slot.recorded
     && (slot.completed == slot.recorded ==> slot.recorded in s.reported))
  }

  ghost predicate TableOk(s: State) {
    && (forall i :: 0 <= i < BATCH ==> SlotOk(s, s.table[i]))
    && (forall i, j :: 0 <= i < j < BATCH && s.table[i].event != 0 ==> s.table[i].event != s.table[j].event)
  }

  predicate Tracked(t: Table, event: Event) { IndexOf(t, event) < BATCH }

  /** Whatever the table has forgotten was recorded before everything it remembers. */
  ghost predicate RecentOnly(s: State) {
    forall e, i :: e in s.server && !Tracked(s.table, e) && 0 <= i < BATCH && s.table[i].event != 0
      ==> s.server[e].seqno < s.table[i].recorded
  }

  /** A record in flight is still its event's latest, or has been superseded. */
  ghost predicate AskOk(s: State, ask: Ask) {
    ask.recorded != 0 ==>
      || (ask.event in s.server && s.server[ask.event].seqno == ask.recorded)
      || Superseded(s, ask.recorded)
  }

  ghost predicate ReplyOk(s: State, ask: Ask, result: bool) {
    result && ask.recorded != 0 ==> ask.recorded in s.reported || Superseded(s, ask.recorded)
  }

  ghost predicate QueryOk(s: State, query: Query) {
    match query
    case Gathered(asks, _) => asks != [] && forall i :: 0 <= i < |asks| ==> AskOk(s, asks[i])
    case Sampled(asks, _, sample) =>
      asks != [] && sample <= s.issued && forall i :: 0 <= i < |asks| ==> AskOk(s, asks[i])
    case Answered(asks, sample, results) =>
      && sample <= s.issued && |asks| == |results| != 0
      && (results[0] ==> sample in s.delivered)
      && forall i :: 0 <= i < |asks| ==> ReplyOk(s, asks[i], results[i])
    case Draining(sample) => sample in s.delivered
  }

  ghost predicate CopiesOk(s: State) {
    && (forall d :: d in s.delivered ==> d <= s.issued)
    && (s.drained == 0 || s.drained in s.delivered)
  }

  ghost predicate QueriesOk(s: State) {
    forall q :: q in s.queries ==> QueryOk(s, s.queries[q])
  }

  ghost predicate Inv(s: State) {
    ServerOk(s) && TableOk(s) && RecentOnly(s) && QueriesOk(s) && CopiesOk(s)
  }

  // ------------------------------------------------------------------ proofs

  lemma InitialInv(s: State)
    requires Initial(s)
    ensures Inv(s)
  {
  }

  /** Queries in flight stay sound when the server's records only move forward. */
  lemma QueriesKept(s: State, s': State)
    requires QueriesOk(s) && s'.queries == s.queries
    requires s.seqno <= s'.seqno && s.issued <= s'.issued && s.reported <= s'.reported && s.delivered <= s'.delivered
    requires forall e :: e in s'.server ==>
      s'.server[e].seqno > s.seqno || (e in s.server && s.server[e].seqno == s'.server[e].seqno)
    requires ServerOk(s)
    ensures QueriesOk(s')
  {
    forall ask | AskOk(s, ask)
      ensures AskOk(s', ask)
    {
      if ask.recorded != 0 && ask.event in s.server && s.server[ask.event].seqno == ask.recorded {
        if !(ask.event in s'.server && s'.server[ask.event].seqno == ask.recorded) {
          assert Superseded(s', ask.recorded);
        }
      }
    }
    forall ask, result | ReplyOk(s, ask, result)
      ensures ReplyOk(s', ask, result)
    {
    }
    forall q | q in s'.queries
      ensures QueryOk(s', s'.queries[q])
    {
      assert QueryOk(s, s.queries[q]);
    }
  }

  lemma RecordTable(s: State, event: Event)
    requires ServerOk(s) && TableOk(s) && event != 0
    ensures TableOk(Apply(s, RecordEvent(event)))
  {
    var s' := Apply(s, RecordEvent(event));
    forall i | 0 <= i < BATCH
      ensures SlotOk(s', s'.table[i])
    {
      assert SlotOk(s, s.table[i]);
    }
  }

  /** An event stays tracked unless its own slot is given away. */
  lemma StillTracked(t: Table, t': Table, event: Event, hole: nat)
    requires forall i :: 0 <= i < BATCH && i != hole && t[i].event == event ==> t'[i].event == event
    ensures Tracked(t, event) && IndexOf(t, event) != hole ==> Tracked(t', event)
  {
    var j := IndexOf(t, event);
    if j < BATCH && j != hole {
      assert t'[j].event == event;
    }
  }

  lemma RecordRecent(s: State, event: Event)
    requires Inv(s) && event != 0
    ensures RecentOnly(Apply(s, RecordEvent(event)))
  {
    var s' := Apply(s, RecordEvent(event));
    var was := IndexOf(s.table, event);
    var at := if was < BATCH then was else Oldest(s.table, BATCH);
    assert s'.table[at].event == event && s'.table[at].recorded == s'.seqno;
    forall e, i | e in s'.server && !Tracked(s'.table, e) && 0 <= i < BATCH && s'.table[i].event != 0
      ensures s'.server[e].seqno < s'.table[i].recorded
    {
      assert e != event && e in s.server;
      assert SlotOk(s, s.table[i]);
      // e was already forgotten, or has just been evicted as the oldest of distinct records
      StillTracked(s.table, s'.table, e, at);
      assert SlotOk(s, s.table[at]);
    }
  }

  lemma RecordInv(s: State, event: Event)
    requires Inv(s) && event != 0
    ensures Inv(Apply(s, RecordEvent(event)))
  {
    RecordTable(s, event);
    RecordRecent(s, event);
    QueriesKept(s, Apply(s, RecordEvent(event)));
  }

  lemma DestroyTable(s: State, event: Event)
    requires TableOk(s) && event != 0
    ensures TableOk(Apply(s, DestroyEvent(event)))
  {
    var s' := Apply(s, DestroyEvent(event));
    forall i | 0 <= i < BATCH
      ensures SlotOk(s', s'.table[i])
    {
      assert SlotOk(s, s.table[i]);
    }
  }

  lemma DestroyRecent(s: State, event: Event)
    requires RecentOnly(s) && event != 0
    ensures RecentOnly(Apply(s, DestroyEvent(event)))
  {
    var s' := Apply(s, DestroyEvent(event));
    forall e, i | e in s'.server && !Tracked(s'.table, e) && 0 <= i < BATCH && s'.table[i].event != 0
      ensures s'.server[e].seqno < s'.table[i].recorded
    {
      StillTracked(s.table, s'.table, e, BATCH);
    }
  }

  lemma DestroyInv(s: State, event: Event)
    requires Inv(s) && event != 0
    ensures Inv(Apply(s, DestroyEvent(event)))
  {
    hide TableOk, RecentOnly;
    DestroyTable(s, event);
    DestroyRecent(s, event);
    QueriesKept(s, Apply(s, DestroyEvent(event)));
  }

  lemma FinishInv(s: State, event: Event)
    requires Inv(s) && event in s.server
    ensures Inv(Apply(s, Finish(event)))
  {
    var s' := Apply(s, Finish(event));
    forall i | 0 <= i < BATCH
      ensures SlotOk(s', s'.table[i])
    {
      assert SlotOk(s, s.table[i]);
    }
    QueriesKept(s, s');
  }

  lemma {:induction false} OthersOk(s: State, n: nat, primary: Event, conn: Conn, resolver: Event -> Conn)
    requires TableOk(s) && n <= BATCH
    ensures forall k :: 0 <= k < |Others(s.table[..n], primary, conn, resolver)| ==>
      AskOk(s, Others(s.table[..n], primary, conn, resolver)[k])
  {
    if n != 0 {
      OthersOk(s, n - 1, primary, conn, resolver);
      assert s.table[..n][..n - 1] == s.table[..n - 1];
      assert SlotOk(s, s.table[n - 1]);
    }
  }

  lemma CollectInv(s: State, q: Qid, primary: Event, conn: Conn, resolver: Event -> Conn)
    requires Inv(s) && Enabled(s, Collect(q, primary, conn, resolver))
    ensures Inv(Apply(s, Collect(q, primary, conn, resolver)))
  {
    var s' := Apply(s, Collect(q, primary, conn, resolver));
    var batch := Batch(s.table, primary, conn, resolver);
    OthersOk(s, BATCH, primary, conn, resolver);
    assert s.table[..BATCH] == s.table;
    var i := IndexOf(s.table, primary);
    assert i < BATCH ==> SlotOk(s, s.table[i]);
    forall k | 0 <= k < |batch|
      ensures AskOk(s, batch[k])
    {
      if k != 0 {
        assert batch[k] == Others(s.table, primary, conn, resolver)[k - 1];
      }
    }
    assert QueryOk(s', s'.queries[q]);
    Others1(s, s', q);
  }

  /** Replacing one query keeps the rest when nothing they depend on moved. */
  lemma Others1(s: State, s': State, q: Qid)
    requires QueriesOk(s)
    requires s'.seqno == s.seqno && s'.server == s.server && s'.issued == s.issued
    requires s.reported <= s'.reported && s.delivered <= s'.delivered
    requires forall p :: p in s'.queries && p != q ==> p in s.queries && s'.queries[p] == s.queries[p]
    requires q in s'.queries ==> QueryOk(s', s'.queries[q])
    ensures QueriesOk(s')
  {
    forall p | p in s'.queries && p != q
      ensures QueryOk(s', s'.queries[p])
    {
      var query := s.queries[p];
      assert QueryOk(s, query);
      assert forall ask, r :: ReplyOk(s, ask, r) ==> ReplyOk(s', ask, r);
      assert forall ask :: AskOk(s, ask) ==> AskOk(s', ask);
    }
  }

  lemma AnswerInv(s: State, q: Qid, results: seq<bool>)
    requires Inv(s) && Enabled(s, Answer(q, results))
    ensures Inv(Apply(s, Answer(q, results)))
  {
    var s' := Apply(s, Answer(q, results));
    var query := s.queries[q];
    assert QueryOk(s, query);
    forall i | 0 <= i < |query.asks|
      ensures ReplyOk(s', query.asks[i], results[i])
    {
      assert AskOk(s, query.asks[i]);
      if results[i] && query.asks[i].event in s.server {
        assert s.server[query.asks[i].event].seqno in Vouched(s, query.asks, results);
      }
    }
    assert QueryOk(s', s'.queries[q]);
    Others1(s, s', q);
    forall i | 0 <= i < BATCH
      ensures SlotOk(s', s'.table[i])
    {
      assert SlotOk(s, s.table[i]);
    }
  }

  /** Noting a sound reply keeps the table sound and moves no record. */
  lemma {:induction false} NotedOk(s: State, asks: seq<Ask>, results: seq<bool>)
    requires ServerOk(s) && TableOk(s) && |asks| == |results|
    requires forall i :: 0 <= i < |asks| ==> ReplyOk(s, asks[i], results[i])
    ensures TableOk(s.(table := Noted(s.table, asks, results)))
    ensures forall i :: 0 <= i < BATCH ==>
      && Noted(s.table, asks, results)[i].event == s.table[i].event
      && Noted(s.table, asks, results)[i].recorded == s.table[i].recorded
  {
    if asks != [] {
      var k := |asks| - 1;
      NotedOk(s, asks[..k], results[..k]);
      var before := s.(table := Noted(s.table, asks[..k], results[..k]));
      assert ReplyOk(s, asks[k], results[k]);
      if results[k] && asks[k].recorded != 0 {
        CompletedOk(before, asks[k]);
      }
    }
  }

  lemma CompletedOk(s: State, ask: Ask)
    requires ServerOk(s) && TableOk(s)
    requires ask.recorded != 0 && ReplyOk(s, ask, true)
    ensures TableOk(s.(table := Completed(s.table, ask)))
  {
    var s' := s.(table := Completed(s.table, ask));
    var j := IndexOfRecord(s.table, ask);
    forall i | 0 <= i < BATCH
      ensures SlotOk(s', s'.table[i])
    {
      assert SlotOk(s, s.table[i]);
      if i == j {
        assert !Superseded(s, ask.recorded);
      }
    }
  }

  lemma SameEvents(t: Table, t': Table, event: Event)
    requires forall i :: 0 <= i < BATCH ==> t'[i].event == t[i].event
    ensures Tracked(t', event) <==> Tracked(t, event)
  {
    var i, j := IndexOf(t, event), IndexOf(t', event);
    assert i < BATCH ==> t'[i].event == event;
    assert j < BATCH ==> t[j].event == event;
  }

  lemma NoteInv(s: State, q: Qid)
    requires Inv(s) && Enabled(s, Note(q))
    ensures Inv(Apply(s, Note(q)))
  {
    var s' := Apply(s, Note(q));
    var query := s.queries[q];
    assert QueryOk(s, query);
    NotedOk(s, query.asks, query.results);
    var noted := s.(table := s'.table);
    forall i | 0 <= i < BATCH
      ensures SlotOk(s', s'.table[i])
    {
      assert SlotOk(noted, noted.table[i]);
    }
    forall e, i | e in s'.server && !Tracked(s'.table, e) && 0 <= i < BATCH && s'.table[i].event != 0
      ensures s'.server[e].seqno < s'.table[i].recorded
    {
      SameEvents(s.table, s'.table, e);
    }
    Others1(s, s', q);
  }

  lemma SampleInv(s: State, q: Qid)
    requires Inv(s) && Enabled(s, Sample(q))
    ensures Inv(Apply(s, Sample(q)))
  {
    var s' := Apply(s, Sample(q));
    assert QueryOk(s, s.queries[q]);
    assert forall ask :: AskOk(s, ask) ==> AskOk(s', ask);
    assert QueryOk(s', s'.queries[q]);
    Others1(s, s', q);
    assert forall i :: 0 <= i < BATCH ==> SlotOk(s, s.table[i]) && SlotOk(s', s'.table[i]);
  }

  lemma DrainInv(s: State, q: Qid)
    requires Inv(s) && Enabled(s, Drain(q))
    ensures Inv(Apply(s, Drain(q)))
  {
    var s' := Apply(s, Drain(q));
    assert QueryOk(s, s.queries[q]);
    Others1(s, s', q);
    assert forall i :: 0 <= i < BATCH ==> SlotOk(s, s.table[i]) && SlotOk(s', s'.table[i]);
  }

  lemma CopyInv(s: State, step: Step)
    requires Inv(s) && Enabled(s, step) && (step.IssueCopy? || step.ArriveCopy?)
    ensures Inv(Apply(s, step))
  {
    var s' := Apply(s, step);
    QueriesKept(s, s');
    assert forall i :: 0 <= i < BATCH ==> SlotOk(s, s.table[i]) && SlotOk(s', s'.table[i]);
  }

  /** Every interleaved step keeps the protocol's invariant. */
  lemma StepInv(s: State, step: Step)
    requires Inv(s) && Enabled(s, step)
    ensures Inv(Apply(s, step))
  {
    match step
    case RecordEvent(event) => RecordInv(s, event);
    case DestroyEvent(event) => DestroyInv(s, event);
    case Finish(event) => FinishInv(s, event);
    case IssueCopy(_) => CopyInv(s, step);
    case ArriveCopy(_) => CopyInv(s, step);
    case Collect(q, primary, conn, resolver) => CollectInv(s, q, primary, conn, resolver);
    case Sample(q) => SampleInv(s, q);
    case Answer(q, results) => AnswerInv(s, q, results);
    case Note(q) => NoteInv(s, q);
    case Drain(q) => DrainInv(s, q);
  }

  /** How copies are used. `apart`: copies and queries go over several connections, while
      the counters are the process's. `late`: a query may be answered while a copy noted
      before its sample is still on its way. */
  datatype Policy = Policy(apart: bool, late: bool)

  const Strict := Policy(false, false)

  predicate Allowed(s: State, step: Step, p: Policy) {
    && (!p.apart ==> (step.IssueCopy? ==> step.conn == 0) && (step.Collect? ==> step.conn == 0))
    && (!p.late && step.Answer? && Succeeds(step.results) && step.q in s.queries && s.queries[step.q].Sampled? ==>
          forall n :: n in s.onWay ==> s.queries[step.q].sample < n)
  }

  ghost predicate IsRun(s: State, steps: seq<Step>, p: Policy)
    decreases |steps|
  {
    steps == [] || (Enabled(s, steps[0]) && Allowed(s, steps[0], p) && IsRun(Apply(s, steps[0]), steps[1..], p))
  }

  ghost function After(s: State, steps: seq<Step>, p: Policy): State
    requires IsRun(s, steps, p)
    decreases |steps|
  {
    if steps == [] then s else After(Apply(s, steps[0]), steps[1..], p)
  }

  lemma {:induction false} RunInv(s: State, steps: seq<Step>, p: Policy)
    requires Inv(s) && IsRun(s, steps, p)
    ensures Inv(After(s, steps, p))
    decreases |steps|
  {
    if steps != [] {
      StepInv(s, steps[0]);
      RunInv(Apply(s, steps[0]), steps[1..], p);
    }
  }

  /** In every run, a query answered locally is about a live event whose latest record
      the server has reported complete, and no async copy has been issued since the
      sample of some query that came back successful. */
  lemma LocalAnswerSound(s: State, steps: seq<Step>, event: Event, p: Policy)
    requires Initial(s) && IsRun(s, steps, p) && event != 0
    ensures var e := After(s, steps, p);
      AnsweredLocally(e, event) ==>
        && event in e.server && e.server[event].seqno in e.reported
        && (e.issued == 0 || e.issued in e.delivered)
  {
    InitialInv(s);
    RunInv(s, steps, p);
    var e := After(s, steps, p);
    var i := IndexOf(e.table, event);
    assert i < BATCH ==> SlotOk(e, e.table[i]);
  }

  /** In every run the table's entries are distinct live events, each with its latest
      record, and every live event it does not hold was recorded before all of them. */
  lemma TableIsMostRecent(s: State, steps: seq<Step>, p: Policy)
    requires Initial(s) && IsRun(s, steps, p)
    ensures var e := After(s, steps, p);
      && (forall i, j :: 0 <= i < j < BATCH && e.table[i].event != 0 ==> e.table[i].event != e.table[j].event)
      && (forall i :: 0 <= i < BATCH && e.table[i].event != 0 ==>
            e.table[i].event in e.server && e.server[e.table[i].event].seqno == e.table[i].recorded)
      && (forall f, i :: f in e.server && !Tracked(e.table, f) && 0 <= i < BATCH && e.table[i].event != 0 ==>
            e.server[f].seqno < e.table[i].recorded)
  {
    InitialInv(s);
    RunInv(s, steps, p);
    var e := After(s, steps, p);
    forall i | 0 <= i < BATCH && e.table[i].event != 0
      ensures e.table[i].event in e.server && e.server[e.table[i].event].seqno == e.table[i].recorded
    {
      assert SlotOk(e, e.table[i]);
    }
  }

  // --------------------------------------------- copies and local answers

  /** On one connection, with queries answered after the copies noted before them have
      arrived: what a successful query's sample covers has been drained. */
  ghost predicate CopiesGone(s: State) {
    && (forall n :: n in s.Undrained() ==> 1 <= n <= s.issued && n in s.via && s.via[n] == 0)
    && (forall d, n :: d in s.delivered && n in s.Undrained() ==> d < n)
    && (forall q :: q in s.queries && (s.queries[q].Gathered? || s.queries[q].Sampled?) ==> s.queries[q].conn == 0)
  }

  lemma StepGone(s: State, step: Step)
    requires Inv(s) && CopiesGone(s) && Enabled(s, step) && Allowed(s, step, Strict)
    ensures CopiesGone(Apply(s, step))
  {
    hide ServerOk, TableOk, RecentOnly;
    if step.Answer? {
      AnswerGone(s, step.q, step.results);
    } else {
      hide QueriesOk;
    }
  }

  lemma AnswerGone(s: State, q: Qid, results: seq<bool>)
    requires Inv(s) && CopiesGone(s) && Enabled(s, Answer(q, results)) && Allowed(s, Answer(q, results), Strict)
    ensures CopiesGone(Apply(s, Answer(q, results)))
  {
    hide ServerOk, TableOk, RecentOnly;
    var r := Apply(s, Answer(q, results));
    var query := s.queries[q];
    assert QueryOk(s, query);
    forall d, n | d in r.delivered && n in r.Undrained()
      ensures d < n
    {
      assert n in s.Undrained() && n in s.via && s.via[n] == 0 == query.conn;
      if d !in s.delivered {
        assert Succeeds(results) && d == query.sample;
        assert n !in r.waiting;
        assert n in s.onWay;
      }
    }
  }

  lemma {:induction false} RunGone(s: State, steps: seq<Step>)
    requires Inv(s) && CopiesGone(s) && IsRun(s, steps, Strict)
    ensures CopiesGone(After(s, steps, Strict))
    decreases |steps|
  {
    if steps != [] {
      hide Inv, CopiesGone, Apply, Enabled;
      StepInv(s, steps[0]);
      StepGone(s, steps[0]);
      RunGone(Apply(s, steps[0]), steps[1..]);
    }
  }

  /** At every local answer of such a run, each asynchronous copy has been drained. */
  lemma LocalAnswerDrained(s: State, steps: seq<Step>, event: Event)
    requires Initial(s) && IsRun(s, steps, Strict)
    requires AnsweredLocally(After(s, steps, Strict), event)
    ensures After(s, steps, Strict).Undrained() == {}
  {
    InitialInv(s);
    RunInv(s, steps, Strict);
    RunGone(s, steps);
    var e := After(s, steps, Strict);
    assert CopiesOk(e);
    if n :| n in e.Undrained() {
      assert false;
    }
  }

  /** An answer about the caller's event alone. */
  function FirstOnly(n: nat): (r: seq<bool>)
    ensures |r| == n && forall i :: 0 <= i < n ==> r[i] == (i == 0)
  {
    seq(n, i => i == 0)
  }

  lemma {:induction false} NotedFirst(t: Table, asks: seq<Ask>)
    requires asks != [] && asks[0].recorded != 0
    ensures Noted(t, asks, FirstOnly(|asks|)) == Completed(t, asks[0])
    decreases |asks|
  {
    var k := |asks| - 1;
    assert FirstOnly(|asks|)[..k] == FirstOnly(k);
    if k == 0 {
      assert asks[..k] == [] && Noted(t, asks[..k], FirstOnly(k)) == t;
    } else {
      NotedFirst(t, asks[..k]);
    }
  }

  /** The first record fills a slot, its query asks for that record, and its success makes
      the event known complete. */
  lemma FirstRecord(t: Table, conn: Conn, resolver: Event -> Conn)
    requires forall i :: 0 <= i < BATCH ==> t[i] == FREE
    ensures var r := Recorded(t, 1, 1);
      var asks := Batch(r, 1, conn, resolver);
      asks[0] == Ask(1, 1) && !KnownComplete(r, 1) && KnownComplete(Noted(r, asks, FirstOnly(|asks|)), 1)
  {
    var r := Recorded(t, 1, 1);
    assert IndexOf(t, 1) == BATCH;
    var v := Oldest(t, BATCH);
    assert r == t[v := Slot(1, 1, 0)];
    assert IndexOf(r, 1) == v by { assert r[v].event == 1; }
    var asks := Batch(r, 1, conn, resolver);
    NotedFirst(r, asks);
    assert IndexOfRecord(r, Ask(1, 1)) == v by { assert r[v].event == 1 && r[v].recorded == 1; }
    var c := Completed(r, Ask(1, 1));
    assert c == r[v := Slot(1, 1, 1)];
    assert IndexOf(c, 1) == v by { assert c[v].event == 1; }
  }

  /** Nothing but copies has happened yet, and none of them goes over connection 0 and has
      arrived. */
  ghost predicate CopiesOnly(s: State) {
    && (forall i :: 0 <= i < BATCH ==> s.table[i] == FREE)
    && s.seqno == 0 && s.server == map[] && s.queries == map[]
    && forall n :: n in s.waiting ==> n in s.via && s.via[n] != 0
  }

  const Resolver: Event -> Conn := e => 0

  /** An event is recorded and finishes, and a query for it is sampled. */
  lemma AskSteps(s: State, p: Policy) returns (steps: seq<Step>, e: State)
    requires CopiesOnly(s)
    ensures IsRun(s, steps, p) && e == After(s, steps, p)
    ensures var table := Recorded(s.table, 1, 1);
      e == s.(table := table, seqno := 1, server := map[1 := Record(1, true)],
        queries := map[0 := Sampled(Batch(table, 1, 0, Resolver), 0, s.issued)])
  {
    FirstRecord(s.table, 0, Resolver);
    hide Recorded, Batch, Noted, KnownComplete, FirstOnly;
    steps := [RecordEvent(1), Finish(1), Collect(0, 1, 0, Resolver), Sample(0)];
    var s1 := Apply(s, steps[0]);
    var s2 := Apply(s1, steps[1]);
    assert s2.server == map[1 := Record(1, true)];
    var s3 := Apply(s2, steps[2]);
    e := Apply(s3, steps[3]);
    assert e.queries == map[0 := Sampled(Batch(s1.table, 1, 0, Resolver), 0, s.issued)];
    RunOf(s3, steps[3..], steps[3], [], p);
    RunOf(s2, steps[2..], steps[2], steps[3..], p);
    RunOf(s1, steps[1..], steps[1], steps[2..], p);
    RunOf(s, steps, steps[0], steps[1..], p);
  }

  /** The server says yes, and the query ends. */
  lemma AnswerSteps(s: State, p: Policy, asks: seq<Ask>) returns (steps: seq<Step>, e: State)
    requires asks != [] && s.server == map[1 := Record(1, true)]
    requires asks[0].event == 1 && s.queries == map[0 := Sampled(asks, 0, s.issued)]
    requires p.late || s.onWay == {}
    requires forall n :: n in s.waiting ==> n in s.via && s.via[n] != 0
    ensures IsRun(s, steps, p) && e == After(s, steps, p)
    ensures e.table == Noted(s.table, asks, FirstOnly(|asks|))
    ensures e.issued == s.issued == e.drained && e.Undrained() == s.Undrained()
  {
    hide Noted;
    steps := [Answer(0, FirstOnly(|asks|)), Note(0), Drain(0)];
    assert Truthful(s, asks, FirstOnly(|asks|));
    var s1 := Apply(s, steps[0]);
    assert s1.queries == map[0 := Answered(asks, s.issued, FirstOnly(|asks|))] && s1.waiting == s.waiting;
    var s2 := Apply(s1, steps[1]);
    assert s2.queries == map[0 := Draining(s.issued)];
    e := Apply(s2, steps[2]);
    RunOf(s2, steps[2..], steps[2], [], p);
    RunOf(s1, steps[1..], steps[1], steps[2..], p);
    RunOf(s, steps, steps[0], steps[1..], p);
  }

  /** Record, finish, query and be answered, all on connection 0. */
  lemma QuerySteps(s: State, p: Policy) returns (steps: seq<Step>)
    requires CopiesOnly(s) && (p.late || s.onWay == {})
    ensures IsRun(s, steps, p) && AnsweredLocally(After(s, steps, p), 1)
    ensures After(s, steps, p).Undrained() == s.Undrained()
  {
    FirstRecord(s.table, 0, Resolver);
    var asking, mid := AskSteps(s, p);
    var answering, e := AnswerSteps(mid, p, Batch(Recorded(s.table, 1, 1), 1, 0, Resolver));
    steps := asking + answering;
    RunBoth(s, asking, answering, p);
  }

  lemma {:induction false} RunBoth(s: State, first: seq<Step>, second: seq<Step>, p: Policy)
    requires IsRun(s, first, p) && IsRun(After(s, first, p), second, p)
    ensures IsRun(s, first + second, p) && After(s, first + second, p) == After(After(s, first, p), second, p)
    decreases |first|
  {
    if first == [] {
      assert first + second == second;
    } else {
      hide Apply, Enabled, Allowed;
      assert (first + second)[0] == first[0];
      RunBoth(Apply(s, first[0]), first[1..], second, p);
      assert (first + second)[1..] == first[1..] + second;
    }
  }

  lemma RunOf(s: State, steps: seq<Step>, first: Step, rest: seq<Step>, p: Policy)
    requires steps == [first] + rest && Enabled(s, first) && Allowed(s, first, p) && IsRun(Apply(s, first), rest, p)
    ensures IsRun(s, steps, p) && After(s, steps, p) == After(Apply(s, first), rest, p)
  {
    assert steps[1..] == rest;
  }

  /** Copies on another connection, or still on their way, are forgotten by the counters. */
  lemma LooseAnswers(s: State, p: Policy) returns (steps: seq<Step>)
    requires Initial(s) && p != Strict
    ensures IsRun(s, steps, p) && AnsweredLocally(After(s, steps, p), 1) && After(s, steps, p).Undrained() != {}
  {
    var issue := IssueCopy(if p.apart then 1 else 0);
    var s1 := Apply(s, issue);
    assert 1 in s1.Undrained();
    if p.apart {
      var s2 := Apply(s1, ArriveCopy(1));
      assert 1 in s2.Undrained();
      var more := QuerySteps(s2, p);
      RunOf(s1, [ArriveCopy(1)] + more, ArriveCopy(1), more, p);
      steps := [issue] + ([ArriveCopy(1)] + more);
      RunOf(s, steps, issue, [ArriveCopy(1)] + more, p);
    } else {
      var more := QuerySteps(s1, p);
      steps := [issue] + more;
      RunOf(s, steps, issue, more, p);
    }
  }

  /** So local answers keep that promise over every run if and only if copies and queries
      share one connection, and no query overtakes a copy noted before its sample. */
  lemma LocalAnswerDrainedIff(s: State, p: Policy)
    requires Initial(s)
    ensures (forall steps, event :: IsRun(s, steps, p) && AnsweredLocally(After(s, steps, p), event) ==>
      After(s, steps, p).Undrained() == {})
      <==> p == Strict
  {
    if p == Strict {
      forall steps, event | IsRun(s, steps, p) && AnsweredLocally(After(s, steps, p), event)
        ensures After(s, steps, p).Undrained() == {}
      {
        LocalAnswerDrained(s, steps, event);
      }
    } else {
      var steps := LooseAnswers(s, p);
      assert AnsweredLocally(After(s, steps, p), 1);
    }
  }
}
