/** The client's table of recently recorded events. A query of an event that the table has
    as completed needs no message to the server. */
module Events {

  type Event = nat   // zero is the null handle
  type Conn = nat

  const BATCH: nat := 16   // table slots, and the longest query batch

  datatype Slot = Slot(event: Event, recorded: nat, completed: nat)

  const FREE := Slot(0, 0, 0)

  type Table = t: seq<Slot> | |t| == BATCH witness seq(BATCH, _ => FREE)

  /** The first slot holding `event`, or the length of the table. */
  function IndexOf(t: seq<Slot>, event: Event): (i: nat)
    ensures i <= |t|
    ensures forall j :: 0 <= j < i ==> t[j].event != event
    ensures i < |t| ==> t[i].event == event
  {
    if t == [] then 0
    else if t[0].event == event then 0
    else 1 + IndexOf(t[1..], event)
  }

  /** The first of the slots recorded longest ago, among the first `n`. */
  function Oldest(t: seq<Slot>, n: nat): (v: nat)
    requires 0 < n <= |t|
    ensures v < n
    ensures forall j :: 0 <= j < n ==> t[v].recorded <= t[j].recorded
    ensures forall j :: 0 <= j < v ==> t[v].recorded < t[j].recorded
  {
    if n == 1 then 0
    else
      var v := Oldest(t, n - 1);
      if t[n - 1].recorded < t[v].recorded then n - 1 else v
  }

  function Recorded(t: Table, event: Event, seqno: nat): Table {
    var i := IndexOf(t, event);
    if i < |t| then t[i := t[i].(recorded := seqno)] else t[Oldest(t, BATCH) := Slot(event, seqno, 0)]
  }

  function Destroyed(t: seq<Slot>, event: Event): (r: seq<Slot>)
    ensures |r| == |t|
    ensures forall i :: 0 <= i < |t| ==> r[i] == if t[i].event == event then FREE else t[i]
  {
    seq(|t|, i requires 0 <= i < |t| => if t[i].event == event then FREE else t[i])
  }

  predicate Outstanding(s: Slot, primary: Event, conn: Conn, resolver: Event -> Conn) {
    s.event != 0 && s.event != primary && s.recorded != s.completed && resolver(s.event) == conn
  }

  datatype Ask = Ask(event: Event, recorded: nat)

  /** The other events worth asking about, in table order. */
  function Others(t: seq<Slot>, primary: Event, conn: Conn, resolver: Event -> Conn): (r: seq<Ask>)
    ensures |r| <= |t|
  {
    if t == [] then []
    else
      var front := Others(t[..|t| - 1], primary, conn, resolver);
      var last := t[|t| - 1];
      if Outstanding(last, primary, conn, resolver) then front + [Ask(last.event, last.recorded)] else front
  }

  predicate KnownComplete(t: Table, event: Event) {
    var i := IndexOf(t, event);
    i < |t| && t[i].recorded == t[i].completed
  }

  /** What a remote query asks about: the event it was called for, and behind it others of
      the table, as many as fit. */
  function Batch(t: Table, primary: Event, conn: Conn, resolver: Event -> Conn): seq<Ask> {
    var i := IndexOf(t, primary);
    var others := Others(t, primary, conn, resolver);
    [Ask(primary, if i < |t| then t[i].recorded else 0)] +
    if |others| <= BATCH - 1 then others else others[..BATCH - 1]
  }

  /** The first slot holding this very record of the event. */
  function IndexOfRecord(t: seq<Slot>, ask: Ask): (i: nat)
    ensures i <= |t|
    ensures forall j :: 0 <= j < i ==> !(t[j].event == ask.event && t[j].recorded == ask.recorded)
    ensures i < |t| ==> t[i].event == ask.event && t[i].recorded == ask.recorded
  {
    if t == [] then 0
    else if t[0].event == ask.event && t[0].recorded == ask.recorded then 0
    else 1 + IndexOfRecord(t[1..], ask)
  }

  function Completed(t: Table, ask: Ask): Table {
    var i := IndexOfRecord(t, ask);
    if i < |t| then t[i := t[i].(completed := ask.recorded)] else t
  }

  function Noted(t: Table, asks: seq<Ask>, results: seq<bool>): Table
    requires |asks| == |results|
  {
    if asks == [] then t
    else
      var k := |asks| - 1;
      var before := Noted(t, asks[..k], results[..k]);
      if results[k] && asks[k].recorded != 0 then Completed(before, asks[k]) else before
  }

  // ---------------------------------------------------------------- the code

  class EventTable {
    const slots: array<Slot>
    var recordSeq: nat
    var dtohIssued: nat
    var dtohDrained: nat

    ghost predicate Valid()
      reads this
    {
      slots.Length == BATCH
    }

    ghost function Contents(): Table
      requires Valid()
      reads this, slots
    {
      slots[..]
    }

    constructor ()
      ensures Valid() && fresh(slots)
      ensures recordSeq == dtohIssued == dtohDrained == 0
      ensures forall i :: 0 <= i < BATCH ==> Contents()[i] == FREE
    {
      slots := new Slot[BATCH](_ => FREE);
      recordSeq, dtohIssued, dtohDrained := 0, 0, 0;
    }

    /** lupine_event_note_recorded. */
    method NoteRecorded(event: Event)
      requires Valid()
      modifies this`recordSeq, slots
      ensures recordSeq == old(recordSeq) + 1
      ensures Contents() == Recorded(old(Contents()), event, recordSeq)
    {
      recordSeq := recordSeq + 1;
      ghost var t := Contents();
      var victim := 0;
      for i := 0 to BATCH
        invariant slots[..] == t
        invariant forall j :: 0 <= j < i ==> slots[j].event != event
        invariant victim < BATCH
        invariant victim == if i == 0 then 0 else Oldest(t, i)
      {
        if slots[i].event == event {
          slots[i] := slots[i].(recorded := recordSeq);
          return;
        }
        if slots[i].recorded < slots[victim].recorded {
          victim := i;
        }
      }
      slots[victim] := Slot(event, recordSeq, 0);
    }

    /** lupine_event_note_destroyed. */
    method NoteDestroyed(event: Event)
      requires Valid()
      modifies slots
      ensures Contents() == Destroyed(old(Contents()), event)
    {
      for i := 0 to BATCH
        invariant forall j :: i <= j < BATCH ==> slots[j] == old(slots[j])
        invariant forall j :: 0 <= j < i ==> slots[j] == if old(slots[j]).event == event then FREE else old(slots[j])
      {
        if slots[i].event == event {
          slots[i] := FREE;
        }
      }
    }

    /** lupine_event_collect_query_batch. The batch goes to the caller's arrays; a zero
        count means the answer is known locally. */
    method CollectQueryBatch(primary: Event, conn: Conn, resolver: Event -> Conn,
                             events: array<Event>, recorded: array<nat>) returns (count: nat)
      requires Valid()
      requires events != recorded && events.Length == BATCH && recorded.Length == BATCH
      modifies events, recorded
      ensures count <= BATCH
      ensures count == 0 <==> dtohIssued == dtohDrained && KnownComplete(Contents(), primary)
      ensures count != 0 ==> count == |Batch(Contents(), primary, conn, resolver)|
      ensures forall k :: 0 <= k < count ==>
        Ask(events[k], recorded[k]) == Batch(Contents(), primary, conn, resolver)[k]
    {
      var copiesPending := dtohIssued != dtohDrained;
      events[0] := primary;
      recorded[0] := 0;
      for i := 0 to BATCH
        invariant events[0] == primary && recorded[0] == 0
        invariant forall j :: 0 <= j < i ==> slots[j].event != primary
      {
        if slots[i].event != primary {
          continue;
        }
        if !copiesPending && slots[i].recorded == slots[i].completed {
          return 0;
        }
        recorded[0] := slots[i].recorded;
        break;
      }
      count := CollectOthers(primary, conn, resolver, events, recorded);
    }

    /** The second scan of lupine_event_collect_query_batch. */
    method CollectOthers(primary: Event, conn: Conn, resolver: Event -> Conn,
                         events: array<Event>, recorded: array<nat>) returns (count: nat)
      requires Valid()
      requires events != recorded && events.Length == BATCH && recorded.Length == BATCH
      modifies events, recorded
      ensures events[0] == old(events[0]) && recorded[0] == old(recorded[0])
      ensures var others := Others(Contents(), primary, conn, resolver);
        && count == 1 + (if |others| <= BATCH - 1 then |others| else BATCH - 1)
        && forall k :: 1 <= k < count ==> Ask(events[k], recorded[k]) == others[k - 1]
    {
      ghost var t := Contents();
      count := 1;
      for i := 0 to BATCH
        invariant events[0] == old(events[0]) && recorded[0] == old(recorded[0])
        invariant Contents() == t
        invariant count == 1 + |Others(t[..i], primary, conn, resolver)| < BATCH
        invariant forall k :: 1 <= k < count ==>
          Ask(events[k], recorded[k]) == Others(t[..i], primary, conn, resolver)[k - 1]
      {
        assert t[..i + 1][..i] == t[..i] && t[..i + 1][i] == slots[i];
        if slots[i].event == 0 || slots[i].event == primary || slots[i].recorded == slots[i].completed
           || resolver(slots[i].event) != conn {
          continue;
        }
        events[count] := slots[i].event;
        recorded[count] := slots[i].recorded;
        count := count + 1;
        if count == BATCH {
          OthersPrefix(t, i + 1, primary, conn, resolver);
          return;
        }
      }
      assert t[..BATCH] == t;
    }

    /** lupine_event_note_query_results. */
    method NoteQueryResults(asks: seq<Ask>, results: seq<bool>)
      requires Valid() && |asks| == |results|
      modifies slots
      ensures Contents() == Noted(old(Contents()), asks, results)
    {
      for i := 0 to |asks|
        invariant Contents() == Noted(old(Contents()), asks[..i], results[..i])
      {
        assert asks[..i + 1][..i] == asks[..i] && results[..i + 1][..i] == results[..i];
        if !results[i] || asks[i].recorded == 0 {
          continue;
        }
        NoteOne(asks[i]);
      }
      assert asks[..|asks|] == asks && results[..|asks|] == results;
    }

    /** The inner scan of lupine_event_note_query_results. */
    method NoteOne(ask: Ask)
      requires Valid()
      modifies slots
      ensures Contents() == Completed(old(Contents()), ask)
    {
      for j := 0 to BATCH
        invariant slots[..] == old(slots[..])
        invariant forall k :: 0 <= k < j ==> !(slots[k].event == ask.event && slots[k].recorded == ask.recorded)
      {
        if slots[j].event == ask.event && slots[j].recorded == ask.recorded {
          slots[j] := slots[j].(completed := ask.recorded);
          return;
        }
      }
    }
  }

  /** Growing the table only appends to the events worth asking about. */
  lemma {:induction false} OthersPrefix(t: seq<Slot>, n: nat, primary: Event, conn: Conn, resolver: Event -> Conn)
    requires n <= |t|
    ensures Others(t[..n], primary, conn, resolver) <= Others(t, primary, conn, resolver)
    decreases |t|
  {
    if n < |t| {
      OthersPrefix(t[..|t| - 1], n, primary, conn, resolver);
      assert t[..|t| - 1][..n] == t[..n];
    } else {
      assert t[..n] == t;
    }
  }
}
