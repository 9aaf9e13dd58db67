/** Device-to-host copies: the server's serial and pipelined replies, and the client loop
    that consumes them. */
module Dtoh {
  import opened Payload

  /** One response: a result, and with success the next chunk. */
  datatype Message = Chunk(data: seq<byte>) | Error

  function ChunkAt(total: nat, offset: nat): nat
    requires offset <= total
  {
    Min(total - offset, BLOCK_BYTES)
  }

  /** What the client's loop expects from `offset` on: chunks in order, each as large as
      it can be, up to the end or to a single failure. */
  ghost predicate Complete(reply: seq<Message>, src: seq<byte>, offset: nat)
    requires offset <= |src|
    decreases |reply|
  {
    reply != [] &&
    match reply[0]
    case Error => |reply| == 1
    case Chunk(data) =>
      var n := ChunkAt(|src|, offset);
      && data == src[offset..offset + n]
      && if offset + n == |src| then |reply| == 1 else Complete(reply[1..], src, offset + n)
  }

  /** The chunks a server has sent so far, from `from` up to `upto`. */
  ghost predicate Sent(reply: seq<Message>, src: seq<byte>, from: nat, upto: nat)
    requires from <= |src|
    decreases |reply|
  {
    if reply == [] then from == upto
    else
      from < |src| && reply[0].Chunk? &&
      var n := ChunkAt(|src|, from);
      reply[0].data == src[from..from + n] && Sent(reply[1..], src, from + n, upto)
  }

  lemma {:induction false} SentMore(reply: seq<Message>, src: seq<byte>, from: nat, upto: nat)
    requires from <= |src| && Sent(reply, src, from, upto) && upto < |src|
    ensures Sent(reply + [Chunk(src[upto..upto + ChunkAt(|src|, upto)])], src, from, upto + ChunkAt(|src|, upto))
    decreases |reply|
  {
    var more := reply + [Chunk(src[upto..upto + ChunkAt(|src|, upto)])];
    if reply == [] {
      assert more[1..] == [];
    } else {
      SentMore(reply[1..], src, from + ChunkAt(|src|, from), upto);
      assert more[1..] == reply[1..] + [Chunk(src[upto..upto + ChunkAt(|src|, upto)])];
    }
  }

  lemma {:induction false} SentBounds(reply: seq<Message>, src: seq<byte>, from: nat, upto: nat)
    requires from <= |src| && Sent(reply, src, from, upto)
    ensures from <= upto <= |src|
    decreases |reply|
  {
    if reply != [] {
      SentBounds(reply[1..], src, from + ChunkAt(|src|, from), upto);
    }
  }

  /** Chunks up to the end are a complete reply. */
  lemma {:induction false} SentToEnd(reply: seq<Message>, src: seq<byte>, from: nat)
    requires from < |src| && Sent(reply, src, from, |src|)
    ensures Complete(reply, src, from)
    decreases |reply|
  {
    var n := ChunkAt(|src|, from);
    if from + n < |src| {
      SentToEnd(reply[1..], src, from + n);
    }
  }

  /** So are chunks followed by a failure. */
  lemma {:induction false} SentThenFailed(reply: seq<Message>, src: seq<byte>, from: nat, upto: nat)
    requires from <= |src| && Sent(reply, src, from, upto) && upto < |src|
    ensures Complete(reply + [Error], src, from)
    decreases |reply|
  {
    if reply != [] {
      var n := ChunkAt(|src|, from);
      SentBounds(reply[1..], src, from + n, upto);
      SentThenFailed(reply[1..], src, from + n, upto);
      assert (reply + [Error])[1..] == reply[1..] + [Error];
    }
  }

  // ------------------------------------------------------------------ the client

  /** rpc_read_payload into the caller's memory. */
  method ReadInto(dst: array<byte>, offset: nat, data: seq<byte>)
    requires offset + |data| <= dst.Length
    modifies dst
    ensures dst[..offset + |data|] == old(dst[..offset]) + data
    ensures dst[offset + |data|..] == old(dst[offset + |data|..])
  {
    for k := 0 to |data|
      invariant dst[..offset] == old(dst[..offset])
      invariant dst[offset..offset + k] == data[..k]
      invariant dst[offset + |data|..] == old(dst[offset + |data|..])
    {
      dst[offset + k] := data[k];
    }
    assert dst[..offset + |data|] == dst[..offset] + dst[offset..offset + |data|];
  }

  lemma CompleteStep(reply: seq<Message>, src: seq<byte>, offset: nat, taken: nat)
    requires offset <= |src| && taken <= |reply| && Complete(reply[taken..], src, offset)
    ensures taken < |reply|
    ensures reply[taken].Error? ==> taken + 1 == |reply|
    ensures reply[taken].Chunk? ==>
      var n := ChunkAt(|src|, offset);
      && reply[taken].data == src[offset..offset + n]
      && if offset + n == |src| then taken + 1 == |reply| else Complete(reply[taken + 1..], src, offset + n)
  {
    assert reply[taken..][0] == reply[taken] && reply[taken..][1..] == reply[taken + 1..];
  }

  /** One chunk lands behind those already there. */
  method ReceiveChunk(dst: array<byte>, offset: nat, data: seq<byte>, ghost src: seq<byte>)
    requires offset + |data| <= dst.Length == |src|
    requires data == src[offset..offset + |data|] && dst[..offset] == src[..offset]
    modifies dst
    ensures dst[..offset + |data|] == src[..offset + |data|]
    ensures dst[offset + |data|..] == old(dst[offset + |data|..])
  {
    ReadInto(dst, offset, data);
    assert src[..offset + |data|] == src[..offset] + src[offset..offset + |data|];
  }

  /** What the client's call comes to. */
  datatype Outcome = Received | Refused | Unavailable

  /** The client side of cuMemcpyDtoH_v2, on a reply of which `arriving` messages come
      through before the transport fails, or all. It takes exactly those, and ends with all
      the bytes, with the server's failure, or with the transport's. Whatever happens, each
      byte is the old one or the right one. */
  method ReceiveDtoh(reply: seq<Message>, arriving: nat, dst: array<byte>, ghost src: seq<byte>)
    returns (outcome: Outcome, taken: nat)
    requires |src| == dst.Length && Complete(reply, src, 0) && arriving <= |reply|
    modifies dst
    ensures taken == arriving
    ensures outcome.Unavailable? <==> arriving < |reply|
    ensures outcome.Refused? <==> arriving == |reply| && reply[|reply| - 1] == Error
    ensures outcome.Received? ==> dst[..] == src
    ensures forall k :: 0 <= k < dst.Length ==> dst[k] == src[k] || dst[k] == old(dst[k])
  {
    hide Complete;
    ghost var was := dst[..];
    var offset: nat := 0;
    outcome, taken := Received, 0;
    var going := true;
    assert reply[0..] == reply;
    while going
      invariant offset <= |src| && taken <= arriving && (going ==> outcome.Received?)
      invariant dst[..offset] == src[..offset] && dst[offset..] == was[offset..]
      invariant going ==> Complete(reply[taken..], src, offset)
      invariant !going && !outcome.Unavailable? ==> taken == |reply| && 0 < taken
      invariant !going && outcome.Received? ==> offset == |src| && reply[taken - 1] != Error
      invariant outcome.Refused? ==> !going && reply[taken - 1] == Error
      invariant outcome.Unavailable? ==> !going && taken == arriving < |reply|
      decreases |reply| - taken, going
    {
      CompleteStep(reply, src, offset, taken);
      var chunk := ChunkAt(dst.Length, offset);
      if taken == arriving {
        offset := ReceivePart(reply[taken], dst, offset, src, was);
        outcome, going := Unavailable, false;
        break;
      }
      var message := reply[taken];
      taken := taken + 1;
      match message {
        case Error =>
          outcome, going := Refused, false;
        case Chunk(data) =>
          ReceiveChunk(dst, offset, data, src);
          assert was[offset..][chunk..] == was[offset + chunk..] && dst[offset + chunk..] == was[offset..][chunk..];
          offset := offset + chunk;
          going := offset < dst.Length;
      }
    }
    PrefixKept(dst[..], src, was, offset);
  }

  /** The message that the transport failed in may have left some of its bytes. */
  method ReceivePart(message: Message, dst: array<byte>, offset: nat, ghost src: seq<byte>, ghost was: seq<byte>)
    returns (reached: nat)
    requires offset <= dst.Length == |src| == |was| && dst[..offset] == src[..offset] && dst[offset..] == was[offset..]
    requires message.Chunk? ==> offset + |message.data| <= |src| && message.data == src[offset..offset + |message.data|]
    modifies dst
    ensures reached <= |src| && dst[..reached] == src[..reached] && dst[reached..] == was[reached..]
  {
    if message.Error? {
      return offset;
    }
    var some: nat :| some <= |message.data|;
    var data := message.data[..some];
    assert data == src[offset..offset + some];
    ReceiveChunk(dst, offset, data, src);
    reached := offset + some;
    assert was[offset..][some..] == was[reached..] && dst[reached..] == was[offset..][some..];
  }

  lemma PrefixKept(now: seq<byte>, src: seq<byte>, was: seq<byte>, offset: nat)
    requires offset <= |src| == |now| == |was| && now[..offset] == src[..offset] && now[offset..] == was[offset..]
    ensures forall k :: 0 <= k < |now| ==> now[k] == src[k] || now[k] == was[k]
    ensures offset == |src| ==> now == src
  {
    forall k | 0 <= k < |now|
      ensures now[k] == src[k] || now[k] == was[k]
    {
      if k < offset {
        assert now[k] == now[..offset][k] && src[k] == src[..offset][k];
      } else {
        assert now[k] == now[offset..][k - offset];
      }
    }
  }

  // ----------------------------------------------------------------- the device

  const SLOT_COUNT: nat := 2
  const PIPELINE_MIN_BYTES: nat := 8 * BLOCK_BYTES

  /** A copy into a slot that may still be running. */
  datatype Transfer = Transfer(id: nat, offset: nat, bytes: nat)

  /** The two halves of the pinned storage: what each holds, what may still be writing to
      it, and what its event stands for. All copies are on the legacy stream. */
  datatype Dma = Dma(busy: seq<Option<Transfer>>, buffers: seq<seq<byte>>, marks: seq<nat>, next: nat)

  ghost predicate DmaOk(d: Dma, src: seq<byte>) {
    && |d.busy| == |d.buffers| == |d.marks| == SLOT_COUNT
    && forall i: nat :: i < SLOT_COUNT ==>
         |d.buffers[i]| == BLOCK_BYTES
         && (d.busy[i].Some? ==>
           d.busy[i].value.id < d.next && d.busy[i].value.bytes <= BLOCK_BYTES &&
             d.busy[i].value.offset + d.busy[i].value.bytes <= |src|)
  }

  /** The slot holds the transfer's bytes. */
  predicate Holds(d: Dma, i: nat, src: seq<byte>, offset: nat, bytes: nat)
    requires i < |d.buffers|
  {
    offset + bytes <= |src| && bytes <= |d.buffers[i]| && d.buffers[i][..bytes] == src[offset..offset + bytes]
  }

  /** Transfers finish whenever they like, and then their bytes are there. */
  ghost predicate Elapsed(d: Dma, e: Dma, src: seq<byte>)
    requires DmaOk(d, src)
  {
    && DmaOk(e, src) && e.marks == d.marks && e.next == d.next
    && forall i: nat :: i < SLOT_COUNT ==>
         && (e.busy[i] == d.busy[i] || e.busy[i].None?)
         && (d.busy[i].None? ==> e.buffers[i] == d.buffers[i])
         && (d.busy[i].Some? && e.busy[i].None? ==> Holds(e, i, src, d.busy[i].value.offset, d.busy[i].value.bytes))
  }

  method ElapseSlot(d: Dma, src: seq<byte>, i: nat, finished: bool) returns (e: Dma)
    requires DmaOk(d, src) && i < SLOT_COUNT
    ensures Elapsed(d, e, src)
    ensures finished ==> e.busy == d.busy[i := None]
    ensures forall k: nat :: k < SLOT_COUNT && k != i ==> e.busy[k] == d.busy[k] && e.buffers[k] == d.buffers[k]
  {
    e := d;
    if d.busy[i].Some? {
      var t := d.busy[i].value;
      var torn: seq<byte> := *;
      if finished {
        torn := src[t.offset..t.offset + t.bytes] + d.buffers[i][t.bytes..];
        e := e.(busy := e.busy[i := None]);
      } else if |torn| != BLOCK_BYTES {
        torn := d.buffers[i];
      }
      e := e.(buffers := e.buffers[i := torn]);
    }
  }

  lemma ElapsedTwice(d: Dma, e: Dma, f: Dma, src: seq<byte>)
    requires DmaOk(d, src) && Elapsed(d, e, src) && Elapsed(e, f, src)
    ensures Elapsed(d, f, src)
  {
  }

  method Elapse(d: Dma, src: seq<byte>, finished: bool) returns (e: Dma)
    requires DmaOk(d, src)
    ensures Elapsed(d, e, src)
    ensures finished ==> e.busy == [None, None]
  {
    var first: bool := *;
    var second: bool := *;
    e := ElapseSlot(d, src, 0, first || finished);
    ghost var mid := e;
    e := ElapseSlot(e, src, 1, second || finished);
    ElapsedTwice(d, mid, e, src);
  }

  /** cuEventSynchronize on slot `i`'s event. */
  method AwaitEvent(d: Dma, src: seq<byte>, i: nat) returns (ok: bool, e: Dma)
    requires DmaOk(d, src) && i < SLOT_COUNT
    ensures Elapsed(d, e, src)
    ensures ok ==> forall k: nat :: k < SLOT_COUNT && e.busy[k].Some? ==> d.marks[i] <= e.busy[k].value.id
  {
    ok := *;
    e := Elapse(d, src, false);
    if ok {
      for k := 0 to SLOT_COUNT
        invariant Elapsed(d, e, src)
        invariant forall n: nat :: n < k && e.busy[n].Some? ==> d.marks[i] <= e.busy[n].value.id
      {
        if e.busy[k].Some? && e.busy[k].value.id < d.marks[i] {
          ghost var was := e;
          e := ElapseSlot(e, src, k, true);
          ElapsedTwice(d, was, e, src);
        }
      }
    }
  }

  /** cuStreamSynchronize on the legacy stream. */
  method AwaitStream(d: Dma, src: seq<byte>) returns (ok: bool, e: Dma)
    requires DmaOk(d, src)
    ensures Elapsed(d, e, src)
    ensures ok ==> e.busy == [None, None]
  {
    ok := *;
    e := Elapse(d, src, ok);
  }

  /** cuMemcpyDtoHAsync_v2 into an idle slot; a failed submission may run all the same. */
  method SubmitTransfer(d: Dma, src: seq<byte>, i: nat, offset: nat, bytes: nat) returns (ok: bool, e: Dma)
    requires DmaOk(d, src) && i < SLOT_COUNT && d.busy[i].None? && offset + bytes <= |src| && bytes <= BLOCK_BYTES
    ensures DmaOk(e, src) && e.marks == d.marks && d.next < e.next
    ensures ok ==>
      if e.busy[i].None? then Holds(e, i, src, offset, bytes) else e.busy[i].value == Transfer(d.next, offset, bytes)
    ensures forall k: nat :: k < SLOT_COUNT && k != i ==> e.busy[k] == d.busy[k] && e.buffers[k] == d.buffers[k]
  {
    ok := *;
    var accepted: bool := *;
    e := d.(next := d.next + 1);
    if ok || accepted {
      e := e.(busy := e.busy[i := Some(Transfer(d.next, offset, bytes))]);
      var finished: bool := *;
      e := ElapseSlot(e, src, i, finished);
    }
  }

  /** cuEventRecord for slot `i`. */
  method RecordEvent(d: Dma, src: seq<byte>, i: nat) returns (ok: bool, e: Dma)
    requires DmaOk(d, src) && i < SLOT_COUNT
    ensures DmaOk(e, src) && e == d.(marks := if ok then d.marks[i := d.next] else d.marks)
  {
    ok := *;
    e := if ok then d.(marks := d.marks[i := d.next]) else d;
  }

  // ----------------------------------------------------------------- the server

  /** lupine_dtoh_pipeline_slot. */
  datatype Slot = Slot(offset: nat, bytes: nat, inFlight: bool, recorded: bool)

  const IdleSlot := Slot(0, 0, false, false)

  /** What the slot's flags say about its half of the storage. */
  ghost predicate SlotOk(d: Dma, src: seq<byte>, i: nat, s: Slot)
    requires DmaOk(d, src) && i < SLOT_COUNT
  {
    && (!s.inFlight ==> d.busy[i].None?)
    && (s.inFlight && s.recorded ==>
          match d.busy[i]
          case None => Holds(d, i, src, s.offset, s.bytes)
          case Some(t) => t.offset == s.offset && t.bytes == s.bytes && t.id < d.marks[i])
  }

  ghost predicate SlotsOk(d: Dma, src: seq<byte>, slots: seq<Slot>) {
    DmaOk(d, src) && |slots| == SLOT_COUNT && SlotOk(d, src, 0, slots[0]) && SlotOk(d, src, 1, slots[1])
  }

  lemma ElapsedSlots(d: Dma, e: Dma, src: seq<byte>, slots: seq<Slot>)
    requires SlotsOk(d, src, slots) && Elapsed(d, e, src)
    ensures SlotsOk(e, src, slots)
  {
  }

  /** Slot `i` is due to carry the chunk at `offset`. */
  predicate Due(slots: seq<Slot>, i: nat, total: nat, offset: nat) {
    i < |slots| && slots[i].inFlight && slots[i].recorded &&
      slots[i].offset == offset <= total && slots[i].bytes == ChunkAt(total, offset)
  }

  /** Everything between `sent` and `submitted` is in the slots, next one first. */
  predicate Queued(slots: seq<Slot>, turn: nat, total: nat, sent: nat, submitted: nat)
    requires turn < SLOT_COUNT
  {
    && sent <= submitted <= total
    && (sent < submitted ==> sent + ChunkAt(total, sent) <= submitted && Due(slots, turn, total, sent))
    && (sent < submitted && sent + ChunkAt(total, sent) < submitted ==>
          Due(slots, 1 - turn, total, sent + ChunkAt(total, sent))
          && submitted == sent + ChunkAt(total, sent) + ChunkAt(total, sent + ChunkAt(total, sent)))
  }

  /** The slot that carries the chunk at `offset`. */
  function Turn(offset: nat): (i: nat)
    ensures i < SLOT_COUNT
  {
    (offset / BLOCK_BYTES) % SLOT_COUNT
  }

  predicate OnBlock(offset: nat, total: nat) { offset % BLOCK_BYTES == 0 || offset == total }

  lemma NextTurn(offset: nat, total: nat)
    requires OnBlock(offset, total) && offset < total
    ensures OnBlock(offset + ChunkAt(total, offset), total)
    ensures ChunkAt(total, offset) == BLOCK_BYTES ==> Turn(offset + BLOCK_BYTES) == 1 - Turn(offset)
    ensures offset + ChunkAt(total, offset) < total ==> ChunkAt(total, offset) == BLOCK_BYTES
  {
    assert (offset + BLOCK_BYTES) / BLOCK_BYTES == offset / BLOCK_BYTES + 1;
  }

  /** What lupine_copy_dtoh_pipelined returns. */
  datatype Ending = Done | TransportFailed | Fallback(offset: nat)

  class Server {
    const src: seq<byte>       // the device range to copy
    var sent: seq<Message>
    var alive: bool
    var dma: Dma
    var slots: seq<Slot>
    var storage: bool

    constructor (bytes: seq<byte>)
      ensures src == bytes && sent == [] && alive && !storage
    {
      src, sent, alive, storage := bytes, [], true, false;
      slots, dma := [IdleSlot, IdleSlot], Dma([None, None], [[], []], [0, 0], 0);
    }

    /** lupine_write_dtoh_chunk_response. */
    method Respond(m: Message)
      requires alive
      modifies this`sent, this`alive
      ensures alive ==> sent == old(sent) + [m]
    {
      alive := *;
      if alive {
        sent := sent + [m];
      }
    }

    /** A failure ends the reply. */
    method RespondError(ghost upto: nat)
      requires alive && upto < |src| && Sent(sent, src, 0, upto)
      modifies this`sent, this`alive
      ensures alive ==> Complete(sent, src, 0)
    {
      SentThenFailed(sent, src, 0, upto);
      Respond(Error);
    }

    /** lupine_copy_dtoh_serial. */
    method CopySerial(offset: nat)
      requires alive && offset <= |src| && Sent(sent, src, 0, offset) && (offset < |src| || sent == [])
      modifies this`sent, this`alive
      ensures alive ==> Complete(sent, src, 0)
    {
      hide Complete, Sent;
      var staging: bool := *;
      if !staging {
        ErrorCompletes(sent, src, offset);
        Respond(Error);
        return;
      }
      var done := offset;
      var going := true;
      while going && alive
        invariant done <= |src| && (going && alive ==> Sent(sent, src, 0, done) && (done < |src| || sent == []))
        invariant !going && alive ==> Complete(sent, src, 0)
        decreases |src| - done, going, alive
      {
        var n := ChunkAt(|src|, done);
        var ok: bool := *;
        if !ok {
          ErrorCompletes(sent, src, done);
          Respond(Error);
          return;
        }
        ghost var was := sent;
        Respond(Chunk(src[done..done + n]));
        ChunkContinues(was, src, done);
        done := done + n;
        going := done < |src|;
      }
    }

    /** cuMemAllocHost and the two events. */
    method SetUp() returns (ok: bool)
      requires !storage
      modifies this`dma, this`slots, this`storage
      ensures storage == ok
      ensures ok ==> SlotsOk(dma, src, slots) && slots == [IdleSlot, IdleSlot]
    {
      ok := *;
      if ok {
        dma := Dma([None, None], [seq(BLOCK_BYTES, _ => 0), seq(BLOCK_BYTES, _ => 0)], [0, 0], 0);
        slots, storage := [IdleSlot, IdleSlot], true;
        var events: bool := *;
        if !events {
          var _ := CleanUp(false);
          ok := false;
        }
      }
    }

    /** cuMemFreeHost: nothing may be writing to the storage any more. */
    method FreeStorage()
      requires storage && dma.busy == [None, None]
      modifies this`storage
      ensures !storage
    {
      storage := false;
    }

    /** lupine_cleanup_dtoh_pipeline. The storage is given up in any case, but freed only
        when every transfer is known to be finished. */
    method CleanUp(synchronize: bool) returns (ok: bool)
      requires storage && SlotsOk(dma, src, slots)
      modifies this`dma, this`storage
      ensures !storage
      ensures ok ==> dma.busy == [None, None]
    {
      hide Holds;
      var confirmed;
      if synchronize || (slots[0].inFlight && !slots[0].recorded) || (slots[1].inFlight && !slots[1].recorded) {
        ghost var was := dma;
        ok, dma := AwaitStream(dma, src);
        confirmed := ok;
      } else {
        ok, confirmed := AwaitSlots();
      }
      if confirmed {
        FreeStorage();
      } else {
        storage := false;
      }
    }

    /** Wait for the recorded events one by one, or for the whole stream if that fails. */
    method AwaitSlots() returns (ok: bool, confirmed: bool)
      requires SlotsOk(dma, src, slots)
      requires forall i: nat :: i < SLOT_COUNT && slots[i].inFlight ==> slots[i].recorded
      modifies this`dma
      ensures ok ==> confirmed
      ensures confirmed ==> dma.busy == [None, None]
    {
      hide Holds;
      for i := 0 to SLOT_COUNT
        invariant SlotsOk(dma, src, slots) && forall k: nat :: k < i ==> dma.busy[k].None?
      {
        if slots[i].inFlight {
          ghost var was := dma;
          ok, dma := AwaitEvent(dma, src, i);
          ElapsedSlots(was, dma, src, slots);
          if !ok {
            confirmed, dma := AwaitStream(dma, src);
            return;
          }
        }
      }
      assert dma.busy == [None, None];
      ok, confirmed := true, true;
    }

    /** The submit step: `result` is the copy's, `recorded` whether its event stands. */
    method Submit(i: nat, offset: nat) returns (result: bool, recorded: bool)
      requires SlotsOk(dma, src, slots) && i < SLOT_COUNT && !slots[i].inFlight && offset < |src|
      modifies this`dma, this`slots
      ensures SlotsOk(dma, src, slots) && |slots| == |old(slots)| && slots == old(slots)[i := slots[i]]
      ensures result && recorded ==> Due(slots, i, |src|, offset)
    {
      var n := ChunkAt(|src|, offset);
      ghost var was := dma;
      slots := slots[i := Slot(offset, n, true, false)];
      recorded := false;
      result, dma := SubmitTransfer(dma, src, i, offset, n);
      if result {
        recorded, dma := RecordEvent(dma, src, i);
        slots := slots[i := Slot(offset, n, true, recorded)];
      }
    }

    /** Give the pipeline up: the serial path goes on from `offset` if every transfer can
        be waited for, and otherwise the reply ends with the failure. */
    method GiveUp(offset: nat) returns (outcome: Ending)
      requires alive && storage && SlotsOk(dma, src, slots) && offset < |src| && Sent(sent, src, 0, offset)
      modifies this`dma, this`storage, this`sent, this`alive
      ensures Ended(outcome)
    {
      hide Sent, Complete, SlotsOk;
      var ok := CleanUp(true);
      if ok {
        return Fallback(offset);
      }
      RespondError(offset);
      outcome := if alive then Done else TransportFailed;
    }

    /** The pipeline is over and its storage given up. */
    ghost predicate Ended(outcome: Ending)
      reads this
    {
      && !storage
      && match outcome
         case Done => alive && Complete(sent, src, 0)
         case TransportFailed => !alive
         case Fallback(offset) => alive && offset < |src| && Sent(sent, src, 0, offset)
    }

    /** The chunks up to `done` are sent and those up to `submitted` on their way; with
        `pending`, the submission at `submitted` failed. */
    ghost predicate Flowing(done: nat, submitted: nat, pending: bool)
      reads this
    {
      && alive && storage && SlotsOk(dma, src, slots)
      && Queued(slots, Turn(done), |src|, done, submitted) && OnBlock(done, |src|)
      && Sent(sent, src, 0, done)
      && if pending then submitted < |src| else submitted == |src| || submitted == done + 2 * BLOCK_BYTES
    }

    /** Submit both slots. */
    method Prime() returns (outcome: Option<Ending>, submitted: nat, pending: bool)
      requires alive && storage && SlotsOk(dma, src, slots) && slots == [IdleSlot, IdleSlot]
      requires sent == [] && PIPELINE_MIN_BYTES <= |src|
      modifies this`dma, this`slots, this`storage, this`sent, this`alive
      ensures outcome.Some? ==> Ended(outcome.value)
      ensures outcome.None? ==> Flowing(0, submitted, pending)
    {
      hide SlotsOk, Complete, Sent;
      outcome, submitted, pending := None, 0, false;
      SentNothing(src);
      var result, recorded := Submit(0, 0);
      if result && !recorded {
        var o := GiveUp(0);
        return Some(o), 0, false;
      }
      if !result {
        pending := true;
        return;
      }
      submitted := slots[0].bytes;
      result, recorded := Submit(1, submitted);
      if result && !recorded {
        var o := GiveUp(0);
        return Some(o), 0, false;
      }
      if !result {
        pending := true;
        return;
      }
      submitted := submitted + slots[1].bytes;
    }

    /** Wait for the chunk that is due and send it. */
    method SendDue(i: nat, done: nat) returns (outcome: Option<Ending>)
      requires alive && storage && SlotsOk(dma, src, slots) && Sent(sent, src, 0, done)
      requires done < |src| && i < SLOT_COUNT && Due(slots, i, |src|, done)
      modifies this`dma, this`slots, this`storage, this`sent, this`alive
      ensures outcome.Some? ==> Ended(outcome.value)
      ensures outcome.None? ==>
        alive && storage && SlotsOk(dma, src, slots) && Sent(sent, src, 0, done + ChunkAt(|src|, done))
      ensures outcome.None? ==> slots == old(slots)[i := old(slots[i]).(inFlight := false, recorded := false)]
    {
      hide Complete, Sent;
      outcome := None;
      ghost var was := dma;
      var ok;
      ok, dma := AwaitEvent(dma, src, i);
      ElapsedSlots(was, dma, src, slots);
      if !ok {
        RespondError(done);
        var _ := CleanUp(true);
        return Some(if alive then Done else TransportFailed);
      }
      assert dma.busy[i].None? && Holds(dma, i, src, done, slots[i].bytes);
      SentNext(sent, src, done);
      Respond(Chunk(dma.buffers[i][..slots[i].bytes]));
      if !alive {
        var _ := CleanUp(false);
        return Some(TransportFailed);
      }
      slots := slots[i := slots[i].(inFlight := false, recorded := false)];
    }

    /** One turn of the pipeline's loop. */
    method PipelineTurn(done: nat, submitted: nat, pending: bool)
      returns (outcome: Option<Ending>, now: nat, ahead: nat, stuck: bool)
      requires Flowing(done, submitted, pending) && done < |src|
      modifies this`dma, this`slots, this`storage, this`sent, this`alive
      ensures outcome.Some? ==> Ended(outcome.value)
      ensures outcome.None? ==> done < now && Flowing(now, ahead, stuck)
    {
      hide SlotsOk, Complete, Sent;
      ghost var was := slots;
      SlotsCounted(dma, src, slots);
      outcome, now, ahead, stuck := None, done, submitted, pending;
      if pending && submitted == done {
        RespondError(done);
        var _ := CleanUp(false);
        return Some(if alive then Done else TransportFailed), done, submitted, pending;
      }
      var i := Turn(done);
      // The source gives up here when the slot is not the one due; it always is.
      if !slots[i].inFlight || !slots[i].recorded || slots[i].offset != done {
        assert false;
      }
      outcome := SendDue(i, done);
      if outcome.Some? {
        return;
      }
      NextTurn(done, |src|);
      now := done + slots[i].bytes;
      QueuedNext(was, slots, i, |src|, done, submitted);
      if submitted < |src| && !pending {
        outcome, ahead, stuck := Refill(i, now, submitted);
      }
    }

    /** Submit the next chunk into the slot just sent. */
    method Refill(i: nat, now: nat, submitted: nat) returns (outcome: Option<Ending>, ahead: nat, stuck: bool)
      requires alive && storage && SlotsOk(dma, src, slots) && i < SLOT_COUNT && !slots[i].inFlight
      requires Queued(slots, 1 - i, |src|, now, submitted)
      requires Turn(now) == 1 - i && OnBlock(now, |src|) && Sent(sent, src, 0, now)
      requires submitted == now + BLOCK_BYTES && submitted < |src|
      modifies this`dma, this`slots, this`storage, this`sent, this`alive
      ensures outcome.Some? ==> Ended(outcome.value)
      ensures outcome.None? ==> Flowing(now, ahead, stuck)
    {
      hide SlotsOk, Complete, Sent, OnBlock, Queued, Turn;
      outcome, ahead, stuck := None, submitted, false;
      ghost var was := slots;
      SlotsCounted(dma, src, slots);
      var result, recorded := Submit(i, submitted);
      if result && !recorded {
        var o := GiveUp(now);
        return Some(o), submitted, false;
      }
      QueuedRefill(was, slots, i, |src|, now, submitted, result);
      if result {
        ahead := submitted + slots[i].bytes;
      } else {
        stuck := true;
      }
    }

    /** lupine_copy_dtoh_pipelined. */
    method CopyPipelined() returns (outcome: Ending)
      requires alive && sent == [] && !storage && PIPELINE_MIN_BYTES <= |src|
      modifies this`dma, this`slots, this`storage, this`sent, this`alive
      ensures Ended(outcome)
    {
      hide SlotsOk, Complete, Sent, Flowing;
      SentNothing(src);
      var ok := SetUp();
      if !ok {
        return Fallback(0);
      }
      var early, submitted, pending := Prime();
      if early.Some? {
        return early.value;
      }
      var done: nat := 0;
      FlowBounds(done, submitted, pending);
      while done < |src|
        invariant Flowing(done, submitted, pending) && done <= |src|
        decreases |src| - done
      {
        early, done, submitted, pending := PipelineTurn(done, submitted, pending);
        if early.Some? {
          return early.value;
        }
        FlowBounds(done, submitted, pending);
      }
      FlowEnds(done, submitted, pending);
      var _ := CleanUp(false);
      outcome := Done;
    }

    lemma FlowBounds(done: nat, submitted: nat, pending: bool)
      requires Flowing(done, submitted, pending)
      ensures done <= submitted <= |src|
    {
    }

    lemma FlowEnds(done: nat, submitted: nat, pending: bool)
      requires Flowing(done, submitted, pending) && done == |src| && 0 < |src|
      ensures Complete(sent, src, 0) && storage && alive && SlotsOk(dma, src, slots)
    {
      SentToEnd(sent, src, 0);
    }

    /** The body of handle_manual_cuMemcpyDtoH_v2: unless the transport fails, the reply is
        one the client's loop takes in full, whatever failed underneath. */
    method CopyDtoh()
      requires alive && sent == [] && !storage
      modifies this`dma, this`slots, this`storage, this`sent, this`alive
      ensures alive ==> Complete(sent, src, 0)
      ensures !storage
    {
      hide Complete, Sent;
      SentNothing(src);
      var offset := 0;
      if PIPELINE_MIN_BYTES <= |src| {
        var outcome := CopyPipelined();
        if !outcome.Fallback? {
          return;
        }
        offset := outcome.offset;
      }
      CopySerial(offset);
    }
  }

  lemma SlotsCounted(d: Dma, src: seq<byte>, slots: seq<Slot>)
    requires SlotsOk(d, src, slots)
    ensures |slots| == SLOT_COUNT
  {
  }

  /** After the due chunk is sent, the other slot's is next. */
  lemma QueuedNext(was: seq<Slot>, slots: seq<Slot>, i: nat, total: nat, done: nat, submitted: nat)
    requires i < SLOT_COUNT == |was| && Queued(was, i, total, done, submitted)
    requires done < submitted && OnBlock(done, total)
    requires slots == was[i := was[i].(inFlight := false, recorded := false)]
    ensures Queued(slots, 1 - i, total, done + ChunkAt(total, done), submitted)
  {
  }

  lemma QueuedRefill(was: seq<Slot>, slots: seq<Slot>, i: nat, total: nat, now: nat, submitted: nat, result: bool)
    requires i < SLOT_COUNT == |was| == |slots| && Queued(was, 1 - i, total, now, submitted)
    requires submitted == now + BLOCK_BYTES < total && slots == was[i := slots[i]]
    ensures Queued(slots, 1 - i, total, now, submitted)
    ensures result && Due(slots, i, total, submitted) ==>
      && Queued(slots, 1 - i, total, now, submitted + slots[i].bytes)
      && (submitted + slots[i].bytes == total || submitted + slots[i].bytes == now + 2 * BLOCK_BYTES)
  {
  }

  lemma SentNothing(src: seq<byte>)
    ensures Sent([], src, 0, 0)
  {
  }

  lemma SentNext(sent: seq<Message>, src: seq<byte>, upto: nat)
    requires Sent(sent, src, 0, upto) && upto < |src|
    ensures Sent(sent + [Chunk(src[upto..upto + ChunkAt(|src|, upto)])], src, 0, upto + ChunkAt(|src|, upto))
  {
    SentMore(sent, src, 0, upto);
  }

  lemma ErrorCompletes(sent: seq<Message>, src: seq<byte>, upto: nat)
    requires Sent(sent, src, 0, upto) && (upto < |src| || (sent == [] && upto == |src|))
    ensures Complete(sent + [Error], src, 0)
  {
    if upto < |src| {
      SentThenFailed(sent, src, 0, upto);
    }
  }

  lemma ChunkContinues(sent: seq<Message>, src: seq<byte>, upto: nat)
    requires upto <= |src| && Sent(sent, src, 0, upto) && (upto < |src| || sent == [])
    ensures var n := ChunkAt(|src|, upto);
      var more := sent + [Chunk(src[upto..upto + n])];
      if upto + n == |src| then Complete(more, src, 0) else Sent(more, src, 0, upto + n)
  {
    var n := ChunkAt(|src|, upto);
    if upto < |src| {
      SentMore(sent, src, 0, upto);
      if upto + n == |src| {
        SentToEnd(sent + [Chunk(src[upto..upto + n])], src, 0);
      }
    }
  }

  /** A whole copy: the server's reply, taken by the client. Either side of the connection
      may fail on the way. */
  method CopyDeviceToHost(server: Server, dst: array<byte>) returns (outcome: Outcome)
    requires server.alive && server.sent == [] && !server.storage && |server.src| == dst.Length
    modifies server, dst
    ensures outcome.Received? ==> dst[..] == server.src
    ensures forall k :: 0 <= k < dst.Length ==> dst[k] == server.src[k] || dst[k] == old(dst[k])
  {
    server.CopyDtoh();
    if !server.alive {
      return Unavailable;
    }
    var arriving: nat :| arriving <= |server.sent|;
    var taken;
    outcome, taken := ReceiveDtoh(server.sent, arriving, dst, server.src);
  }
}
