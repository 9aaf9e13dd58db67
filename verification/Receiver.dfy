/** The receiving end of the transport: DATA bytes go straight to a waiting reader as far
    as it has room, and are staged otherwise. */
module Receiver {
  import opened Payload

  /** h2_buffer. */
  datatype Buffer = Buffer(data: seq<byte>, offset: nat)

  predicate Unspent(b: Buffer) { b.offset < |b.data| }

  predicate AllUnspent(buffers: seq<Buffer>) { forall i: nat :: i < |buffers| ==> Unspent(buffers[i]) }

  function Staged(buffers: seq<Buffer>): seq<byte>
    requires AllUnspent(buffers)
  {
    if buffers == [] then []
    else
      assert Unspent(buffers[0]);
      buffers[0].data[buffers[0].offset..] + Staged(buffers[1..])
  }

  function Joined(chunks: seq<seq<byte>>): seq<byte> {
    if chunks == [] then [] else chunks[0] + Joined(chunks[1..])
  }

  /** What one receive call brings: DATA chunks, unless the session finds them `sound`, and
      perhaps a response status that rejects the stream. */
  datatype Receipt = Receipt(chunks: seq<seq<byte>>, sound: bool, rejects: bool)

  /** What the network has yet to deliver. Nothing comes after a rejected response, or from
      a call in which the session or the socket fails. */
  function Coming(network: seq<Receipt>, rejected: bool): seq<byte>
    decreases |network|
  {
    if rejected || network == [] || !network[0].sound then []
    else Joined(network[0].chunks) + Coming(network[1..], network[0].rejects)
  }

  lemma {:induction false} StagedAppend(buffers: seq<Buffer>, b: Buffer)
    requires AllUnspent(buffers)
    requires Unspent(b)
    ensures Staged(buffers + [b]) == Staged(buffers) + b.data[b.offset..]
  {
    if buffers == [] {
      assert (buffers + [b])[1..] == [];
    } else {
      StagedAppend(buffers[1..], b);
      assert (buffers + [b])[1..] == buffers[1..] + [b];
    }
  }

  lemma Regroup(a: seq<byte>, b: seq<byte>, now: seq<byte>, staged: seq<byte>, chunk: seq<byte>, rest: seq<byte>)
    requires b + now == staged + chunk
    ensures (a + b) + now + rest == a + staged + (chunk + rest)
  {
    assert (a + b) + now == a + (b + now);
    assert a + (staged + chunk) + rest == a + staged + (chunk + rest);
  }

  lemma Slide(was: seq<byte>, more: seq<byte>, now: seq<byte>, unread: seq<byte>, stream: seq<byte>)
    requires was + unread == stream && more + now == unread
    ensures (was + more) + now == stream
  {
    assert (was + more) + now == was + (more + now);
  }

  /** The buffers after `n` bytes of the first are taken. */
  function Spend(buffers: seq<Buffer>, n: nat): (r: seq<Buffer>)
    requires buffers != [] && AllUnspent(buffers) && buffers[0].offset + n <= |buffers[0].data|
    ensures AllUnspent(r)
  {
    var b := buffers[0];
    if b.offset + n == |b.data| then buffers[1..] else [b.(offset := b.offset + n)] + buffers[1..]
  }

  lemma Associate(a: seq<byte>, b: seq<byte>, c: seq<byte>)
    ensures a + b + c == a + (b + c)
  {
  }

  lemma StagedFirst(b: Buffer, rest: seq<Buffer>)
    requires Unspent(b) && AllUnspent(rest)
    ensures Staged([b] + rest) == b.data[b.offset..] + Staged(rest)
  {
    assert ([b] + rest)[1..] == rest;
  }

  lemma SpendTakes(buffers: seq<Buffer>, n: nat)
    requires buffers != [] && AllUnspent(buffers) && buffers[0].offset + n <= |buffers[0].data|
    ensures Staged(buffers) == buffers[0].data[buffers[0].offset..buffers[0].offset + n] + Staged(Spend(buffers, n))
    ensures |Staged(buffers)| == n + |Staged(Spend(buffers, n))|
  {
    hide Staged;
    var b := buffers[0];
    assert Unspent(b);
    var rest := buffers[1..];
    assert buffers == [b] + rest;
    StagedFirst(b, rest);
    var piece, tail := b.data[b.offset..b.offset + n], b.data[b.offset + n..];
    assert b.data[b.offset..] == piece + tail;
    if b.offset + n == |b.data| {
      assert tail == [] && piece + tail == piece;
    } else {
      StagedFirst(b.(offset := b.offset + n), rest);
      Associate(piece, tail, Staged(rest));
    }
  }

  /** What a reader with `room` takes of the first buffer. */
  function FrontPiece(buffers: seq<Buffer>, room: nat): (piece: seq<byte>)
    requires buffers != [] && AllUnspent(buffers) && 0 < room
    ensures 0 < |piece| <= room && buffers[0].offset + |piece| <= |buffers[0].data|
  {
    var b := buffers[0];
    assert Unspent(b);
    b.data[b.offset..b.offset + Min(|b.data| - b.offset, room)]
  }

  lemma FrontTaken(was: seq<byte>, buffers: seq<Buffer>, room: nat, stream: seq<byte>)
    requires buffers != [] && AllUnspent(buffers) && 0 < room
    requires was + Staged(buffers) == stream
    ensures var piece := FrontPiece(buffers, room);
      was + piece + Staged(Spend(buffers, |piece|)) == stream &&
        |Staged(buffers)| == |piece| + |Staged(Spend(buffers, |piece|))|
  {
    var piece := FrontPiece(buffers, room);
    SpendTakes(buffers, |piece|);
    Associate(was, piece, Staged(Spend(buffers, |piece|)));
  }

  lemma Beside(now: seq<byte>, prefix: seq<byte>, was: seq<byte>, start: nat, from: nat, upto: nat)
    requires start <= from <= upto <= |now| && |prefix| == from && was == prefix[start..] && now[..from] == prefix
    ensures now[..start] == prefix[..start]
    ensures now[start..upto] == was + now[from..upto]
  {
    assert now[..start] == now[..from][..start];
    assert now[start..from] == now[..from][start..];
  }

  lemma Delivered(direct: seq<byte>, staged: seq<byte>, network: seq<Receipt>)
    requires network != [] && direct + staged == Joined(network[0].chunks)
    ensures network[0].sound ==> direct + (staged + Coming(network[1..], network[0].rejects)) == Coming(network, false)
  {
    Associate(direct, staged, Coming(network[1..], network[0].rejects));
  }

  class Transport {
    var localOut: seq<Buffer>
    var network: seq<Receipt>
    var rejected: bool         // a response status other than 200
    var stagedBytes: nat
    var readAt: nat            // where the waiting reader's next byte goes
    var readRemaining: nat     // and how much room it has

    ghost predicate Valid()
      reads this
    {
      && AllUnspent(localOut)
      && stagedBytes == |Staged(localOut)|
      && (readRemaining != 0 ==> localOut == [])
    }

    /** Everything the reader has not had, in order. */
    ghost function Unread(): seq<byte>
      reads this
      requires Valid()
    {
      Staged(localOut) + Coming(network, rejected)
    }

    constructor (receipts: seq<Receipt>)
      ensures Valid() && Unread() == Coming(receipts, false) && readRemaining == 0
    {
      localOut, network, rejected, stagedBytes, readAt, readRemaining := [], receipts, false, 0, 0, 0;
    }

    /** receive_bytes. */
    method ReceiveBytes(data: seq<byte>, dst: array<byte>)
      requires Valid() && readAt + readRemaining <= dst.Length
      modifies this`localOut, this`stagedBytes, this`readAt, this`readRemaining, dst
      ensures Valid() && readAt + readRemaining == old(readAt + readRemaining) && old(readAt) <= readAt
      ensures dst[..old(readAt)] == old(dst[..readAt])
      ensures dst[old(readAt + readRemaining)..] == old(dst[readAt + readRemaining..])
      ensures dst[old(readAt)..readAt] + Staged(localOut) == old(Staged(localOut)) + data
    {
      if data == [] {
        assert dst[readAt..readAt] == [];
        return;
      }
      var direct := Min(|data|, readRemaining);
      CopyInto(dst, readAt, data[..direct]);
      ghost var from := readAt;
      readAt, readRemaining := readAt + direct, readRemaining - direct;
      assert data[..direct] + data[direct..] == data;
      assert old(readRemaining) == 0 ==> dst[from..readAt] == [] && data[direct..] == data;
      if direct == |data| {
        return;
      }
      StagedAppend(localOut, Buffer(data[direct..], 0));
      localOut := localOut + [Buffer(data[direct..], 0)];
      stagedBytes := stagedBytes + (|data| - direct);
    }

    /** The chunks of one receive call, in turn. */
    method Deliver(batch: seq<seq<byte>>, dst: array<byte>, ghost start: nat)
      requires Valid() && localOut == [] && start == readAt && readAt + readRemaining <= dst.Length
      modifies this`localOut, this`stagedBytes, this`readAt, this`readRemaining, dst
      ensures Valid() && readAt + readRemaining == start + old(readRemaining) && start <= readAt
      ensures dst[..start] == old(dst[..start])
      ensures dst[start + old(readRemaining)..] == old(dst[start + readRemaining..])
      ensures dst[start..readAt] + Staged(localOut) == Joined(batch)
    {
      ghost var end, before := start + readRemaining, dst[..start];
      ghost var after := dst[end..];
      assert dst[start..start] == [];
      for i := 0 to |batch|
        invariant Valid() && readAt + readRemaining == end && start <= readAt
        invariant dst[..start] == before && dst[end..] == after
        invariant dst[start..readAt] + Staged(localOut) + Joined(batch[i..]) == Joined(batch)
      {
        ghost var from, was, staged, prefix := readAt, dst[start..readAt], Staged(localOut), dst[..readAt];
        ReceiveBytes(batch[i], dst);
        assert batch[i..][1..] == batch[i + 1..];
        Beside(dst[..], prefix, was, start, from, readAt);
        Regroup(was, dst[from..readAt], Staged(localOut), staged, batch[i], Joined(batch[i + 1..]));
      }
      assert batch[|batch|..] == [];
    }

    /** h2_read_from_net: one receive call's chunks, the first `room` bytes going straight
        to dst[start..]. It fails when the socket or the session does. */
    method ReadFromNet(dst: array<byte>, start: nat, room: nat) returns (ok: bool, direct: nat)
      requires Valid() && localOut == [] && readRemaining == 0 && start + room <= dst.Length && !rejected
      modifies this, dst
      ensures Valid() && readRemaining == 0 && direct <= room
      ensures ok <==> old(network) != [] && old(network)[0].sound
      ensures ok ==> network == old(network)[1..] && rejected == old(network)[0].rejects
      ensures dst[..start] == old(dst[..start]) && dst[start + room..] == old(dst[start + room..])
      ensures ok ==> dst[start..start + direct] + Unread() == Coming(old(network), false)
    {
      direct := 0;
      ok := network != [];
      if !ok {
        return;
      }
      hide Staged, Joined, Coming;
      var receipt := network[0];
      readAt, readRemaining := start, room;
      Deliver(receipt.chunks, dst, start);
      direct := room - readRemaining;
      Delivered(dst[start..start + direct], Staged(localOut), network);
      network, rejected := network[1..], receipt.rejects;
      readAt, readRemaining := 0, 0;
      ok := receipt.sound;
    }

    /** Take bytes of the first staged buffer. */
    method TakeFront(dst: array<byte>, at: nat, size: nat, ghost stream: seq<byte>) returns (next: nat)
      requires Valid() && readRemaining == 0 && localOut != [] && at < size <= dst.Length
      requires dst[..at] + Staged(localOut) == stream
      modifies this`localOut, this`stagedBytes, dst
      ensures Valid() && at < next <= size && dst[size..] == old(dst[size..])
      ensures dst[..next] + Staged(localOut) == stream
    {
      hide Staged, Spend, AllUnspent, FrontPiece;
      var piece := FrontPiece(localOut, size - at);
      FrontTaken(dst[..at], localOut, size - at, stream);
      CopyPiece(dst, at, piece, size);
      next := at + |piece|;
      stagedBytes := stagedBytes - |piece|;
      localOut := Spend(localOut, |piece|);
    }

    /** The inner loop of rpc_http2_read: take what is staged, up to `size`. */
    method TakeStaged(dst: array<byte>, start: nat, size: nat, ghost stream: seq<byte>) returns (copied: nat)
      requires Valid() && readRemaining == 0 && start <= size <= dst.Length && dst[..start] + Staged(localOut) == stream
      modifies this`localOut, this`stagedBytes, dst
      ensures Valid() && start <= copied <= size && (copied < size ==> localOut == [])
      ensures dst[size..] == old(dst[size..])
      ensures dst[..copied] + Staged(localOut) == stream
    {
      hide Staged;
      copied := start;
      ghost var after := dst[size..];
      while localOut != [] && copied < size
        invariant Valid() && start <= copied <= size
        invariant dst[size..] == after
        invariant dst[..copied] + Staged(localOut) == stream
        decreases size - copied
      {
        copied := TakeFront(dst, copied, size, stream);
      }
    }

    /** One turn of rpc_http2_read: what is staged, then one receive call if need be. */
    method ReadSome(dst: array<byte>, start: nat, size: nat, ghost stream: seq<byte>) returns (ok: bool, copied: nat)
      requires Valid() && readRemaining == 0 && start < size <= dst.Length && dst[..start] + Unread() == stream
      modifies this, dst
      ensures Valid() && readRemaining == 0 && start <= copied <= size
      ensures dst[size..] == old(dst[size..])
      ensures if ok then dst[..copied] + Unread() == stream else |stream| < size
      ensures ok ==> |network| < |old(network)| || (network == old(network) && copied == size)
    {
      Associate(dst[..start], Staged(localOut), Coming(network, rejected));
      copied := TakeStaged(dst, start, size, dst[..start] + Staged(localOut));
      Associate(dst[..copied], Staged(localOut), Coming(network, rejected));
      ok := true;
      if copied < size {
        if rejected {
          return false, copied;
        }
        ghost var was, unread, from := dst[..copied], Coming(network, false), copied;
        var direct;
        ok, direct := ReadFromNet(dst, copied, size - copied);
        copied := copied + direct;
        if ok {
          assert dst[..copied] == was + dst[from..copied];
          Slide(was, dst[from..copied], Unread(), unread, stream);
        }
      }
    }

    /** rpc_http2_read: the next `size` bytes of the stream, whatever receive calls, frames
        and reads they were cut into; or a failure if the stream ends, breaks or is rejected
        before. */
    method Read(dst: array<byte>, size: nat) returns (ok: bool)
      requires Valid() && readRemaining == 0 && size <= dst.Length
      modifies this, dst
      ensures Valid() && readRemaining == 0
      ensures ok <==> size <= |old(Unread())|
      ensures ok ==> dst[..size] == old(Unread())[..size] && Unread() == old(Unread())[size..]
      ensures dst[size..] == old(dst[size..])
    {
      var copied: nat := 0;
      ghost var stream, after := Unread(), dst[size..];
      assert dst[..0] + stream == stream;
      while copied < size
        invariant Valid() && readRemaining == 0 && copied <= size
        invariant dst[size..] == after
        invariant dst[..copied] + Unread() == stream
        decreases |network|, size - copied
      {
        ok, copied := ReadSome(dst, copied, size, stream);
        if !ok {
          return;
        }
      }
      ok := true;
      assert stream[..size] == dst[..size];
    }
  }

  /** CopyInto, seen from before and from the end of the read. */
  method CopyPiece(dst: array<byte>, at: nat, data: seq<byte>, size: nat)
    requires at + |data| <= size <= dst.Length
    modifies dst
    ensures dst[..at + |data|] == old(dst[..at]) + data
    ensures dst[size..] == old(dst[size..])
  {
    ghost var rest := dst[at + |data|..];
    ghost var after := dst[size..];
    assert after == rest[size - at - |data|..];
    CopyInto(dst, at, data);
    assert dst[size..] == dst[at + |data|..][size - at - |data|..];
    assert dst[..at + |data|] == dst[..at] + dst[at..at + |data|];
  }

  method CopyInto(dst: array<byte>, at: nat, data: seq<byte>)
    requires at + |data| <= dst.Length
    modifies dst
    ensures dst[at..at + |data|] == data
    ensures dst[..at] == old(dst[..at]) && dst[at + |data|..] == old(dst[at + |data|..])
  {
    for k := 0 to |data|
      invariant dst[at..at + k] == data[..k]
      invariant dst[..at] == old(dst[..at]) && dst[at + |data|..] == old(dst[at + |data|..])
    {
      dst[at + k] := data[k];
    }
  }
}
