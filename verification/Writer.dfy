/** The HTTP/2 data source: cursors over caller bytes and lazily encoded payloads,
    pulled by the session in frames of whatever size flow control allows.

    Plain entries are sent from the caller's memory. Of framed entries at most one block
    exists in encoded form, in the scratch buffer that all of them share. */
module Writer {
  import opened Payload

  /** Where a cursor's ready bytes live: in the caller's buffer, of which `bytes` is
      the unsent suffix, or in the shared scratch buffer. */
  datatype View = Caller(bytes: seq<byte>) | Scratch(offset: nat)

  /** `len` bytes at `base` are ready to send; `src` still has to be encoded. */
  datatype Cursor = Cursor(base: View, len: nat, src: seq<byte>) {
    ghost predicate Ok(scratch: seq<byte>) {
      match base
      case Caller(bytes) => len == |bytes|
      case Scratch(offset) => len == 0 || offset + len <= |scratch|
    }

    /** A live view of the scratch buffer. */
    predicate LiveScratch() { base.Scratch? && len != 0 }

    ghost function Ready(scratch: seq<byte>): (r: seq<byte>)
      requires Ok(scratch)
      ensures |r| == len
    {
      match base
      case Caller(bytes) => bytes
      case Scratch(offset) => if len == 0 then [] else scratch[offset..offset + len]
    }
  }

  /** A DATA frame, with the end-of-data flag its read callback raised. */
  datatype Frame = Frame(data: seq<byte>, eof: bool)

  datatype Entry = Entry(bytes: seq<byte>, framed: bool)

  ghost predicate AllOk(cs: seq<Cursor>, scratch: seq<byte>) {
    forall i :: 0 <= i < |cs| ==> cs[i].Ok(scratch)
  }

  ghost predicate NoScratch(cs: seq<Cursor>) {
    forall i :: 0 <= i < |cs| ==> !cs[i].LiveScratch()
  }

  /** Everything the cursors still owe the peer. */
  ghost function Owed(f: Framing, cs: seq<Cursor>, scratch: seq<byte>): seq<byte>
    requires AllOk(cs, scratch)
  {
    if cs == [] then []
    else cs[0].Ready(scratch) + Encode(f, cs[0].src) + Owed(f, cs[1..], scratch)
  }

  /** Bytes that can be offered without encoding another block. */
  ghost function Available(cs: seq<Cursor>): nat {
    if cs == [] then 0
    else if cs[0].src != [] then cs[0].len
    else cs[0].len + Available(cs[1..])
  }

  ghost predicate Lazy(cs: seq<Cursor>) {
    exists i :: 0 <= i < |cs| && cs[i].src != []
  }

  function SourceTotal(cs: seq<Cursor>): nat {
    if cs == [] then 0 else |cs[0].src| + SourceTotal(cs[1..])
  }

  function ReadyTotal(cs: seq<Cursor>): nat {
    if cs == [] then 0 else cs[0].len + ReadyTotal(cs[1..])
  }

  /** What a list of entries must look like on the wire. */
  ghost function Wire(f: Framing, entries: seq<Entry>): seq<byte> {
    if entries == [] then []
    else (if entries[0].framed then Encode(f, entries[0].bytes) else entries[0].bytes) + Wire(f, entries[1..])
  }

  // ----------------------------------------------------------------- lemmas

  /** Overwriting the scratch buffer is harmless to cursors without a live view of it. */
  lemma {:induction false} OwedIgnoresScratch(f: Framing, cs: seq<Cursor>, before: seq<byte>, after: seq<byte>)
    requires AllOk(cs, before) && AllOk(cs, after)
    requires NoScratch(cs)
    ensures Owed(f, cs, before) == Owed(f, cs, after)
  {
    if cs != [] {
      assert !cs[0].LiveScratch();
      assert cs[0].Ready(before) == cs[0].Ready(after);
      OwedIgnoresScratch(f, cs[1..], before, after);
    }
  }

  lemma EncodeNonEmpty(f: Framing, payload: seq<byte>)
    requires f.Lawful()
    requires payload != []
    ensures 0 < |Encode(f, payload)|
  {
    var block := payload[..Min(BLOCK_BYTES, |payload|)];
    var trigger := f.encode(block) + [];
    assert 0 < |f.encode(block)|;
  }

  /** The offered bytes are a prefix of what is owed, and all of it exactly when no
      source is left to encode. */
  lemma {:induction false} AvailableOfOwed(f: Framing, cs: seq<Cursor>, scratch: seq<byte>)
    requires f.Lawful()
    requires AllOk(cs, scratch)
    ensures Available(cs) <= |Owed(f, cs, scratch)|
    ensures Available(cs) == |Owed(f, cs, scratch)| <==> !Lazy(cs)
  {
    if cs == [] {
    } else {
      AvailableOfOwed(f, cs[1..], scratch);
      if cs[0].src != [] {
        EncodeNonEmpty(f, cs[0].src);
      } else {
        LazyTail(cs);
      }
    }
  }

  lemma OwedHead(f: Framing, cs: seq<Cursor>, scratch: seq<byte>)
    requires cs != []
    requires AllOk(cs, scratch)
    ensures AllOk(cs[1..], scratch)
    ensures Owed(f, cs, scratch) == cs[0].Ready(scratch) + (Encode(f, cs[0].src) + Owed(f, cs[1..], scratch))
    ensures cs[0].src == [] ==> Owed(f, cs, scratch) == cs[0].Ready(scratch) + Owed(f, cs[1..], scratch)
  {
  }

  /** Encoding one block of the head cursor moves bytes from `src` to `base`. */
  lemma OwedMaterialize(f: Framing, cs: seq<Cursor>, scratch: seq<byte>, after: seq<Cursor>)
    requires AllOk(cs, scratch) && cs != [] && cs[0].len == 0 && cs[0].src != []
    requires NoScratch(cs[1..])
    requires var raw := Min(BLOCK_BYTES, |cs[0].src|); var block := f.encode(cs[0].src[..raw]);
      after == [Cursor(Scratch(0), |block|, cs[0].src[raw..])] + cs[1..]
    requires AllOk(after, f.encode(cs[0].src[..Min(BLOCK_BYTES, |cs[0].src|)]))
    ensures Owed(f, after, f.encode(cs[0].src[..Min(BLOCK_BYTES, |cs[0].src|)])) == Owed(f, cs, scratch)
  {
    var raw := Min(BLOCK_BYTES, |cs[0].src|);
    var block := f.encode(cs[0].src[..raw]);
    assert after[1..] == cs[1..];
    assert AllOk(cs[1..], scratch) && AllOk(after[1..], block);
    OwedIgnoresScratch(f, cs[1..], scratch, block);
    assert cs[0].Ready(scratch) == [];
    assert after[0].Ready(block) == block;
    assert Encode(f, cs[0].src) == block + Encode(f, cs[0].src[raw..]);
  }

  /** Dropping `chunk` ready bytes of the head cursor drops them from what is owed. */
  lemma OwedConsume(f: Framing, cs: seq<Cursor>, scratch: seq<byte>, moved: Cursor, chunk: nat)
    requires cs != [] && AllOk(cs, scratch) && chunk <= cs[0].len
    requires moved.len == cs[0].len - chunk && moved.src == cs[0].src
    requires match cs[0].base
             case Caller(bytes) => moved.base == Caller(bytes[chunk..])
             case Scratch(offset) => moved.base == Scratch(offset + chunk)
    ensures AllOk([moved] + cs[1..], scratch)
    ensures chunk <= |Owed(f, cs, scratch)|
    ensures Owed(f, [moved] + cs[1..], scratch) == Owed(f, cs, scratch)[chunk..]
  {
    var after := [moved] + cs[1..];
    assert after[1..] == cs[1..];
    assert AllOk(after, scratch) by {
      assert cs[0].Ok(scratch);
    }
    OwedHead(f, cs, scratch);
    OwedHead(f, after, scratch);
    assert moved.Ready(scratch) == cs[0].Ready(scratch)[chunk..];
    DropPrefix(cs[0].Ready(scratch), Encode(f, cs[0].src) + Owed(f, cs[1..], scratch), chunk);
  }

  lemma DropPrefix(a: seq<byte>, b: seq<byte>, k: nat)
    requires k <= |a|
    ensures (a + b)[k..] == a[k..] + b
  {
  }

  lemma DropTwice(a: seq<byte>, j: nat, k: nat)
    requires j + k <= |a|
    ensures a[j..][k..] == a[j + k..]
  {
  }

  lemma GatherStep(data: seq<byte>, ready: seq<byte>, chunk: nat, whole: seq<byte>, next: seq<byte>)
    requires whole == data + (ready + next)
    requires chunk <= |ready|
    ensures data + ready[..chunk] <= whole
    ensures chunk == |ready| ==> whole == data + ready[..chunk] + next
  {
    assert whole == data + ready + next;
    assert (data + ready[..chunk]) == whole[..|data| + chunk];
  }

  lemma TotalsHead(cs: seq<Cursor>)
    requires cs != []
    ensures SourceTotal(cs) == |cs[0].src| + SourceTotal(cs[1..])
    ensures ReadyTotal(cs) == cs[0].len + ReadyTotal(cs[1..])
  {
  }

  // --------------------------------------------------------- the data source

  class Source {
    const f: Framing
    var cursors: seq<Cursor>
    var index: nat
    var pendingLen: nat
    var scratch: seq<byte>

    ghost predicate Valid()
      reads this
    {
      && f.Lawful()
      && index <= |cursors|
      && AllOk(cursors[index..], scratch)
      // at most one live view of the scratch buffer: the current cursor's
      && (index < |cursors| ==> NoScratch(cursors[index + 1..]))
    }

    ghost function Rest(): seq<Cursor>
      requires index <= |cursors|
      reads this
    {
      cursors[index..]
    }

    /** The bytes not yet handed to the socket. */
    ghost function Unsent(): seq<byte>
      requires Valid()
      reads this
    {
      Owed(f, Rest(), scratch)
    }

    /** rpc_http2_writev, lines that build the cursor list. */
    constructor (f: Framing, entries: seq<Entry>)
      requires f.Lawful()
      ensures Valid() && index == 0 && pendingLen == 0
      ensures this.f == f
      ensures Unsent() == Wire(f, entries)
      ensures NoScratch(cursors)
    {
      this.f := f;
      var cs: seq<Cursor> := [];
      var i := |entries|;
      while 0 < i
        invariant 0 <= i <= |entries|
        invariant AllOk(cs, []) && NoScratch(cs)
        invariant Owed(f, cs, []) == Wire(f, entries[i..])
      {
        i := i - 1;
        assert entries[i..][1..] == entries[i + 1..];
        var e := entries[i];
        if e.bytes == [] {
          // empty entries get no cursor
        } else if e.framed {
          cs := [Cursor(Scratch(0), 0, e.bytes)] + cs;
        } else {
          cs := [Cursor(Caller(e.bytes), |e.bytes|, [])] + cs;
        }
      }
      assert entries[0..] == entries;
      cursors, index, pendingLen, scratch := cs, 0, 0, [];
      new;
      assert cursors[0..] == cs;
    }

    /** h2_materialize_block on the current cursor. */
    method MaterializeBlock()
      requires Valid()
      requires index < |cursors| && cursors[index].len == 0 && cursors[index].src != []
      modifies this`cursors, this`scratch
      ensures Valid()
      ensures Unsent() == old(Unsent())
      ensures |cursors| == |old(cursors)|
      ensures cursors[index].len != 0
      ensures SourceTotal(Rest()) < old(SourceTotal(Rest()))
    {
      var c := cursors[index];
      var raw := Min(BLOCK_BYTES, |c.src|);
      var block := f.encode(c.src[..raw]);
      assert 0 < |block| by {
        var trigger := f.encode(c.src[..raw]) + [];
      }
      ghost var rest := Rest();
      scratch := block;
      cursors := cursors[index := Cursor(Scratch(0), |block|, c.src[raw..])];
      assert Rest()[1..] == rest[1..] == cursors[index + 1..] == old(cursors)[index + 1..];
      assert Rest() == [cursors[index]] + rest[1..];
      OwedMaterialize(f, rest, old(scratch), Rest());
      TotalsHead(rest);
      TotalsHead(Rest());
    }

    /** The head of h2_data_source_read_callback: step over spent cursors. */
    method SkipSpent()
      requires Valid()
      modifies this`index
      ensures Valid()
      ensures Unsent() == old(Unsent())
      ensures SourceTotal(Rest()) == old(SourceTotal(Rest())) && ReadyTotal(Rest()) == old(ReadyTotal(Rest()))
      ensures index < |cursors| ==> cursors[index].len != 0 || cursors[index].src != []
    {
      while index < |cursors| && cursors[index].len == 0 && cursors[index].src == []
        invariant Valid()
        invariant Unsent() == old(Unsent())
        invariant SourceTotal(Rest()) == old(SourceTotal(Rest())) && ReadyTotal(Rest()) == old(ReadyTotal(Rest()))
        decreases |cursors| - index
      {
        Advance();
      }
    }

    /** Leaving a spent cursor behind. */
    method Advance()
      requires Valid()
      requires index < |cursors| && cursors[index].len == 0 && cursors[index].src == []
      modifies this`index
      ensures Valid() && index == old(index) + 1
      ensures Unsent() == old(Unsent())
      ensures SourceTotal(Rest()) == old(SourceTotal(Rest())) && ReadyTotal(Rest()) == old(ReadyTotal(Rest()))
      ensures old(Rest())[1..] == Rest()
    {
      ghost var rest := Rest();
      OwedHead(f, rest, scratch);
      index := index + 1;
      assert Rest() == rest[1..];
      assert index < |cursors| ==> cursors[index + 1..] == rest[1..][1..];
    }

    /** How many bytes can be offered at once: those of the cursors from `index` on, up to
        and including the first that has source left to encode. */
    method ScanAvailable() returns (available: nat, lazyPending: bool)
      requires index <= |cursors|
      ensures available == Available(Rest())
      ensures lazyPending <==> Lazy(Rest())
    {
      available, lazyPending := 0, false;
      var i := index;
      while i < |cursors|
        invariant index <= i <= |cursors|
        invariant available + Available(cursors[i..]) == Available(Rest())
        invariant Lazy(Rest()) <==> Lazy(cursors[i..])
      {
        ghost var tail := cursors[i..];
        available := available + cursors[i].len;
        if cursors[i].src != [] {
          assert tail[0].src != [];
          return available, true;
        }
        assert tail[1..] == cursors[i + 1..];
        LazyTail(tail);
        i := i + 1;
      }
    }

    /** h2_data_source_read_callback: how many bytes the next DATA frame carries, and
        whether it is the last. */
    method ReadCallback(length: nat) returns (chunk: nat, eof: bool)
      requires Valid()
      modifies this
      ensures Valid()
      ensures Unsent() == old(Unsent())
      ensures chunk <= length && chunk <= Available(Rest()) && pendingLen == chunk
      ensures 0 < length && Unsent() != [] ==> 0 < chunk
      ensures eof <==> chunk == |Unsent()|
      // materialising may raise what is ready, but only by consuming source
      ensures || SourceTotal(Rest()) < old(SourceTotal(Rest()))
              || (SourceTotal(Rest()) == old(SourceTotal(Rest())) && ReadyTotal(Rest()) == old(ReadyTotal(Rest())))
    {
      SkipSpent();
      if index == |cursors| {
        pendingLen := 0;
        return 0, true;
      }
      if cursors[index].len == 0 {
        MaterializeBlock();
      }
      var available, lazyPending := ScanAvailable();
      chunk := Min(available, length);
      AvailableOfOwed(f, Rest(), scratch);
      eof := chunk == available && !lazyPending;
      pendingLen := chunk;
    }

    /** The first pass of h2_send_data_callback: gather the frame's bytes without
        moving any cursor. `remaining` is what the cursors could not supply. */
    method Gather(length: nat) returns (data: seq<byte>, remaining: nat)
      requires Valid()
      requires length <= Available(Rest())
      ensures remaining == 0
      ensures length <= |Unsent()|
      ensures data == Unsent()[..length]
    {
      hide Owed, Encode, SourceTotal, ReadyTotal, Framing.Lawful;
      AvailableOfOwed(f, Rest(), scratch);
      data, remaining := [], length;
      var i := index;
      while 0 < remaining && i < |cursors|
        invariant index <= i <= |cursors|
        invariant 0 <= remaining <= length
        invariant AllOk(cursors[i..], scratch)
        invariant 0 < remaining ==> remaining <= Available(cursors[i..])
        invariant 0 < remaining ==> Unsent() == data + Owed(f, cursors[i..], scratch)
        invariant |data| == length - remaining && data <= Unsent()
        decreases |cursors| - i
      {
        ghost var tail := cursors[i..];
        OwedHead(f, tail, scratch);
        assert tail[1..] == cursors[i + 1..];
        var chunk := Min(remaining, cursors[i].len);
        GatherStep(data, tail[0].Ready(scratch), chunk, Unsent(),
          if tail[0].src == [] then Owed(f, tail[1..], scratch)
          else Encode(f, tail[0].src) + Owed(f, tail[1..], scratch));
        var piece := ReadView(cursors[i], chunk);
        data := data + piece;
        remaining := remaining - chunk;
        i := i + 1;
      }
    }

    /** The first `n` ready bytes of a cursor, as the socket would read them. */
    method ReadView(c: Cursor, n: nat) returns (data: seq<byte>)
      requires c.Ok(scratch) && n <= c.len
      ensures data == c.Ready(scratch)[..n]
    {
      if n == 0 {
        return [];
      }
      match c.base {
        case Caller(bytes) => data := bytes[..n];
        case Scratch(offset) => data := scratch[offset..offset + n];
      }
    }

    /** Moving the current cursor past `chunk` bytes that were written. */
    method ConsumeHead(chunk: nat)
      requires Valid()
      requires index < |cursors| && chunk <= cursors[index].len
      modifies this`cursors
      ensures Valid() && |cursors| == |old(cursors)|
      ensures cursors[index] == Cursor(cursors[index].base, old(cursors[index].len) - chunk, old(cursors[index].src))
      ensures Rest()[1..] == old(Rest())[1..]
      ensures chunk <= |old(Unsent())| && Unsent() == old(Unsent())[chunk..]
      ensures SourceTotal(Rest()) == old(SourceTotal(Rest()))
      ensures ReadyTotal(Rest()) == old(ReadyTotal(Rest())) - chunk
    {
      hide Owed, Encode, SourceTotal, ReadyTotal, Framing.Lawful;
      ghost var rest := Rest();
      var c := cursors[index];
      var base := match c.base
        case Caller(bytes) => Caller(bytes[chunk..])
        case Scratch(offset) => Scratch(offset + chunk);
      var moved := Cursor(base, c.len - chunk, c.src);
      cursors := cursors[index := moved];
      assert Rest()[1..] == rest[1..] == cursors[index + 1..] == old(cursors)[index + 1..];
      assert Rest() == [moved] + rest[1..];
      OwedConsume(f, rest, scratch, moved, chunk);
      TotalsHead(rest);
      TotalsHead(Rest());
    }

    /** One turn of the second pass of h2_send_data_callback. */
    method AdvanceHead(remaining: nat) returns (left: nat)
      requires Valid()
      requires 0 < remaining <= Available(Rest())
      modifies this`cursors, this`index
      ensures Valid() && |cursors| == |old(cursors)|
      ensures left <= remaining && left <= Available(Rest())
      ensures remaining - left <= |old(Unsent())| && Unsent() == old(Unsent())[remaining - left..]
      ensures SourceTotal(Rest()) == old(SourceTotal(Rest()))
      ensures ReadyTotal(Rest()) == old(ReadyTotal(Rest())) - (remaining - left)
      ensures index > old(index) || (index == old(index) && left == 0)
    {
      hide Owed, Encode, SourceTotal, ReadyTotal, Framing.Lawful;
      ghost var rest := Rest();
      var chunk := Min(remaining, cursors[index].len);
      assert chunk == remaining || cursors[index].src == [];
      ConsumeHead(chunk);
      left := remaining - chunk;
      if cursors[index].len != 0 || cursors[index].src != [] {
        // the frame ended inside this cursor, or its next block is not encoded yet
        return;
      }
      assert left <= Available(rest[1..]);
      Advance();
    }

    /** h2_send_data_callback: `sent` is what reached the socket. */
    method SendCallback(length: nat) returns (ok: bool, sent: seq<byte>)
      requires Valid()
      requires pendingLen <= Available(Rest())
      modifies this
      ensures Valid()
      ensures ok <==> length == old(pendingLen)
      ensures !ok ==> sent == [] && Unsent() == old(Unsent())
      ensures ok ==> sent + Unsent() == old(Unsent()) && |sent| == length
      ensures SourceTotal(Rest()) == old(SourceTotal(Rest()))
      ensures ReadyTotal(Rest()) == old(ReadyTotal(Rest())) - |sent|
    {
      hide Owed, Encode, SourceTotal, ReadyTotal, Framing.Lawful;
      if length != pendingLen {
        return false, [];
      }
      var remaining: nat;
      sent, remaining := Gather(length);
      assert remaining == 0;  // the source's "cursors ran out" failure cannot happen
      remaining := length;
      while 0 < remaining
        invariant Valid()
        invariant 0 <= remaining <= length <= |old(Unsent())|
        invariant remaining <= Available(Rest())
        invariant Unsent() == old(Unsent())[length - remaining..]
        invariant SourceTotal(Rest()) == old(SourceTotal(Rest()))
        invariant ReadyTotal(Rest()) == old(ReadyTotal(Rest())) - (length - remaining)
        decreases |cursors| - index, remaining
      {
        var left := AdvanceHead(remaining);
        DropTwice(old(Unsent()), length - remaining, remaining - left);
        remaining := left;
      }
      pendingLen := 0;
      ok := true;
    }

    /** One turn of the session's send loop: ask how much to send, then send it. */
    method SendFrame(limit: nat) returns (frame: Frame)
      requires Valid() && Unsent() != []
      requires 1 <= limit
      modifies this
      ensures Valid()
      ensures 0 < |frame.data| <= limit
      ensures frame.data + Unsent() == old(Unsent())
      ensures frame.eof <==> Unsent() == []
      ensures || SourceTotal(Rest()) < old(SourceTotal(Rest()))
              || (SourceTotal(Rest()) == old(SourceTotal(Rest())) && ReadyTotal(Rest()) < old(ReadyTotal(Rest())))
    {
      hide Owed, Encode, SourceTotal, ReadyTotal, Framing.Lawful, AllOk, Available;
      var chunk, eof := ReadCallback(limit);
      var ok, sent := SendCallback(chunk);
      assert ok;  // the source's length-mismatch failure cannot happen
      frame := Frame(sent, eof);
    }

    /** h2_write_source::remaining. */
    function Remaining(): nat
      requires index <= |cursors|
      reads this
    {
      SourceTotal(cursors[index..]) + ReadyTotal(cursors[index..])
    }
  }

  /** remaining() is zero exactly when nothing is owed. */
  lemma {:induction false} RemainingZero(f: Framing, cs: seq<Cursor>, scratch: seq<byte>)
    requires f.Lawful()
    requires AllOk(cs, scratch)
    ensures SourceTotal(cs) + ReadyTotal(cs) == 0 <==> Owed(f, cs, scratch) == []
  {
    if cs != [] {
      RemainingZero(f, cs[1..], scratch);
      if cs[0].src != [] {
        EncodeNonEmpty(f, cs[0].src);
      }
    }
  }

  ghost function Stream(frames: seq<Frame>): seq<byte> {
    if frames == [] then [] else Stream(frames[..|frames| - 1]) + frames[|frames| - 1].data
  }

  lemma StreamEmpty()
    ensures Stream([]) == []
  {
  }

  lemma StreamAppend(frames: seq<Frame>, frame: Frame, tail: seq<byte>)
    ensures Stream(frames + [frame]) + tail == Stream(frames) + (frame.data + tail)
  {
    var all := frames + [frame];
    assert all[..|all| - 1] == frames;
    assert Stream(all) == Stream(frames) + frame.data;
  }

  /** rpc_http2_writev under a session that grants frame i at most limits(i) bytes. The
      socket may fail at any time, at the very end too, and then may have taken a part of
      the frame at hand. However the frames fall, what was taken and what was not are the
      entries' wire image, every frame carries something, and the frame that ends the image
      is the only one marked end-of-data. Success means that everything was taken. */
  method Writev(f: Framing, entries: seq<Entry>, limits: nat -> nat)
    returns (ok: bool, frames: seq<Frame>, ghost partial: seq<byte>, ghost unsent: seq<byte>)
    requires f.Lawful()
    requires forall i: nat :: 1 <= limits(i)
    ensures Stream(frames) + (partial + unsent) == Wire(f, entries)
    ensures ok ==> partial == [] && unsent == []
    ensures Wire(f, entries) == [] ==> ok && frames == []
    ensures |partial| <= limits(|frames|)
    ensures forall i :: 0 <= i < |frames| ==> 0 < |frames[i].data| <= limits(i)
    ensures forall i :: 0 <= i < |frames| ==> (frames[i].eof <==> i == |frames| - 1 && partial + unsent == [])
  {
    hide Owed, Encode, SourceTotal, ReadyTotal, Framing.Lawful, Wire, AllOk, Available, Stream;
    assert Stream([]) == [] by { StreamEmpty(); }
    var source := new Source(f, entries);
    frames, partial, unsent := [], [], [];
    while source.Remaining() != 0
      invariant source.Valid() && source.f == f
      invariant Stream(frames) + source.Unsent() == Wire(f, entries)
      invariant forall i :: 0 <= i < |frames| ==> 0 < |frames[i].data| <= limits(i)
      invariant forall i :: 0 <= i < |frames| - 1 ==> !frames[i].eof
      invariant frames != [] ==> Wire(f, entries) != []
      invariant frames != [] ==> (frames[|frames| - 1].eof <==> source.Unsent() == [])
      decreases SourceTotal(source.Rest()), ReadyTotal(source.Rest())
    {
      RemainingZero(f, source.Rest(), source.scratch);
      ghost var earlier := frames;
      var frame := source.SendFrame(limits(|frames|));
      StreamAppend(earlier, frame, source.Unsent());
      ok := *;
      if !ok {
        var taken: nat :| taken <= |frame.data|;
        partial, unsent := frame.data[..taken], frame.data[taken..] + source.Unsent();
        assert partial + unsent == frame.data + source.Unsent();
        return;
      }
      frames := frames + [frame];
    }
    RemainingZero(f, source.Rest(), source.scratch);
    ok := *;
    if frames == [] {
      ok := true;
    }
  }

  lemma LazyTail(cs: seq<Cursor>)
    requires cs != [] && cs[0].src == []
    ensures Lazy(cs) <==> Lazy(cs[1..])
  {
    if Lazy(cs) {
      var i :| 0 <= i < |cs| && cs[i].src != [];
      assert cs[1..][i - 1].src != [];
    }
    if Lazy(cs[1..]) {
      var i :| 0 <= i < |cs[1..]| && cs[1..][i].src != [];
      assert cs[i + 1].src != [];
    }
  }
}
