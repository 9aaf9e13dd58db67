/** Bulk payloads on the wire: what the sender makes of one, the reader's loop and the
    drain's. A payload goes out in pieces of BLOCK_BYTES, the last one shorter, each behind
    a number of TOKEN_BYTES bytes that says what follows: the size the piece was compressed
    to, or zero for the piece as it is. The reader counts along and knows the size of every
    piece beforehand. */
module Payload {

  newtype byte = x: int | 0 <= x < 256

  datatype Option<+T> = None | Some(value: T)

  const BLOCK_BYTES: nat := 4 * 1024 * 1024
  const TOKEN_BYTES: nat := 4
  const COMPRESS_MIN_BYTES: nat := 64 * 1024

  function Min(a: nat, b: nat): nat { if a < b then a else b }

  predicate PayloadFramed(negotiated: bool, total: nat) {
    COMPRESS_MIN_BYTES <= total && negotiated
  }

  // ------------------------------------------------------------- one block

  /** The block compressor is outside the model. `compress` yields None where the
      library reports failure; `decompress` gets the capacity of its destination. */
  datatype Codec = Codec(compress: seq<byte> -> Option<seq<byte>>,
                         decompress: (seq<byte>, nat) -> Option<seq<byte>>,
                         bound: nat -> nat)
  {
    /** What the model takes from the compression library. */
    ghost predicate Lawful() {
      && (forall n: nat :: n <= bound(n))
      && (forall s: seq<byte> :: compress(s).Some? ==> decompress(compress(s).value, |s|) == Some(s))
    }
  }

  /** The `width` low bytes of a number, least significant first. */
  function LittleEndian(value: nat, width: nat): (b: seq<byte>)
    ensures |b| == width
    decreases width
  {
    if width == 0 then [] else [(value % 0x100) as byte] + LittleEndian(value / 0x100, width - 1)
  }

  function LittleEndianValue(b: seq<byte>): nat {
    if b == [] then 0 else b[0] as nat + 0x100 * LittleEndianValue(b[1..])
  }

  predicate Fits(value: nat, width: nat)
    decreases width
  {
    if width == 0 then value == 0 else Fits(value / 0x100, width - 1)
  }

  lemma {:induction false} LittleEndianRoundTrip(value: nat, width: nat)
    requires Fits(value, width)
    ensures LittleEndianValue(LittleEndian(value, width)) == value
    decreases width
  {
    if width != 0 {
      LittleEndianRoundTrip(value / 0x100, width - 1);
      assert LittleEndian(value, width)[1..] == LittleEndian(value / 0x100, width - 1);
    }
  }

  lemma BlockFits(value: nat)
    requires value <= BLOCK_BYTES
    ensures Fits(value, TOKEN_BYTES)
  {
    assert value / 0x100 <= 0x4000;
    assert value / 0x100 / 0x100 <= 0x40;
    assert value / 0x100 / 0x100 / 0x100 == 0;
    assert Fits(value / 0x100 / 0x100 / 0x100, 1);
    assert Fits(value / 0x100 / 0x100, 2);
    assert Fits(value / 0x100, 3);
  }

  /** The token the writer chooses: the compressed size when compression shrank the
      block, zero otherwise. */
  function BlockToken(codec: Codec, block: seq<byte>): (token: nat)
    ensures token == 0 || token < |block|
  {
    match codec.compress(block)
    case Some(c) => if 0 < |c| < |block| then |c| else 0
    case None => 0
  }

  function EncodeBlock(codec: Codec, block: seq<byte>): seq<byte> {
    var token := BlockToken(codec, block);
    LittleEndian(token, TOKEN_BYTES) + if token == 0 then block else codec.compress(block).value
  }

  /** Bad covers a short stream, an oversized token and a failed decompression. */
  datatype Parsed = Bad | Got(data: seq<byte>, rest: seq<byte>)

  function ParseBlock(codec: Codec, wire: seq<byte>, raw: nat): Parsed {
    if |wire| < TOKEN_BYTES then Bad
    else
      var token := LittleEndianValue(wire[..TOKEN_BYTES]);
      var body := wire[TOKEN_BYTES..];
      if token == 0 then
        if |body| < raw then Bad else Got(body[..raw], body[raw..])
      else if codec.bound(raw) < token || |body| < token then Bad
      else
        match codec.decompress(body[..token], raw)
        case Some(data) => if |data| == raw then Got(data, body[token..]) else Bad
        case None => Bad
  }

  function SkipBlock(codec: Codec, wire: seq<byte>, raw: nat): Option<seq<byte>> {
    if |wire| < TOKEN_BYTES then None
    else
      var token := LittleEndianValue(wire[..TOKEN_BYTES]);
      var body := wire[TOKEN_BYTES..];
      if token == 0 then
        if |body| < raw then None else Some(body[raw..])
      else if codec.bound(raw) < token || |body| < token then None
      else Some(body[token..])
  }

  /** The token written for a block always passes the reader's bound check, the reader
      returns the block, and the drain stops at the same place. */
  lemma BlockRoundTrip(codec: Codec, block: seq<byte>, tail: seq<byte>)
    requires codec.Lawful()
    requires |block| <= BLOCK_BYTES
    ensures ParseBlock(codec, EncodeBlock(codec, block) + tail, |block|) == Got(block, tail)
    ensures SkipBlock(codec, EncodeBlock(codec, block) + tail, |block|) == Some(tail)
  {
    var token := BlockToken(codec, block);
    var head := LittleEndian(token, TOKEN_BYTES);
    var body := if token == 0 then block else codec.compress(block).value;
    var wire := EncodeBlock(codec, block) + tail;
    BlockFits(token);
    LittleEndianRoundTrip(token, TOKEN_BYTES);
    assert wire[..TOKEN_BYTES] == head && wire[TOKEN_BYTES..] == body + tail;
    assert (body + tail)[..|body|] == body && (body + tail)[|body|..] == tail;
  }

  // ---------------------------------------------------------- whole payloads

  /** How one block is written, parsed and skipped. */
  datatype Framing = Framing(encode: seq<byte> -> seq<byte>,
                             parse: (seq<byte>, nat) -> Parsed,
                             skip: (seq<byte>, nat) -> Option<seq<byte>>)
  {
    ghost predicate Lawful() {
      forall block: seq<byte>, tail: seq<byte> {:trigger encode(block) + tail} :: 0 < |block| <= BLOCK_BYTES ==>
        && parse(encode(block) + tail, |block|) == Got(block, tail)
        && skip(encode(block) + tail, |block|) == Some(tail)
        && 0 < |encode(block)|
    }
  }

  function BlockFraming(codec: Codec): Framing {
    Framing(block => EncodeBlock(codec, block),
            (wire, raw: nat) => ParseBlock(codec, wire, raw),
            (wire, raw: nat) => SkipBlock(codec, wire, raw))
  }

  lemma BlockFramingLawful(codec: Codec)
    requires codec.Lawful()
    ensures BlockFraming(codec).Lawful()
  {
    var f := BlockFraming(codec);
    forall block: seq<byte>, tail: seq<byte> {:trigger f.encode(block) + tail} | 0 < |block| <= BLOCK_BYTES
      ensures f.parse(f.encode(block) + tail, |block|) == Got(block, tail)
      ensures f.skip(f.encode(block) + tail, |block|) == Some(tail)
      ensures 0 < |f.encode(block)|
    {
      BlockRoundTrip(codec, block, tail);
    }
  }

  /** The writer's schedule: full blocks, then whatever is left. */
  function Encode(f: Framing, payload: seq<byte>): seq<byte> {
    if payload == [] then []
    else
      var raw := Min(BLOCK_BYTES, |payload|);
      f.encode(payload[..raw]) + Encode(f, payload[raw..])
  }

  function Prepend(data: seq<byte>, p: Parsed): Parsed {
    match p
    case Bad => Bad
    case Got(tail, end) => Got(data + tail, end)
  }

  lemma PrependTwice(a: seq<byte>, b: seq<byte>, p: Parsed)
    ensures Prepend(a, Prepend(b, p)) == Prepend(a + b, p)
  {
    if p.Got? {
      assert a + (b + p.data) == a + b + p.data;
    }
  }

  function Parse(f: Framing, wire: seq<byte>, size: nat): Parsed
    decreases size
  {
    if size == 0 then Got([], wire)
    else
      var raw := Min(BLOCK_BYTES, size);
      match f.parse(wire, raw)
      case Bad => Bad
      case Got(block, rest) => Prepend(block, Parse(f, rest, size - raw))
  }

  function Skip(f: Framing, wire: seq<byte>, size: nat): Option<seq<byte>>
    decreases size
  {
    if size == 0 then Some(wire)
    else
      var raw := Min(BLOCK_BYTES, size);
      match f.skip(wire, raw)
      case None => None
      case Some(rest) => Skip(f, rest, size - raw)
  }

  // --------------------------------------------------------- the two loops

  /** The receiving end of a connection: the bytes not yet consumed. */
  class Connection {
    var unread: seq<byte>

    constructor (bytes: seq<byte>)
      ensures unread == bytes
    {
      unread := bytes;
    }

    /** rpc_read: all of `size` bytes, or a transport failure. */
    method Read(size: nat) returns (ok: bool, data: seq<byte>)
      modifies this
      ensures ok <==> size <= |old(unread)|
      ensures ok ==> data == old(unread)[..size] && unread == old(unread)[size..]
      ensures !ok ==> unread == old(unread)
    {
      ok := size <= |unread|;
      data := [];
      if ok {
        data := unread[..size];
        unread := unread[size..];
      }
    }

    /** The body of the block loop in rpc_read_payload_part. */
    method ReadBlock(codec: Codec, raw: nat) returns (ok: bool, block: seq<byte>)
      modifies this
      ensures ok <==> ParseBlock(codec, old(unread), raw).Got?
      ensures ok ==> ParseBlock(codec, old(unread), raw) == Got(block, unread)
    {
      var head: seq<byte>;
      block := [];
      ok, head := Read(TOKEN_BYTES);
      if !ok {
        return;
      }
      var token := LittleEndianValue(head);
      if token == 0 {
        ok, block := Read(raw);
        return;
      }
      if codec.bound(raw) < token {
        return false, [];
      }
      var body: seq<byte>;
      ok, body := Read(token);
      if !ok {
        return;
      }
      match codec.decompress(body, raw) {
        case Some(d) => ok, block := |d| == raw, d;
        case None => ok := false;
      }
    }

    /** rpc_read_payload_part. */
    method ReadPart(codec: Codec, framed: bool, size: nat) returns (ok: bool, data: seq<byte>)
      modifies this
      ensures framed ==> (ok <==> Parse(BlockFraming(codec), old(unread), size).Got?)
      ensures framed && ok ==> Parse(BlockFraming(codec), old(unread), size) == Got(data, unread)
      ensures !framed ==> (ok <==> size <= |old(unread)|)
      ensures !framed && ok ==> data + unread == old(unread) && |data| == size
    {
      if size == 0 {
        return true, [];
      }
      if !framed {
        ok, data := Read(size);
        return;
      }
      hide ParseBlock;
      ghost var f := BlockFraming(codec);
      data := [];
      var remaining := size;
      while remaining > 0
        invariant 0 <= remaining <= size
        invariant Parse(f, old(unread), size) == Prepend(data, Parse(f, unread, remaining))
        decreases remaining
      {
        var raw := Min(BLOCK_BYTES, remaining);
        assert f.parse(unread, raw) == ParseBlock(codec, unread, raw);
        var block: seq<byte>;
        ok, block := ReadBlock(codec, raw);
        if !ok {
          return;
        }
        remaining := remaining - raw;
        PrependTwice(data, block, Parse(f, unread, remaining));
        data := data + block;
      }
      ok := true;
    }

    /** The body of the block loop in rpc_drain_payload. */
    method DrainBlock(codec: Codec, raw: nat) returns (ok: bool)
      modifies this
      ensures ok <==> SkipBlock(codec, old(unread), raw).Some?
      ensures ok ==> SkipBlock(codec, old(unread), raw) == Some(unread)
    {
      var head: seq<byte>;
      var body: seq<byte>;
      ok, head := Read(TOKEN_BYTES);
      if !ok {
        return;
      }
      var token := LittleEndianValue(head);
      if token == 0 {
        ok, body := Read(raw);
      } else if codec.bound(raw) < token {
        ok := false;
      } else {
        ok, body := Read(token);
      }
    }

    /** rpc_drain_payload. */
    method DrainPayload(codec: Codec, framed: bool, size: nat) returns (ok: bool)
      modifies this
      ensures framed ==> (ok <==> Skip(BlockFraming(codec), old(unread), size).Some?)
      ensures framed && ok ==> Skip(BlockFraming(codec), old(unread), size) == Some(unread)
      ensures !framed ==> (ok <==> size <= |old(unread)|)
      ensures !framed && ok ==> unread == old(unread)[size..]
    {
      if !framed {
        var body: seq<byte>;
        ok, body := Read(size);
        return;
      }
      hide SkipBlock;
      ghost var f := BlockFraming(codec);
      var remaining := size;
      while remaining > 0
        invariant 0 <= remaining <= size
        invariant Skip(f, old(unread), size) == Skip(f, unread, remaining)
        decreases remaining
      {
        var raw := Min(BLOCK_BYTES, remaining);
        assert f.skip(unread, raw) == SkipBlock(codec, unread, raw);
        ok := DrainBlock(codec, raw);
        if !ok {
          return;
        }
        remaining := remaining - raw;
      }
      ok := true;
    }
  }

  // ------------------------------------------------------------- properties

  /** Decoding returns the original bytes and stops exactly at the end of the encoding,
      whatever follows it; draining stops at the same place. */
  lemma {:induction false} RoundTrip(f: Framing, payload: seq<byte>, tail: seq<byte>)
    requires f.Lawful()
    ensures Parse(f, Encode(f, payload) + tail, |payload|) == Got(payload, tail)
    ensures Skip(f, Encode(f, payload) + tail, |payload|) == Some(tail)
    decreases |payload|
  {
    if payload == [] {
      assert Encode(f, payload) + tail == tail;
    } else {
      var raw := Min(BLOCK_BYTES, |payload|);
      var first, rest := payload[..raw], payload[raw..];
      RoundTrip(f, rest, tail);
      assert Encode(f, payload) + tail == f.encode(first) + (Encode(f, rest) + tail);
      assert first + rest == payload;
    }
  }

  /** A whole number of blocks. */
  predicate Whole(n: nat) {
    n == 0 || (BLOCK_BYTES <= n && Whole(n - BLOCK_BYTES))
  }

  lemma {:induction false} WholeIsMultiple(n: nat)
    ensures Whole(n) <==> n % BLOCK_BYTES == 0
  {
    if BLOCK_BYTES <= n {
      WholeIsMultiple(n - BLOCK_BYTES);
    }
  }

  /** Cutting a payload at a block boundary cuts its encoding there too. */
  lemma {:induction false} EncodeSplit(f: Framing, payload: seq<byte>, cut: nat)
    requires cut <= |payload|
    requires Whole(cut)
    ensures Encode(f, payload) == Encode(f, payload[..cut]) + Encode(f, payload[cut..])
    decreases cut
  {
    if cut == 0 {
      assert payload[..cut] == [] && payload[cut..] == payload;
    } else {
      var rest := payload[BLOCK_BYTES..];
      EncodeSplit(f, rest, cut - BLOCK_BYTES);
      assert payload[..cut][..BLOCK_BYTES] == payload[..BLOCK_BYTES];
      assert payload[..cut][BLOCK_BYTES..] == rest[..cut - BLOCK_BYTES];
      assert payload[cut..] == rest[cut - BLOCK_BYTES..];
    }
  }

  /** A consumer reads or drains a payload in parts. */
  datatype Part = ReadBytes(size: nat) | DrainBytes(size: nat)

  /** Every part is a whole number of blocks or reaches the end of the payload. */
  predicate Aligned(parts: seq<Part>, total: nat)
    decreases |parts|
  {
    if parts == [] then total == 0
    else
      && parts[0].size <= total
      && (Whole(parts[0].size) || parts[0].size == total)
      && Aligned(parts[1..], total - parts[0].size)
  }

  /** What the read parts of a payload should return, in order. */
  function Slices(payload: seq<byte>, parts: seq<Part>): seq<seq<byte>>
    requires Aligned(parts, |payload|)
    decreases |parts|
  {
    if parts == [] then []
    else
      var more := Slices(payload[parts[0].size..], parts[1..]);
      if parts[0].ReadBytes? then [payload[..parts[0].size]] + more else more
  }

  datatype Consumed = Failed | Took(slices: seq<seq<byte>>, rest: seq<byte>)

  /** Running the reader or the drain once per part. */
  function Consume(f: Framing, wire: seq<byte>, parts: seq<Part>): Consumed
    decreases |parts|
  {
    if parts == [] then Took([], wire)
    else match parts[0]
      case ReadBytes(n) => (
        match Parse(f, wire, n)
        case Bad => Failed
        case Got(data, rest) =>
          match Consume(f, rest, parts[1..])
          case Failed => Failed
          case Took(slices, end) => Took([data] + slices, end))
      case DrainBytes(n) =>
        match Skip(f, wire, n)
        case None => Failed
        case Some(rest) => Consume(f, rest, parts[1..])
  }

  /** Any aligned mix of reads and drains sees exactly the payload's own slices and
      leaves the connection at the first byte after the payload. */
  lemma {:induction false} PartsRoundTrip(f: Framing, payload: seq<byte>, parts: seq<Part>, tail: seq<byte>)
    requires f.Lawful()
    requires Aligned(parts, |payload|)
    ensures Consume(f, Encode(f, payload) + tail, parts) == Took(Slices(payload, parts), tail)
    decreases |parts|
  {
    if parts == [] {
      assert Encode(f, payload) + tail == tail;
    } else {
      var n := parts[0].size;
      var rest := payload[n..];
      CutRoundTrip(f, payload, n, tail);
      PartsRoundTrip(f, rest, parts[1..], tail);
    }
  }

  /** What the sender puts on the wire for a payload. */
  function Encoded(codec: Codec, framed: bool, payload: seq<byte>): seq<byte> {
    if framed then Encode(BlockFraming(codec), payload) else payload
  }

  /** What draining `size` bytes leaves of the wire. */
  function Skipped(codec: Codec, framed: bool, wire: seq<byte>, size: nat): Option<seq<byte>> {
    if framed then Skip(BlockFraming(codec), wire, size)
    else if |wire| < size then None
    else Some(wire[size..])
  }

  /** One part of a payload, framed or not: the reader gets its bytes, the drain skips
      them, and both stop where the next part begins. */
  lemma PartRoundTrip(codec: Codec, framed: bool, payload: seq<byte>, size: nat, tail: seq<byte>)
    requires codec.Lawful() && size <= |payload| && (Whole(size) || size == |payload|)
    ensures var wire, rest := Encoded(codec, framed, payload) + tail, Encoded(codec, framed, payload[size..]) + tail;
      && Skipped(codec, framed, wire, size) == Some(rest)
      && (framed ==> Parse(BlockFraming(codec), wire, size) == Got(payload[..size], rest))
      && (!framed ==> wire == payload[..size] + rest)
  {
    if framed {
      BlockFramingLawful(codec);
      CutRoundTrip(BlockFraming(codec), payload, size, tail);
    } else {
      assert payload + tail == payload[..size] + (payload[size..] + tail);
    }
  }

  lemma CutRoundTrip(f: Framing, payload: seq<byte>, size: nat, tail: seq<byte>)
    requires f.Lawful() && size <= |payload| && (Whole(size) || size == |payload|)
    ensures var wire, rest := Encode(f, payload) + tail, Encode(f, payload[size..]) + tail;
      Skip(f, wire, size) == Some(rest) && Parse(f, wire, size) == Got(payload[..size], rest)
  {
    hide Encode, Skip, Parse, f.Lawful, Whole;
    var first, more := payload[..size], payload[size..];
    EncodeCut(f, payload, size);
    RoundTrip(f, first, Encode(f, more) + tail);
    assert Encode(f, payload) + tail == Encode(f, first) + (Encode(f, more) + tail);
  }

  /** A consumer that keeps to aligned parts, on a connection that holds the payload and
      whatever follows: it gets the payload's slices and stops at its end. */
  method RunParts(conn: Connection, codec: Codec, framed: bool,
      parts: seq<Part>, ghost payload: seq<byte>, ghost tail: seq<byte>)
    returns (ok: bool, slices: seq<seq<byte>>)
    requires codec.Lawful() && Aligned(parts, |payload|)
    requires conn.unread == Encoded(codec, framed, payload) + tail
    modifies conn
    ensures ok && slices == Slices(payload, parts) && conn.unread == tail
  {
    hide Encoded, Skipped, Encode, Parse, Skip, Whole;
    ok, slices := true, [];
    ghost var rest := payload;
    for i := 0 to |parts|
      invariant ok && Aligned(parts[i..], |rest|) && conn.unread == Encoded(codec, framed, rest) + tail
      invariant slices + Slices(rest, parts[i..]) == Slices(payload, parts)
    {
      assert parts[i..][1..] == parts[i + 1..];
      PartRoundTrip(codec, framed, rest, parts[i].size, tail);
      if parts[i].ReadBytes? {
        var data;
        ok, data := ReadOnePart(conn, codec, framed, parts[i].size, rest, tail);
        slices := slices + [data];
      } else {
        ok := DrainOnePart(conn, codec, framed, parts[i].size, rest, tail);
      }
      rest := rest[parts[i].size..];
    }
    assert Encoded(codec, framed, rest) == [] by { EncodedNothing(codec, framed, rest); }
  }

  lemma EncodedNothing(codec: Codec, framed: bool, payload: seq<byte>)
    requires payload == []
    ensures Encoded(codec, framed, payload) == []
  {
  }

  method ReadOnePart(conn: Connection, codec: Codec, framed: bool,
      size: nat, ghost payload: seq<byte>, ghost tail: seq<byte>)
    returns (ok: bool, data: seq<byte>)
    requires codec.Lawful() && size <= |payload| && (Whole(size) || size == |payload|)
    requires conn.unread == Encoded(codec, framed, payload) + tail
    modifies conn
    ensures ok && data == payload[..size] && conn.unread == Encoded(codec, framed, payload[size..]) + tail
  {
    hide Encoded, Encode, Parse, Skip, Whole;
    PartRoundTrip(codec, framed, payload, size, tail);
    ghost var wire := conn.unread;
    ok, data := conn.ReadPart(codec, framed, size);
    if !framed {
      assert data == wire[..size] && conn.unread == wire[size..];
    }
  }

  method DrainOnePart(conn: Connection, codec: Codec, framed: bool,
      size: nat, ghost payload: seq<byte>, ghost tail: seq<byte>)
    returns (ok: bool)
    requires codec.Lawful() && size <= |payload| && (Whole(size) || size == |payload|)
    requires conn.unread == Encoded(codec, framed, payload) + tail
    modifies conn
    ensures ok && conn.unread == Encoded(codec, framed, payload[size..]) + tail
  {
    hide Encoded, Encode, Parse, Skip, Whole;
    PartRoundTrip(codec, framed, payload, size, tail);
    ok := conn.DrainPayload(codec, framed, size);
  }

  /** Draining anything moves on: what is left is a proper suffix. */
  lemma {:induction false} SkipShrinks(codec: Codec, wire: seq<byte>, size: nat)
    requires Skip(BlockFraming(codec), wire, size).Some? && 0 < size
    ensures var rest := Skip(BlockFraming(codec), wire, size).value;
      |rest| < |wire| && rest == wire[|wire| - |rest|..]
    decreases size
  {
    var raw := Min(BLOCK_BYTES, size);
    var next := SkipBlock(codec, wire, raw).value;
    assert |next| < |wire| && next == wire[|wire| - |next|..];
    if raw < size {
      SkipShrinks(codec, next, size - raw);
      var rest := Skip(BlockFraming(codec), wire, size).value;
      assert next[|next| - |rest|..] == wire[|wire| - |rest|..];
    }
  }

  lemma SkippedShrinks(codec: Codec, framed: bool, wire: seq<byte>, size: nat)
    requires Skipped(codec, framed, wire, size).Some? && 0 < size
    ensures var rest := Skipped(codec, framed, wire, size).value;
      |rest| < |wire| && rest == wire[|wire| - |rest|..]
  {
    if framed {
      SkipShrinks(codec, wire, size);
    }
  }

  /** After a payload that was drained already, another drain of its size goes into what
      comes next: a payload of the same size is taken whole. */
  lemma SecondDrainEatsNext(codec: Codec, framed: bool, size: nat, next: seq<byte>, tail: seq<byte>)
    requires codec.Lawful() && |next| == size
    ensures Skipped(codec, framed, Encoded(codec, framed, next) + tail, size) == Some(tail)
  {
    PartRoundTrip(codec, framed, next, size, tail);
    EncodedNothing(codec, framed, next[size..]);
    assert [] + tail == tail;
  }

  /** EncodeSplit, with the cut also allowed at the very end. */
  lemma EncodeCut(f: Framing, payload: seq<byte>, cut: nat)
    requires cut <= |payload|
    requires Whole(cut) || cut == |payload|
    ensures Encode(f, payload) == Encode(f, payload[..cut]) + Encode(f, payload[cut..])
  {
    if cut == |payload| {
      assert payload[..cut] == payload && payload[cut..] == [];
    } else {
      EncodeSplit(f, payload, cut);
    }
  }
}
