/** What a message's entries look like to the peer that reads them. */
module EndToEnd {
  import opened Payload
  import opened Writer

  /** A reader knows of each entry how long it is and whether it is framed. */
  datatype Shape = Shape(size: nat, framed: bool)

  function Shapes(entries: seq<Entry>): seq<Shape> {
    if entries == [] then [] else [Shape(|entries[0].bytes|, entries[0].framed)] + Shapes(entries[1..])
  }

  function Contents(entries: seq<Entry>): seq<seq<byte>> {
    if entries == [] then [] else [entries[0].bytes] + Contents(entries[1..])
  }

  datatype Unpacked = Garbled | Unpacked(contents: seq<seq<byte>>, rest: seq<byte>)

  /** Reading the entries one after the other, as rpc_read and rpc_read_payload do. */
  function Unpack(f: Framing, wire: seq<byte>, shapes: seq<Shape>): Unpacked
    decreases |shapes|
  {
    if shapes == [] then Unpacked([], wire)
    else
      var n := shapes[0].size;
      var first := if shapes[0].framed then Parse(f, wire, n)
        else if |wire| < n then Bad else Got(wire[..n], wire[n..]);
      match first
      case Bad => Garbled
      case Got(data, rest) =>
        match Unpack(f, rest, shapes[1..])
        case Garbled => Garbled
        case Unpacked(contents, end) => Unpacked([data] + contents, end)
  }

  /** A reader that knows the shapes gets every entry back, plain or framed, and stops at
      the first byte after the message. */
  lemma {:induction false} UnpackWire(f: Framing, entries: seq<Entry>, tail: seq<byte>)
    requires f.Lawful()
    ensures Unpack(f, Wire(f, entries) + tail, Shapes(entries)) == Unpacked(Contents(entries), tail)
    decreases |entries|
  {
    if entries == [] {
      assert Wire(f, entries) + tail == tail;
    } else {
      var e := entries[0];
      var encoded := if e.framed then Encode(f, e.bytes) else e.bytes;
      var rest := Wire(f, entries[1..]) + tail;
      assert Wire(f, entries) + tail == encoded + rest;
      UnpackWire(f, entries[1..], tail);
      Shaped(entries);
      if e.framed {
        RoundTrip(f, e.bytes, rest);
      } else {
        assert (encoded + rest)[..|e.bytes|] == e.bytes && (encoded + rest)[|e.bytes|..] == rest;
      }
    }
  }

  lemma Shaped(entries: seq<Entry>)
    requires entries != []
    ensures Shapes(entries) != [] && Shapes(entries)[0] == Shape(|entries[0].bytes|, entries[0].framed)
    ensures Shapes(entries)[1..] == Shapes(entries[1..])
  {
  }

  /** rpc_write_payload: the entry it queues for a payload. */
  function PayloadEntry(negotiated: bool, payload: seq<byte>): Entry {
    Entry(payload, PayloadFramed(negotiated, |payload|))
  }

  /** rpc_read_payload, on what rpc_write_payload wrote: with any lawful codec, whether or
      not compression was negotiated, the payload arrives and the connection is left at
      the first byte after it. */
  method ReceivePayload(conn: Connection, codec: Codec, negotiated: bool,
      size: nat, ghost payload: seq<byte>, ghost tail: seq<byte>)
    returns (ok: bool, data: seq<byte>)
    requires codec.Lawful() && size == |payload|
    requires conn.unread == Wire(BlockFraming(codec), [PayloadEntry(negotiated, payload)]) + tail
    modifies conn
    ensures ok && data == payload && conn.unread == tail
  {
    hide Encode, Parse, BlockFraming;
    ghost var f, wire := BlockFraming(codec), conn.unread;
    OneEntry(f, PayloadEntry(negotiated, payload));
    if PayloadFramed(negotiated, size) {
      BlockFramingLawful(codec);
      RoundTrip(f, payload, tail);
    }
    ok, data := conn.ReadPart(codec, PayloadFramed(negotiated, size), size);
    if !PayloadFramed(negotiated, size) {
      assert data == (data + conn.unread)[..size] && conn.unread == (data + conn.unread)[size..];
      assert wire[..size] == payload && wire[size..] == tail;
    }
  }

  lemma OneEntry(f: Framing, e: Entry)
    ensures Wire(f, [e]) == if e.framed then Encode(f, e.bytes) else e.bytes
  {
    assert [e][1..] == [];
  }
}
