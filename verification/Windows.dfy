/** The server's receive side while payloads are staged: the announced payload, and the
    flow-control window whose credit is withheld until staging retires (sections 5.2 and
    6.9 of RFC 9113). */
module Windows {
  import opened Payload

  const MAX_HELD: nat := 33554432   // half of the 64 MiB staging window

  /** What is to be read of a connection: `unread` ends with `tail`, which belongs to
      later requests. */
  datatype Feed = Feed(codec: Codec, framed: bool, unread: seq<byte>, tail: seq<byte>)

  /** `payload` is what the client announced and sends, and `consumed` how far it was read
      or drained. `received` and `credited` are running totals of DATA bytes; `windowHeld`
      are those charged to staging and `holdBytes` those charged to the read in progress. */
  datatype Link = Link(feed: Feed, payload: seq<byte>, consumed: nat, failed: bool,
                       received: nat, credited: nat, windowHeld: nat, hold: bool, holdBytes: nat)
  {
    /** Every byte received is credited or held, and what is held leaves half of the
        window open; the connection stands where the payload was consumed to. A failed
        transport owes nothing. */
    ghost predicate Conserved() {
      && consumed <= |payload|
      && (!failed ==> received == credited + windowHeld && windowHeld <= MAX_HELD && Stands(feed, payload[consumed..]))
    }
  }

  /** The connection holds the rest of a payload and the tail. */
  ghost predicate Stands(feed: Feed, rest: seq<byte>) {
    feed.codec.Lawful() && feed.unread == Encoded(feed.codec, feed.framed, rest) + feed.tail
  }

  /** The same payload format. */
  ghost predicate Same(l: Feed, r: Feed) { r.codec == l.codec && r.framed == l.framed }

  /** Later on the same connection, within the same request. */
  ghost predicate Later(l: Feed, r: Feed) { r == l.(unread := r.unread) }

  /** The server branch of h2_on_data_chunk_recv_callback. */
  function Arrive(l: Link, len: nat): Link {
    var held := if l.hold && l.windowHeld < MAX_HELD then Min(len, MAX_HELD - l.windowHeld) else 0;
    l.(received := l.received + len, windowHeld := l.windowHeld + held, holdBytes := l.holdBytes + held,
       credited := l.credited + (len - held))
  }

  function ArriveAll(l: Link, lens: seq<nat>): Link
    decreases |lens|
  {
    if lens == [] then l else ArriveAll(Arrive(l, lens[0]), lens[1..])
  }

  /** However the bytes are cut into DATA frames, the total is conserved, the hold grows
      by exactly what the window does, and nothing is held outside a hold. */
  lemma {:induction false} ArriveAllConserves(l: Link, lens: seq<nat>)
    requires l.Conserved()
    ensures var r := ArriveAll(l, lens);
      && r.Conserved()
      && r.holdBytes - l.holdBytes == r.windowHeld - l.windowHeld >= 0
      && (!l.hold ==> r.windowHeld == l.windowHeld)
      && r == l.(received := r.received, windowHeld := r.windowHeld, holdBytes := r.holdBytes, credited := r.credited)
    decreases |lens|
  {
    if lens != [] {
      ArriveAllConserves(Arrive(l, lens[0]), lens[1..]);
    }
  }

  /** The part ends on a block boundary of the payload or at its end. */
  predicate Cuts(l: Link, size: nat) {
    l.consumed + size <= |l.payload| && (Whole(size) || l.consumed + size == |l.payload|)
  }

  /** The bytes of a part are there. */
  method TakePart(feed: Feed, size: nat, ghost rest: seq<byte>) returns (data: seq<byte>, r: Feed)
    requires Stands(feed, rest) && size <= |rest| && (Whole(size) || size == |rest|)
    ensures data == rest[..size] && Later(feed, r) && Stands(r, rest[size..])
  {
    hide Encoded, Whole;
    var conn := new Connection(feed.unread);
    var ok;
    ok, data := ReadOnePart(conn, feed.codec, feed.framed, size, rest, feed.tail);
    r := feed.(unread := conn.unread);
  }

  /** rpc_read_payload_part on the announced payload, in parts that keep to its blocks;
      the frames it meets on the way are the network's choice, and it may fail. */
  method ReadPart(l: Link, size: nat) returns (ok: bool, data: seq<byte>, r: Link)
    requires l.Conserved() && Cuts(l, size)
    ensures r.Conserved()
    ensures r.holdBytes - l.holdBytes == r.windowHeld - l.windowHeld >= 0
    ensures !l.hold ==> r.windowHeld == l.windowHeld
    ensures |data| == size && r.payload == l.payload && r.hold == l.hold && Later(l.feed, r.feed)
    ensures ok ==> data == l.payload[l.consumed..l.consumed + size] && r.consumed == l.consumed + size
    ensures ok ==> !r.failed && !l.failed
    ensures !ok ==> r.failed
  {
    hide Stands, Whole;
    var lens: seq<nat> := *;
    ArriveAllConserves(l, lens);
    r := ArriveAll(l, lens);
    ok := *;
    if ok && !r.failed {
      ghost var rest := l.payload[l.consumed..];
      var feed;
      data, feed := TakePart(r.feed, size, rest);
      assert rest[size..] == l.payload[l.consumed + size..];
      r := r.(consumed := r.consumed + size, feed := feed);
    } else {
      ok := false;
      data := *;
      if |data| != size {
        data := seq(size, _ => 0);
      }
      r := r.(failed := true);
    }
  }

  /** rpc_drain_payload. */
  method Drain(l: Link, size: nat) returns (ok: bool, r: Link)
    requires l.Conserved() && Cuts(l, size) && !l.hold
    ensures r.Conserved() && r.windowHeld == l.windowHeld && r.holdBytes == l.holdBytes
    ensures r.payload == l.payload && r.hold == l.hold && Later(l.feed, r.feed)
    ensures ok ==> r.consumed == l.consumed + size && !r.failed && !l.failed
    ensures !ok ==> r.failed
  {
    hide Encoded, Whole;
    var lens: seq<nat> := *;
    ArriveAllConserves(l, lens);
    r := ArriveAll(l, lens);
    ok := *;
    if ok && !r.failed {
      ghost var rest := l.payload[l.consumed..];
      var conn := new Connection(r.feed.unread);
      ok := DrainOnePart(conn, r.feed.codec, r.feed.framed, size, rest, r.feed.tail);
      assert rest[size..] == l.payload[l.consumed + size..];
      r := r.(consumed := r.consumed + size, feed := r.feed.(unread := conn.unread));
    } else {
      ok := false;
      r := r.(failed := true);
    }
  }

  /** rpc_drain_payload once more, when the payload has been consumed: it goes into the
      tail, or fails there. */
  method DrainAgain(l: Link, size: nat) returns (ok: bool, r: Link)
    requires l.Conserved() && !l.hold && l.consumed == |l.payload|
    ensures r.Conserved() && r.windowHeld == l.windowHeld && r.holdBytes == l.holdBytes
    ensures r.payload == l.payload && r.consumed == l.consumed && r.hold == l.hold
    ensures Same(l.feed, r.feed)
    ensures ok ==> !r.failed && !l.failed && r.feed.unread == r.feed.tail
    ensures ok ==> Skipped(l.feed.codec, l.feed.framed, l.feed.tail, size) == Some(r.feed.tail)
    ensures !ok ==> r.failed
  {
    hide Encoded;
    var lens: seq<nat> := *;
    ArriveAllConserves(l, lens);
    r := ArriveAll(l, lens);
    ok := *;
    EncodedNothing(l.feed.codec, l.feed.framed, l.payload[l.consumed..]);
    if ok && !r.failed {
      assert r.feed.unread == r.feed.tail;
      var conn := new Connection(r.feed.unread);
      ok := conn.DrainPayload(r.feed.codec, r.feed.framed, size);
      if ok {
        r := r.(feed := r.feed.(unread := conn.unread, tail := conn.unread));
        assert [] + conn.unread == conn.unread;
      }
    } else {
      ok := false;
    }
    if !ok {
      r := r.(failed := true);
    }
  }

  method HoldBegin(l: Link) returns (r: Link)
    ensures r == l.(hold := true, holdBytes := 0)
  {
    r := l.(hold := true, holdBytes := 0);
  }

  method HoldEnd(l: Link) returns (held: nat, r: Link)
    ensures held == l.holdBytes && r == l.(hold := false, holdBytes := 0)
  {
    held := l.holdBytes;
    r := l.(hold := false, holdBytes := 0);
  }

  /** rpc_http2_window_release. The callers owe that the saturating subtraction is exact. */
  method Release(l: Link, bytes: nat) returns (r: Link)
    requires l.Conserved() && (!l.failed ==> bytes <= l.windowHeld)
    ensures r.Conserved()
    ensures r == l.(failed := r.failed, windowHeld := r.windowHeld, credited := r.credited)
    ensures l.failed ==> r.failed
    ensures !r.failed ==> r.windowHeld == l.windowHeld - bytes && r.credited == l.credited + bytes
  {
    r := l;
    if bytes == 0 {
      return;
    }
    r := r.(windowHeld := l.windowHeld - Min(bytes, l.windowHeld));
    var ok: bool := *;
    if ok {
      r := r.(credited := r.credited + bytes);
    } else {
      r := r.(failed := true);
    }
  }
}
