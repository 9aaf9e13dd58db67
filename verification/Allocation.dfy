/** The tracked allocation as the client keeps it: the fault handler, the demand fetch,
    the flush and the invalidation, working in place on one record. Offsets are counted
    in pages and chunks. */
module Allocations {
  import opened Payload
  import opened Mirror

  class Allocation {
    const k: nat
    const freshChunks: array<bool>
    var host: seq<Page>
    var server: seq<Page>        // the peer's copy, reached over the connection
    var prot: seq<Prot>
    var deviceStale: nat         // 0 fresh, 1 invalidated, 2 fetching, 3 invalidating
    var queued: set<nat>
    var fullDirty: bool
    var deviceDirty: bool
    var seqNext: nat
    var readahead: nat

    ghost function View(): Mirror
      reads this, freshChunks
    {
      Mirror(k, host, server, prot, freshChunks[..],
        deviceStale != 0, queued, fullDirty, deviceDirty, seqNext, readahead)
    }

    ghost predicate Valid()
      reads this, freshChunks
    {
      View().Shaped() && deviceStale <= 1
    }

    /** mprotect over the pages of the chunks [lo, hi). */
    method Protect(lo: nat, hi: nat, p: Prot)
      requires View().Shaped()
      modifies this`prot
      ensures prot == Protected(old(View()), lo, hi, p)
    {
      hide ChunkOf;
      var was := prot;
      prot := seq(|was|, q requires 0 <= q < |was| => if lo <= ChunkOf(k, q) < hi then p else was[q]);
    }

    /** lupine_fetch_stale_range: read the pages of the stale chunks [lo, hi) from the
        server, in order; on a failure some have `arrived`. */
    method FetchRange(lo: nat, hi: nat) returns (ok: bool, ghost arrived: set<nat>)
      requires View().Shaped() && lo <= hi <= freshChunks.Length
      requires forall c: nat :: lo <= c < hi ==> !freshChunks[c]
      modifies this`host
      ensures host == ArrivedHost(old(View()), lo, if ok then hi else lo, hi, arrived)
    {
      hide ChunkOf;
      ok := *;
      var count: nat :| count <= |host|;
      var was, from, all := host, server, ok;
      host := seq(|was|, p requires 0 <= p < |was| && |was| == |from| =>
        if lo <= ChunkOf(k, p) < hi && (all || p < count) then from[p] else was[p]);
      arrived := Below(count);
    }

    method MarkFresh(lo: nat, hi: nat)
      requires lo <= hi <= freshChunks.Length
      modifies freshChunks
      ensures freshChunks[..] == MarkedFresh(old(freshChunks[..]), lo, hi)
    {
      for c := lo to hi
        invariant forall i: nat :: i < freshChunks.Length ==> freshChunks[i] == (old(freshChunks[i]) || lo <= i < c)
      {
        freshChunks[c] := true;
      }
    }

    /** The scan for the end of a stale run. */
    method ScanStale(c: nat, limit: nat) returns (end: nat)
      requires c <= limit <= freshChunks.Length
      ensures end == StaleRunEnd(freshChunks[..], c, limit)
    {
      end := c;
      while end < limit && !freshChunks[end]
        invariant c <= end <= limit
        invariant StaleRunEnd(freshChunks[..], c, limit) == StaleRunEnd(freshChunks[..], end, limit)
      {
        end := end + 1;
      }
    }

    /** Unprotect a stale run, read it from the server and mark it fresh, or fail. */
    method FetchRun(lo: nat, hi: nat) returns (ok: bool, ghost arrived: set<nat>)
      requires View().Shaped() && lo <= hi <= freshChunks.Length
      requires forall c: nat :: lo <= c < hi ==> !freshChunks[c]
      modifies this`prot, this`host, freshChunks
      ensures View().Shaped() && View() == FetchAborted(old(View()), lo, if ok then hi else lo, hi, arrived)
    {
      hide ChunkOf;
      ghost var m := View();
      Protect(lo, hi, ReadWrite);
      assert prot == OpenedProt(m, lo, hi);
      ok, arrived := FetchRange(lo, hi);
      assert host == ArrivedHost(m, lo, if ok then hi else lo, hi, arrived);
      if ok {
        MarkFresh(lo, hi);
      } else {
        assert freshChunks[..] == MarkedFresh(m.chunks, lo, lo);
      }
    }

    /** The read-ahead window of a fault, remembered for the next one. */
    method WidenWindow(start: nat) returns (limit: nat)
      requires start < freshChunks.Length
      modifies this`readahead
      ensures readahead == NextReadahead(old(View()), start)
      ensures limit == Min(start + Window(old(View()), start), freshChunks.Length)
      ensures start < limit <= freshChunks.Length
    {
      if start != 0 && start == seqNext && 1 <= readahead {
        if READAHEAD_CAP <= readahead {
          limit := freshChunks.Length;
        } else {
          readahead := Min(readahead * 2, READAHEAD_CAP);
          limit := start + readahead;
        }
      } else {
        readahead := 1;
        limit := start + 1;
      }
      limit := Min(limit, freshChunks.Length);
    }

    /** lupine_demand_fetch_run. */
    method DemandFetchRun(start: nat) returns (ok: bool, end: nat, ghost arrived: set<nat>)
      requires View().Shaped() && start < freshChunks.Length
      modifies this`prot, this`host, this`seqNext, this`readahead, freshChunks
      ensures View().Shaped() && end == FetchEnd(old(View()), start)
      ensures var done := if ok then end else start;
        View() == FetchAborted(old(View()), start, done, end, arrived).(seqNext := seqNext, readahead := readahead)
      ensures readahead == NextReadahead(old(View()), start)
      ensures ok && !old(freshChunks[start]) ==> seqNext == end
      ensures !ok ==> seqNext == old(seqNext)
    {
      hide ChunkOf, FetchAborted, ArrivedHost, OpenedProt, MarkedFresh, StaleRunEnd, NextReadahead, Window, Min;
      ghost var m := View();
      var limit := WidenWindow(start);
      assert View().Shaped();
      end := ScanStale(start, limit);
      if end <= start {
        ok, arrived := true, {};
        EmptyFetch(m, start);
        seqNext := start + 1;
        return;
      }
      ghost var widened := View();
      ok, arrived := FetchRun(start, end);
      AbortedAlike(m, widened, start, if ok then end else start, end, arrived);
      if ok {
        seqNext := end;
      }
    }

    /** lupine_finish_demand_fetch, with no payload pinned. */
    method FinishDemandFetch(lo: nat, hi: nat)
      requires View().Shaped()
      modifies this`prot, this`deviceStale
      ensures prot == Protected(old(View()), lo, hi, ReadOnly)
      ensures deviceStale == if AllFresh(freshChunks[..]) then 0 else 1
    {
      hide ChunkOf;
      var allFresh := true;
      for c := 0 to freshChunks.Length
        invariant allFresh
        invariant forall i: nat :: i < c ==> freshChunks[i]
      {
        if !freshChunks[c] {
          allFresh := false;
          break;
        }
      }
      if lo < hi {
        Protect(lo, hi, ReadOnly);
      } else {
        assert prot == Protected(old(View()), lo, hi, ReadOnly);
      }
      deviceStale := if allFresh then 0 else 1;
    }

    /** The fault handler's fetch of a stale chunk. A failure ends in the previous handler
        of the signal. */
    method HandleStaleFault(c: nat) returns (ok: bool, ghost arrived: set<nat>)
      requires Valid() && deviceStale != 0 && c < freshChunks.Length && !freshChunks[c]
      modifies this`prot, this`host, this`deviceStale, this`seqNext, this`readahead, freshChunks
      ensures Valid()
      ensures ok ==> View() == Fetched(old(View()), c, FetchEnd(old(View()), c)).(
        seqNext := FetchEnd(old(View()), c), readahead := NextReadahead(old(View()), c))
      ensures !ok ==> var m := old(View());
        View() == FetchAborted(m, c, c, FetchEnd(m, c), arrived).(readahead := NextReadahead(m, c))
    {
      hide ChunkOf, FetchAborted, Protected, FetchedHost, MarkedFresh, FetchEnd, NextReadahead;
      ghost var m := View();
      deviceStale := 2;
      var end;
      ok, end, arrived := DemandFetchRun(c);
      if !ok {
        deviceStale := 1;
        AbortedStale(m, c, c, end, arrived);
        return;
      }
      ghost var before := View();
      FinishedSpan(m, before, c, end, arrived);
      FinishDemandFetch(c, end);
    }

    /** lupine_sigsegv_handler, past the table lookup. `room` is whether the dirty-range
        queue could take the page. */
    method HandleFault(p: nat, room: bool) returns (ok: bool, ghost arrived: set<nat>)
      requires Valid() && p < |host|
      modifies this, freshChunks
      ensures Valid()
      ensures ok ==> View() == Faulted(old(View()), p, room)
      ensures !ok ==>
        var m, c := old(View()), ChunkOf(k, p);
        m.stale && c < |m.chunks| && !m.chunks[c]
        && View() == FetchAborted(m, c, c, FetchEnd(m, c), arrived).(readahead := NextReadahead(m, c))
    {
      hide ChunkOf, Protected, FetchedHost, MarkedFresh, FetchEnd, NextReadahead, FetchAborted;
      ghost var m := View();
      var c := ChunkOf(k, p);
      ok, arrived := true, {};
      if deviceStale != 0 && !freshChunks[c] {
        ok, arrived := HandleStaleFault(c);
        return;
      }
      if room {
        queued := queued + {p};
      } else {
        fullDirty := true;
      }
      prot := prot[p := ReadWrite];
    }

    /** One stale run of lupine_make_mapped_range_fresh, when the stale runs of [lo, done)
        are fetched. */
    method FetchNextRun(ghost m: Mirror, ghost lo: nat, ghost done: nat, position: nat, hi: nat)
      returns (ok: bool, end: nat, ghost arrived: set<nat>)
      requires m.Shaped() && lo <= done <= position < hi <= freshChunks.Length
      requires View() == FetchAborted(m, lo, done, done, {}) && !freshChunks[position]
      requires forall c: nat :: done <= c < position ==> m.chunks[c]
      modifies this`prot, this`host, freshChunks
      ensures View().Shaped() && position < end <= hi
      ensures ok ==> View() == FetchAborted(m, lo, end, end, {})
      ensures !ok ==> View() == FetchAborted(m, lo, done, end, arrived)
    {
      end := ScanStale(position, hi);
      ghost var before := View();
      ok, arrived := FetchRun(position, end);
      hide FetchAborted;
      if ok {
        RunExtends(m, before, lo, done, position, end, arrived);
      } else {
        RunAborts(m, before, lo, done, position, end, arrived);
      }
    }

    /** lupine_make_mapped_range_fresh. On success `span` is one past the last chunk it
        fetched; on a failure the runs before `span` were fetched, and the one that ends at
        `stop` was not. */
    method MakeRangeFresh(lo: nat, hi: nat)
      returns (ok: bool, ghost span: nat, ghost stop: nat, ghost arrived: set<nat>)
      requires Valid() && lo <= hi <= freshChunks.Length
      modifies this`prot, this`host, this`deviceStale, freshChunks
      ensures Valid() && lo <= span <= stop <= hi
      ensures !old(View()).stale ==> ok && View() == old(View())
      ensures ok && old(View()).stale ==>
        View() == Fetched(old(View()), lo, span) && forall c: nat :: span <= c < hi ==> old(freshChunks[..])[c]
      ensures !ok ==> old(View()).stale && View() == FetchAborted(old(View()), lo, span, stop, arrived)
    {
      hide ChunkOf, FetchAborted;
      ghost var m := View();
      ok, span, stop, arrived := true, lo, lo, {};
      if deviceStale == 0 {
        return;
      }
      deviceStale := 2;
      var end := lo;
      var position := lo;
      EmptyFetch(m, lo);
      while position < hi
        invariant View().Shaped() && deviceStale == 2 && ok
        invariant lo <= end == span == stop <= position <= hi
        invariant View() == FetchAborted(m, lo, span, span, {})
        invariant forall c: nat :: span <= c < position ==> m.chunks[c]
        decreases hi - position
      {
        if freshChunks[position] {
          AbortedChunks(m, lo, span, position);
          position := position + 1;
          continue;
        }
        var next;
        ok, next, arrived := FetchNextRun(m, lo, span, position, hi);
        stop := next;
        if !ok {
          deviceStale := 1;
          AbortedStale(m, lo, span, next, arrived);
          return;
        }
        end, span, position := next, next, next;
      }
      ghost var before := View();
      FinishedSpan(m, before, lo, span, {});
      FinishDemandFetch(lo, end);
    }

    /** Write-protect the dirty pages and send them. */
    method PushPages(full: bool, pages: set<nat>)
      requires View().Shaped()
      modifies this`prot, this`server
      ensures |prot| == |old(prot)| && |server| == |old(server)|
      ensures forall p: nat :: p < |prot| ==> prot[p] == if full || p in pages then ReadOnly else old(prot)[p]
      ensures forall p: nat :: p < |server| ==> server[p] == if full || p in pages then host[p] else old(server)[p]
    {
      var was, from, to := prot, host, server;
      prot := seq(|was|, p requires 0 <= p < |was| => if full || p in pages then ReadOnly else was[p]);
      server := seq(|to|, p requires 0 <= p < |to| && |from| == |to| => if full || p in pages then from[p] else to[p]);
    }

    /** lupine_flush_dirty_host_pages_to_route for this allocation, when all is sent. It
        goes on whether or not the fetch before it succeeded. */
    method FlushToRoute() returns (ghost fetched: bool, ghost span: nat, ghost stop: nat, ghost arrived: set<nat>)
      requires Valid()
      modifies this, freshChunks
      ensures Valid()
      ensures fetched ==> View() == Flushed(old(View()), freshChunks.Length)
      ensures !fetched ==> old(View()).stale && old(View()).fullDirty && span <= stop
      ensures !fetched ==> View() == FlushedAnyway(old(View()), span, stop, arrived)
    {
      hide ChunkOf, FetchAborted;
      ghost var m := View();
      fetched, span, stop, arrived := true, 0, 0, {};
      var full, pages := fullDirty, queued;
      if full && deviceStale != 0 {
        fetched, span, stop, arrived := MakeRangeFresh(0, freshChunks.Length);
        if fetched {
          FetchedFurther(m, span, freshChunks.Length);
        }
      }
      queued, fullDirty := {}, false;
      ghost var b := if fetched then BeforePush(m, freshChunks.Length) else FetchAborted(m, 0, span, stop, arrived);
      PushPages(full, pages);
      assert b.fullDirty == full && b.queued == pages;
      assert prot == PushedProt(b);
      assert server == PushedServer(b);
    }

    /** lupine_sync_mapped_device_to_host for this allocation. */
    method SyncDeviceToHost()
      requires Valid()
      modifies this, freshChunks
      ensures Valid()
      ensures View() == if old(deviceDirty) then Invalidated(old(View())) else old(View())
    {
      hide ChunkOf;
      if !deviceDirty {
        return;
      }
      deviceStale := 3;
      for c := 0 to freshChunks.Length
        invariant forall i: nat :: i < c ==> !freshChunks[i]
        modifies freshChunks
      {
        freshChunks[c] := false;
      }
      seqNext, readahead := 0, 0;
      prot := seq(|prot|, _ => NoAccess);
      deviceStale, deviceDirty := 1, false;
      assert freshChunks[..] == seq(freshChunks.Length, _ => false);
    }
  }

  function Below(n: nat): (r: set<nat>)
    ensures forall p: nat :: p in r <==> p < n
  {
    if n == 0 then {} else Below(n - 1) + {n - 1}
  }

  lemma EmptyFetch(m: Mirror, c: nat)
    requires m.Shaped()
    ensures FetchAborted(m, c, c, c, {}) == m
  {
    hide ChunkOf;
    assert ArrivedHost(m, c, c, c, {}) == m.host &&
      OpenedProt(m, c, c) == m.prot && MarkedFresh(m.chunks, c, c) == m.chunks;
  }

  /** The read-ahead state plays no part in a fetch. */
  lemma AbortedAlike(m: Mirror, w: Mirror, lo: nat, done: nat, hi: nat, arrived: set<nat>)
    requires m.Shaped() && w == m.(readahead := w.readahead)
    ensures FetchAborted(w, lo, done, hi, arrived) == FetchAborted(m, lo, done, hi, arrived).(readahead := w.readahead)
  {
    assert ArrivedHost(w, lo, done, hi, arrived) == ArrivedHost(m, lo, done, hi, arrived);
    assert OpenedProt(w, lo, hi) == OpenedProt(m, lo, hi);
  }

  lemma AbortedStale(m: Mirror, lo: nat, done: nat, hi: nat, arrived: set<nat>)
    requires m.Shaped() && m.stale
    ensures FetchAborted(m, lo, done, hi, arrived).stale && FetchAborted(m, lo, done, hi, arrived).seqNext == m.seqNext
  {
  }

  lemma AbortedChunks(m: Mirror, lo: nat, done: nat, c: nat)
    requires m.Shaped() && done <= c < |m.chunks|
    ensures |FetchAborted(m, lo, done, done, {}).chunks| == |m.chunks|
    ensures FetchAborted(m, lo, done, done, {}).chunks[c] == m.chunks[c]
  {
  }

  /** Protecting the span completes the fetch. */
  lemma FinishedSpan(m: Mirror, before: Mirror, lo: nat, done: nat, arrived: set<nat>)
    requires m.Shaped()
    requires before ==
      FetchAborted(m, lo, done, done, arrived).(seqNext := before.seqNext, readahead := before.readahead)
    ensures before.Shaped()
    ensures before.(prot := Protected(before, lo, done, ReadOnly), stale := !AllFresh(before.chunks))
      == Fetched(m, lo, done).(seqNext := before.seqNext, readahead := before.readahead)
  {
    hide ChunkOf;
    assert before.host == FetchedHost(m, lo, done);
    assert Protected(before, lo, done, ReadOnly) == Protected(m, lo, done, ReadOnly);
  }

  /** Fetching one more stale run after [lo, done) amounts to fetching [lo, end). */
  lemma RunExtends(m: Mirror, before: Mirror, lo: nat, done: nat, position: nat, end: nat, arrived: set<nat>)
    requires m.Shaped() && before == FetchAborted(m, lo, done, done, {})
    requires lo <= done <= position <= end <= |m.chunks|
    requires forall c: nat :: done <= c < position ==> m.chunks[c]
    ensures FetchAborted(before, position, end, end, arrived) == FetchAborted(m, lo, end, end, {})
  {
    hide ChunkOf;
    var r, e := FetchAborted(before, position, end, end, arrived), FetchAborted(m, lo, end, end, {});
    assert r.host == e.host && r.prot == e.prot && r.chunks == e.chunks;
  }

  /** Failing on it amounts to failing on it after [lo, done). */
  lemma RunAborts(m: Mirror, before: Mirror, lo: nat, done: nat, position: nat, end: nat, arrived: set<nat>)
    requires m.Shaped() && before == FetchAborted(m, lo, done, done, {})
    requires lo <= done <= position <= end <= |m.chunks|
    requires forall c: nat :: done <= c < position ==> m.chunks[c]
    ensures FetchAborted(before, position, position, end, arrived) == FetchAborted(m, lo, done, end, arrived)
  {
    hide ChunkOf;
    var r, e := FetchAborted(before, position, position, end, arrived), FetchAborted(m, lo, done, end, arrived);
    assert r.host == e.host && r.prot == e.prot && r.chunks == e.chunks;
  }

  /** Fetching past the last stale chunk changes only protections. */
  lemma FetchedFurther(m: Mirror, spanEnd: nat, all: nat)
    requires m.Shaped() && spanEnd <= all == |m.chunks|
    requires forall c: nat :: spanEnd <= c < all ==> m.chunks[c]
    ensures Fetched(m, 0, all) == Fetched(m, 0, spanEnd).(prot := Fetched(m, 0, all).prot)
  {
    assert MarkedFresh(m.chunks, 0, all) == MarkedFresh(m.chunks, 0, spanEnd);
    assert FetchedHost(m, 0, all) == FetchedHost(m, 0, spanEnd);
  }
}
