/** How a flush merges the dirty ranges it collected before sending them. */
module Merge {
  import opened DirtyQueue

  /** The order std::sort leaves the list in; allocations compare by base address. */
  predicate Before(a: Range, b: Range) {
    a.alloc < b.alloc || (a.alloc == b.alloc && a.start <= b.start)
  }

  predicate Sorted(ranges: seq<Range>) {
    forall i: nat, j: nat :: i < j < |ranges| ==> Before(ranges[i], ranges[j])
  }

  predicate Covers(r: Range, a: Alloc, x: nat) { r.alloc == a && r.start <= x < r.end }

  ghost predicate Covered(ranges: seq<Range>, a: Alloc, x: nat) {
    exists i: nat :: i < |ranges| && Covers(ranges[i], a, x)
  }

  /** Two ranges of one allocation leave a gap between them. */
  predicate Apart(a: Range, b: Range) { a.alloc < b.alloc || (a.alloc == b.alloc && a.end < b.start) }

  predicate Separated(ranges: seq<Range>) {
    forall i: nat, j: nat :: i < j < |ranges| ==> Apart(ranges[i], ranges[j])
  }

  function Max(a: nat, b: nat): nat { if a < b then b else a }

  /** One range of the loop: a new entry, or an extension of the last one. */
  function Absorb(merged: seq<Range>, r: Range): (m: seq<Range>) {
    if merged == [] || merged[|merged| - 1].alloc != r.alloc || merged[|merged| - 1].end < r.start then merged + [r]
    else
      var last := merged[|merged| - 1];
      merged[|merged| - 1 := last.(end := Max(last.end, r.end))]
  }

  /** Everything merged so far comes no later than `r`. */
  predicate Ahead(merged: seq<Range>, r: Range) {
    && Separated(merged)
    && (forall i: nat :: i < |merged| ==> Before(merged[i], r) && merged[i].start <= merged[i].end)
  }

  lemma AbsorbSeparates(merged: seq<Range>, r: Range)
    requires Ahead(merged, r) && r.start <= r.end
    ensures Ahead(Absorb(merged, r), r)
  {
  }

  lemma AbsorbCovers(merged: seq<Range>, r: Range, a: Alloc, x: nat)
    requires Ahead(merged, r) && r.start <= r.end
    ensures Covered(Absorb(merged, r), a, x) <==> Covered(merged, a, x) || Covers(r, a, x)
  {
    var m := Absorb(merged, r);
    if |m| == |merged| + 1 {
      if Covers(r, a, x) {
        assert Covers(m[|merged|], a, x);
      } else if i: nat :| i < |merged| && Covers(merged[i], a, x) {
        assert Covers(m[i], a, x);
      }
    } else {
      var k := |merged| - 1;
      assert Covers(m[k], a, x) <==> Covers(merged[k], a, x) || Covers(r, a, x);
      if i: nat :| i < |merged| && Covers(merged[i], a, x) {
        assert Covers(m[i], a, x);
      }
      if j: nat :| j < k && Covers(m[j], a, x) {
        assert Covers(merged[j], a, x);
      }
    }
  }

  lemma CoveredMore(ranges: seq<Range>, i: nat, a: Alloc, x: nat)
    requires i < |ranges|
    ensures Covered(ranges[..i + 1], a, x) <==> Covered(ranges[..i], a, x) || Covers(ranges[i], a, x)
  {
    if j: nat :| j < i && Covers(ranges[..i][j], a, x) {
      assert Covers(ranges[..i + 1][j], a, x);
    }
    if Covers(ranges[i], a, x) {
      assert Covers(ranges[..i + 1][i], a, x);
    }
    forall j: nat | j < i
      ensures ranges[..i + 1][j] == ranges[..i][j]
    {
    }
  }

  /** The merged ranges cover exactly the pages of the collected ones, in order, with no
      two that touch or overlap. */
  method MergeRanges(ranges: seq<Range>) returns (merged: seq<Range>)
    requires Sorted(ranges)
    requires forall i: nat :: i < |ranges| ==> ranges[i].start <= ranges[i].end
    ensures Separated(merged)
    ensures forall a, x :: Covered(merged, a, x) <==> Covered(ranges, a, x)
    ensures |merged| <= |ranges|
  {
    merged := [];
    for i := 0 to |ranges|
      invariant |merged| <= i
      invariant Separated(merged)
      invariant i < |ranges| ==> Ahead(merged, ranges[i])
      invariant forall a, x :: Covered(merged, a, x) <==> Covered(ranges[..i], a, x)
    {
      var range := ranges[i];
      ghost var was := merged;
      if |merged| == 0 || merged[|merged| - 1].alloc != range.alloc || merged[|merged| - 1].end < range.start {
        merged := merged + [range];
      } else {
        var last := merged[|merged| - 1];
        merged := merged[|merged| - 1 := last.(end := Max(last.end, range.end))];
      }
      AbsorbSeparates(was, range);
      assert i + 1 < |ranges| ==> Ahead(merged, ranges[i + 1]);
      forall a, x
        ensures Covered(merged, a, x) <==> Covered(ranges[..i + 1], a, x)
      {
        AbsorbCovers(was, range, a, x);
        CoveredMore(ranges, i, a, x);
      }
    }
    assert ranges[..|ranges|] == ranges;
  }
}
