/** Coalescing of missing bars into the gap ledger of a checkpoint. */
module MissingRanges {
  import opened Market
  import opened Ordering

  ghost predicate Covers(ranges: seq<TimeRange>, p: Instant) {
    exists i :: 0 <= i < |ranges| && ranges[i].start <= p < ranges[i].end
  }

  ghost predicate NonEmpty(ranges: seq<TimeRange>) {
    forall i :: 0 <= i < |ranges| ==> ranges[i].start < ranges[i].end
  }

  /** Non-empty ranges in order, with a positive distance between neighbours. */
  ghost predicate Normal(ranges: seq<TimeRange>) {
    && NonEmpty(ranges)
    && (forall i, j :: 0 <= i < j < |ranges| ==> ranges[i].end < ranges[j].start)
  }

  predicate StartsNoLater(a: TimeRange, b: TimeRange) { a.start <= b.start }

  ghost predicate SortedByStart(ranges: seq<TimeRange>) { SortedBy(StartsNoLater, ranges) }

  function SortByStart(ranges: seq<TimeRange>): seq<TimeRange> { SortBy(StartsNoLater, ranges) }

  /** One turn of the merge loop: extend the last range or open a new one. */
  function Absorb(merged: seq<TimeRange>, r: TimeRange): seq<TimeRange> {
    if merged != [] && r.start <= merged[|merged| - 1].end then
      merged[|merged| - 1 := TimeRange(merged[|merged| - 1].start, Max(merged[|merged| - 1].end, r.end))]
    else merged + [r]
  }

  function MergeSorted(merged: seq<TimeRange>, rest: seq<TimeRange>): seq<TimeRange>
    decreases rest
  {
    if rest == [] then merged else MergeSorted(Absorb(merged, rest[0]), rest[1..])
  }

  function Merge(ranges: seq<TimeRange>): seq<TimeRange> {
    MergeSorted([], SortByStart(ranges))
  }

  method MergeMissing(ranges: seq<TimeRange>) returns (merged: seq<TimeRange>)
    ensures merged == Merge(ranges)
    ensures NonEmpty(ranges) ==> Normal(merged) && forall p :: Covers(merged, p) <==> Covers(ranges, p)
  {
    var sorted := SortByStart(ranges);
    merged := [];
    for i := 0 to |sorted|
      invariant MergeSorted(merged, sorted[i..]) == Merge(ranges)
    {
      var range := sorted[i];
      assert sorted[i..][1..] == sorted[i + 1..];
      if merged != [] && range.start <= merged[|merged| - 1].end {
        var last := merged[|merged| - 1];
        merged := merged[|merged| - 1 := last.(end := if range.end > last.end then range.end else last.end)];
      } else {
        merged := merged + [range];
      }
    }
    if NonEmpty(ranges) { MergeIsNormalForm(ranges); }
  }

  lemma SameElementsCover(a: seq<TimeRange>, b: seq<TimeRange>)
    requires multiset(a) == multiset(b)
    ensures NonEmpty(a) ==> NonEmpty(b)
    ensures forall p :: Covers(a, p) ==> Covers(b, p)
  {
    forall p | Covers(a, p) ensures Covers(b, p) {
      var i :| 0 <= i < |a| && a[i].start <= p < a[i].end;
      assert a[i] in multiset(a);
      assert a[i] in b;
    }
    if NonEmpty(a) {
      forall j | 0 <= j < |b| ensures b[j].start < b[j].end {
        assert b[j] in multiset(b);
        assert b[j] in a;
      }
    }
  }

  lemma AbsorbSpec(merged: seq<TimeRange>, r: TimeRange)
    requires Normal(merged) && r.start < r.end
    requires forall i :: 0 <= i < |merged| ==> merged[i].start <= r.start
    ensures Normal(Absorb(merged, r))
    ensures forall i :: 0 <= i < |Absorb(merged, r)| ==> Absorb(merged, r)[i].start <= r.start
    ensures forall p :: Covers(Absorb(merged, r), p) <==> Covers(merged, p) || r.start <= p < r.end
  {
    var out := Absorb(merged, r);
    var n := |merged|;
    forall p ensures Covers(out, p) <==> Covers(merged, p) || r.start <= p < r.end {
      if Covers(merged, p) {
        var i :| 0 <= i < n && merged[i].start <= p < merged[i].end;
        assert out[i].start <= p < out[i].end;
      }
      if r.start <= p < r.end {
        assert out[|out| - 1].start <= p < out[|out| - 1].end;
      }
      if Covers(out, p) {
        var i :| 0 <= i < |out| && out[i].start <= p < out[i].end;
        if i < n && !(merged[i].start <= p < merged[i].end) { assert i == n - 1; }
      }
    }
  }

  lemma {:induction false} MergeSortedSpec(merged: seq<TimeRange>, rest: seq<TimeRange>)
    requires Normal(merged) && NonEmpty(rest) && SortedByStart(rest)
    requires forall i, j :: 0 <= i < |merged| && 0 <= j < |rest| ==> merged[i].start <= rest[j].start
    ensures Normal(MergeSorted(merged, rest))
    ensures forall p :: Covers(MergeSorted(merged, rest), p) <==> Covers(merged, p) || Covers(rest, p)
    decreases rest
  {
    if rest != [] {
      AbsorbSpec(merged, rest[0]);
      MergeSortedSpec(Absorb(merged, rest[0]), rest[1..]);
      forall p ensures Covers(rest, p) <==> rest[0].start <= p < rest[0].end || Covers(rest[1..], p) {
        if Covers(rest, p) {
          var i :| 0 <= i < |rest| && rest[i].start <= p < rest[i].end;
          if i > 0 { assert rest[1..][i - 1] == rest[i]; }
        }
        if Covers(rest[1..], p) {
          var i :| 0 <= i < |rest[1..]| && rest[1..][i].start <= p < rest[1..][i].end;
          assert rest[i + 1] == rest[1..][i];
        }
      }
    }
  }

  /** The ledger is sorted, its ranges do not touch, and it covers exactly the missing instants. */
  lemma MergeIsNormalForm(ranges: seq<TimeRange>)
    requires NonEmpty(ranges)
    ensures Normal(Merge(ranges))
    ensures forall p :: Covers(Merge(ranges), p) <==> Covers(ranges, p)
  {
    SortOrders(StartsNoLater, ranges);
    SameElementsCover(ranges, SortByStart(ranges));
    SameElementsCover(SortByStart(ranges), ranges);
    MergeSortedSpec([], SortByStart(ranges));
  }

  /** The first range of a normal form is determined by the covered instants. */
  lemma FirstRangeDetermined(a: seq<TimeRange>, b: seq<TimeRange>)
    requires Normal(a) && Normal(b) && a != []
    requires forall p :: Covers(a, p) <==> Covers(b, p)
    ensures b != [] && b[0].start == a[0].start && b[0].end == a[0].end
  {
    assert Covers(a, a[0].start);
    var j :| 0 <= j < |b| && b[j].start <= a[0].start < b[j].end;
    assert Covers(b, b[0].start);
    var i :| 0 <= i < |a| && a[i].start <= b[0].start < a[i].end;
    assert !Covers(a, a[0].end) && !Covers(b, b[0].end);
    assert !(b[0].start <= a[0].end < b[0].end) && !(a[0].start <= b[0].end < a[0].end);
  }

  /** Two normal forms covering the same instants are the same ledger. */
  lemma {:induction false} NormalFormUnique(a: seq<TimeRange>, b: seq<TimeRange>)
    requires Normal(a) && Normal(b)
    requires forall p :: Covers(a, p) <==> Covers(b, p)
    ensures a == b
  {
    if a == [] {
      if b != [] { assert Covers(b, b[0].start); }
    } else {
      FirstRangeDetermined(a, b);
      forall p ensures Covers(a[1..], p) <==> Covers(b[1..], p) {
        TailCovers(a, p);
        TailCovers(b, p);
      }
      NormalFormUnique(a[1..], b[1..]);
      assert a == [a[0]] + a[1..] && b == [b[0]] + b[1..];
    }
  }

  lemma TailCovers(a: seq<TimeRange>, p: Instant)
    requires Normal(a) && a != []
    ensures Covers(a[1..], p) <==> Covers(a, p) && p >= a[0].end
  {
    if Covers(a[1..], p) {
      var i :| 0 <= i < |a[1..]| && a[1..][i].start <= p < a[1..][i].end;
      assert a[i + 1] == a[1..][i];
    }
    if Covers(a, p) && p >= a[0].end {
      var i :| 0 <= i < |a| && a[i].start <= p < a[i].end;
      assert a[1..][i - 1] == a[i];
    }
  }
}
