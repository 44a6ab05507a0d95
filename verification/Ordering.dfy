/** Stable sorting by an order given as a function, and the order of texts. */
module Ordering {
  ghost predicate TotalPreorder<T(!new)>(leq: (T, T) -> bool) {
    && (forall a, b :: leq(a, b) || leq(b, a))
    && (forall a, b, c :: leq(a, b) && leq(b, c) ==> leq(a, c))
  }

  ghost predicate SortedBy<T>(leq: (T, T) -> bool, s: seq<T>) {
    forall i, j :: 0 <= i < j < |s| ==> leq(s[i], s[j])
  }

  function InsertBy<T>(leq: (T, T) -> bool, x: T, sorted: seq<T>): seq<T> {
    if sorted == [] || leq(x, sorted[0]) then [x] + sorted else [sorted[0]] + InsertBy(leq, x, sorted[1..])
  }

  function SortBy<T>(leq: (T, T) -> bool, s: seq<T>): seq<T> {
    if s == [] then [] else InsertBy(leq, s[0], SortBy(leq, s[1..]))
  }

  lemma {:induction false} InsertKeeps<T>(leq: (T, T) -> bool, x: T, sorted: seq<T>)
    ensures multiset(InsertBy(leq, x, sorted)) == multiset(sorted) + multiset{x}
  {
    if !(sorted == [] || leq(x, sorted[0])) {
      InsertKeeps(leq, x, sorted[1..]);
      assert sorted == [sorted[0]] + sorted[1..];
    }
  }

  lemma {:induction false} InsertSorts<T(!new)>(leq: (T, T) -> bool, x: T, sorted: seq<T>)
    requires TotalPreorder(leq) && SortedBy(leq, sorted)
    ensures SortedBy(leq, InsertBy(leq, x, sorted))
  {
    if sorted == [] {
    } else if leq(x, sorted[0]) {
      forall j | 0 <= j < |sorted| ensures leq(x, sorted[j]) {
        if j > 0 { assert leq(sorted[0], sorted[j]); }
      }
    } else {
      var rest := InsertBy(leq, x, sorted[1..]);
      InsertSorts(leq, x, sorted[1..]);
      InsertKeeps(leq, x, sorted[1..]);
      forall j | 0 <= j < |rest| ensures leq(sorted[0], rest[j]) {
        assert rest[j] in multiset(rest);
        if rest[j] != x {
          assert rest[j] in sorted[1..];
          var k :| 0 <= k < |sorted[1..]| && sorted[1..][k] == rest[j];
          assert leq(sorted[0], sorted[k + 1]);
        }
      }
    }
  }

  lemma {:induction false} SortRearranges<T>(leq: (T, T) -> bool, s: seq<T>)
    ensures multiset(SortBy(leq, s)) == multiset(s)
  {
    if s != [] {
      SortRearranges(leq, s[1..]);
      InsertKeeps(leq, s[0], SortBy(leq, s[1..]));
      assert s == [s[0]] + s[1..];
    }
  }

  /** Sorting rearranges into order. */
  lemma {:induction false} SortOrders<T(!new)>(leq: (T, T) -> bool, s: seq<T>)
    requires TotalPreorder(leq)
    ensures SortedBy(leq, SortBy(leq, s)) && multiset(SortBy(leq, s)) == multiset(s)
  {
    SortRearranges(leq, s);
    if s != [] {
      SortOrders(leq, s[1..]);
      InsertSorts(leq, s[0], SortBy(leq, s[1..]));
    }
  }

  lemma SortKeeps<T>(leq: (T, T) -> bool, s: seq<T>)
    ensures forall x :: x in SortBy(leq, s) <==> x in s
  {
    SortRearranges(leq, s);
    assert forall x :: x in SortBy(leq, s) <==> x in multiset(SortBy(leq, s));
    assert forall x :: x in s <==> x in multiset(s);
  }

  lemma SortOne<T>(leq: (T, T) -> bool, x: T)
    ensures SortBy(leq, [x]) == [x]
  {
    assert [x][1..] == [] && SortBy(leq, []) == [] && InsertBy(leq, x, []) == [x];
  }

  /** Texts in dictionary order of their characters. */
  predicate TextLeq(a: string, b: string) {
    a == [] || (b != [] && (a[0] < b[0] || (a[0] == b[0] && TextLeq(a[1..], b[1..]))))
  }

  lemma {:induction false} TextTotal(a: string, b: string)
    ensures TextLeq(a, b) || TextLeq(b, a)
    ensures TextLeq(a, b) && TextLeq(b, a) ==> a == b
  {
    if a != [] && b != [] {
      TextTotal(a[1..], b[1..]);
      assert a == [a[0]] + a[1..] && b == [b[0]] + b[1..];
    }
  }

  lemma {:induction false} TextTransitive(a: string, b: string, c: string)
    requires TextLeq(a, b) && TextLeq(b, c)
    ensures TextLeq(a, c)
  {
    if a != [] && a[0] == b[0] == c[0] { TextTransitive(a[1..], b[1..], c[1..]); }
  }

  lemma TextOrder()
    ensures TotalPreorder(TextLeq)
  {
    forall a, b ensures TextLeq(a, b) || TextLeq(b, a) { TextTotal(a, b); }
    forall a, b, c | TextLeq(a, b) && TextLeq(b, c) ensures TextLeq(a, c) { TextTransitive(a, b, c); }
  }
}
