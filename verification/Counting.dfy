/** How many elements of a sequence have a property. */
module Counting {
  function Count<T>(s: seq<T>, p: T -> bool): nat {
    if s == [] then 0 else Count(s[..|s| - 1], p) + (if p(s[|s| - 1]) then 1 else 0)
  }

  lemma CountAppend<T>(s: seq<T>, n: nat, p: T -> bool)
    requires n < |s|
    ensures Count(s[..n + 1], p) == Count(s[..n], p) + (if p(s[n]) then 1 else 0)
  {
    assert s[..n + 1][..n] == s[..n];
  }

  lemma {:induction false} CountConcat<T>(x: seq<T>, y: seq<T>, p: T -> bool)
    ensures Count(x + y, p) == Count(x, p) + Count(y, p)
    decreases |y|
  {
    if y == [] {
      assert x + y == x;
    } else {
      var n := |y| - 1;
      assert (x + y)[..|x| + n] == x + y[..n];
      CountConcat(x, y[..n], p);
    }
  }

  /** Properties that agree place by place are counted alike. */
  lemma {:induction false} CountAlike<S, T>(s: seq<S>, p: S -> bool, t: seq<T>, q: T -> bool)
    requires |s| == |t| && forall i :: 0 <= i < |s| ==> p(s[i]) == q(t[i])
    ensures Count(s, p) == Count(t, q)
  {
    if s != [] { CountAlike(s[..|s| - 1], p, t[..|t| - 1], q); }
  }

  lemma {:induction false} NoneCounted<T>(s: seq<T>, p: T -> bool)
    requires forall i :: 0 <= i < |s| ==> !p(s[i])
    ensures Count(s, p) == 0
  {
    if s != [] { NoneCounted(s[..|s| - 1], p); }
  }

  /** Two properties no element has both of. */
  lemma {:induction false} CountEither<T>(s: seq<T>, p: T -> bool, q: T -> bool, either: T -> bool)
    requires forall i :: 0 <= i < |s| ==> !(p(s[i]) && q(s[i])) && (either(s[i]) <==> p(s[i]) || q(s[i]))
    ensures Count(s, either) == Count(s, p) + Count(s, q)
  {
    if s != [] { CountEither(s[..|s| - 1], p, q, either); }
  }

  function Places<T>(s: seq<T>, p: T -> bool): set<int> { set i | 0 <= i < |s| && p(s[i]) }

  /** The count is the number of places with the property. */
  lemma {:induction false} CountPlaces<T>(s: seq<T>, p: T -> bool)
    ensures Count(s, p) == |Places(s, p)|
  {
    if s == [] {
      assert Places(s, p) == {};
    } else {
      var n := |s| - 1;
      CountPlaces(s[..n], p);
      assert Places(s, p) == Places(s[..n], p) + (if p(s[n]) then {n} else {});
    }
  }
}
