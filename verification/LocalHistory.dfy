/** Validation of a locally collected session: strings are compared, instants are counted. */
module LocalHistory {
  import opened Market
  import opened Ordering

  datatype SessionPlan = SessionPlan(start: Instant, end: Instant, expectedBars: int)

  datatype Validation = Validation(actualBars: nat, firstTimestamp: Option<string>, lastTimestamp: Option<string>,
                                   duplicateTimestamps: seq<string>, outOfRangeTimestamps: seq<string>,
                                   missing: seq<Instant>, denseSession: bool, structurallyValid: bool)

  /** `Date.parse`: no instant for text that is not a date; different texts may name one instant. */
  type Parse = string -> Option<Instant>

  function GridPoint(start: Instant, i: int): Instant { start + i * 60_000 }

  function Duplicates(timestamps: seq<string>): seq<string> {
    if timestamps == [] then []
    else
      var n := |timestamps| - 1;
      Duplicates(timestamps[..n]) + (if timestamps[n] in timestamps[..n] then [timestamps[n]] else [])
  }

  predicate InPlan(plan: SessionPlan, at: Option<Instant>) {
    at.Some? && plan.start <= at.value < plan.end
  }

  function OutOfRange(plan: SessionPlan, timestamps: seq<string>, parse: Parse): seq<string> {
    if timestamps == [] then []
    else (if InPlan(plan, parse(timestamps[0])) then [] else [timestamps[0]]) + OutOfRange(plan, timestamps[1..], parse)
  }

  function Epochs(timestamps: seq<string>, parse: Parse): set<Option<Instant>> {
    set i | 0 <= i < |timestamps| :: parse(timestamps[i])
  }

  /** The grid points of the first `n` minutes that no bar names. */
  function Missing(start: Instant, n: nat, epochs: set<Option<Instant>>): seq<Instant> {
    if n == 0 then []
    else Missing(start, n - 1, epochs) + (if Some(GridPoint(start, n - 1)) in epochs then []
                                          else [GridPoint(start, n - 1)])
  }

  function Validated(plan: SessionPlan, timestamps: seq<string>, parse: Parse): Validation {
    var duplicates, outside := Duplicates(timestamps), OutOfRange(plan, timestamps, parse);
    var missing := Missing(plan.start, Max(plan.expectedBars, 0), Epochs(timestamps, parse));
    Validation(|timestamps|, First(timestamps), Last(timestamps), duplicates, outside, missing,
               |timestamps| == plan.expectedBars && missing == [],
               duplicates == [] && outside == [] && |timestamps| + |missing| == plan.expectedBars)
  }

  /** The least text, unless it is empty. */
  function First(timestamps: seq<string>): Option<string> {
    var sorted := SortBy(TextLeq, timestamps);
    if sorted == [] || sorted[0] == "" then None else Some(sorted[0])
  }

  /** The greatest text, unless it is empty. */
  function Last(timestamps: seq<string>): Option<string> {
    var sorted := SortBy(TextLeq, timestamps);
    if sorted == [] || sorted[|sorted| - 1] == "" then None else Some(sorted[|sorted| - 1])
  }

  /** Every text of the session lies between the ends of its sorted list, which are texts of the session. */
  lemma {:induction false} SortedEnds(timestamps: seq<string>, t: string)
    requires t in timestamps
    ensures var sorted := SortBy(TextLeq, timestamps);
            && sorted != [] && sorted[0] in timestamps && sorted[|sorted| - 1] in timestamps
            && TextLeq(sorted[0], t) && TextLeq(t, sorted[|sorted| - 1])
  {
    var sorted := SortBy(TextLeq, timestamps);
    TextOrder();
    SortOrders(TextLeq, timestamps);
    SortKeeps(TextLeq, timestamps);
    EndsBound(sorted, t);
  }

  lemma {:induction false} EndsBound(sorted: seq<string>, t: string)
    requires SortedBy(TextLeq, sorted) && t in sorted
    ensures sorted[0] in sorted && sorted[|sorted| - 1] in sorted
    ensures TextLeq(sorted[0], t) && TextLeq(t, sorted[|sorted| - 1])
  {
    var k :| 0 <= k < |sorted| && sorted[k] == t;
    TextTotal(t, t);
  }

  /** The first and the last timestamp of the report bound every other; an empty text hides the first one. */
  lemma FirstAndLastBound(timestamps: seq<string>, t: string)
    requires t in timestamps && t != ""
    ensures Last(timestamps).Some? && Last(timestamps).value in timestamps && TextLeq(t, Last(timestamps).value)
    ensures First(timestamps).Some? <==> "" !in timestamps
    ensures First(timestamps).Some? ==>
              First(timestamps).value in timestamps && TextLeq(First(timestamps).value, t)
  {
    SortedEnds(timestamps, t);
    if "" in timestamps { SortedEnds(timestamps, ""); }
  }

  method ValidateRegularSession(plan: SessionPlan, timestamps: seq<string>, parse: Parse) returns (result: Validation)
    ensures result == Validated(plan, timestamps, parse)
  {
    var seen: set<string> := {};
    var duplicates: seq<string> := [];
    for i := 0 to |timestamps|
      invariant forall t :: t in seen <==> t in timestamps[..i]
      invariant duplicates == Duplicates(timestamps[..i])
    {
      assert timestamps[..i + 1][..i] == timestamps[..i];
      if timestamps[i] in seen { duplicates := duplicates + [timestamps[i]]; }
      seen := seen + {timestamps[i]};
    }
    assert timestamps[..|timestamps|] == timestamps;
    var outside := OutOfRange(plan, timestamps, parse);
    var missing := Missing(plan.start, Max(plan.expectedBars, 0), Epochs(timestamps, parse));
    result := Validation(|timestamps|, First(timestamps), Last(timestamps), duplicates, outside, missing,
                         |timestamps| == plan.expectedBars && |missing| == 0,
                         |duplicates| == 0 && |outside| == 0 && |timestamps| + |missing| == plan.expectedBars);
  }

  // What the report says.

  /** A text that occurs n times is reported as a duplicate n - 1 times. */
  lemma {:induction false} DuplicatesCount(timestamps: seq<string>, t: string)
    ensures multiset(Duplicates(timestamps))[t] == if t in timestamps then multiset(timestamps)[t] - 1 else 0
  {
    if timestamps != [] {
      var n := |timestamps| - 1;
      DuplicatesCount(timestamps[..n], t);
      assert timestamps == timestamps[..n] + [timestamps[n]];
      assert t in timestamps[..n] <==> multiset(timestamps[..n])[t] > 0;
    }
  }

  /** A text is reported out of range as often as it occurs, if it names no instant of the plan, and else never. */
  lemma {:induction false} OutOfRangeCount(plan: SessionPlan, timestamps: seq<string>, parse: Parse, t: string)
    ensures multiset(OutOfRange(plan, timestamps, parse))[t]
         == if parse(t).Some? && plan.start <= parse(t).value < plan.end then 0 else multiset(timestamps)[t]
  {
    if timestamps != [] {
      OutOfRangeCount(plan, timestamps[1..], parse, t);
      assert timestamps == [timestamps[0]] + timestamps[1..];
    }
  }

  ghost predicate Ascending(instants: seq<Instant>) {
    forall i, j :: 0 <= i < j < |instants| ==> instants[i] < instants[j]
  }

  lemma {:induction false} MissingAscends(start: Instant, n: nat, epochs: set<Option<Instant>>)
    ensures Ascending(Missing(start, n, epochs))
  {
    if n > 0 {
      var rest := Missing(start, n - 1, epochs);
      MissingAscends(start, n - 1, epochs);
      MissingCount(start, n - 1, epochs);
      forall i | 0 <= i < |rest| ensures rest[i] < GridPoint(start, n - 1) { assert rest[i] in rest; }
    }
  }

  /** Which minutes are reported missing: those of the grid that no text names, in order. */
  ghost predicate MinutesWithoutBar(plan: SessionPlan, timestamps: seq<string>, parse: Parse, missing: seq<Instant>) {
    && Ascending(missing)
    && forall at :: at in missing <==>
         && plan.start <= at < plan.start + 60_000 * plan.expectedBars && (at - plan.start) % 60_000 == 0
         && forall t :: t in timestamps ==> parse(t) != Some(at)
  }

  lemma MissingMinutes(plan: SessionPlan, timestamps: seq<string>, parse: Parse)
    ensures MinutesWithoutBar(plan, timestamps, parse, Validated(plan, timestamps, parse).missing)
  {
    var n, epochs := Max(plan.expectedBars, 0), Epochs(timestamps, parse);
    MissingCount(plan.start, n, epochs);
    MissingAscends(plan.start, n, epochs);
    assert forall i :: 0 <= i < |timestamps| ==> timestamps[i] in timestamps;
    forall t | t in timestamps ensures parse(t) in epochs {
      var i :| 0 <= i < |timestamps| && timestamps[i] == t;
    }
  }

  /** The report of a session: how many bars, which texts are repeated and which are out of the plan, and which minutes
      no bar names. */
  lemma ReportSays(plan: SessionPlan, timestamps: seq<string>, parse: Parse)
    ensures var v := Validated(plan, timestamps, parse);
            && v.actualBars == |timestamps|
            && v.firstTimestamp == First(timestamps) && v.lastTimestamp == Last(timestamps)
            && (forall t :: multiset(v.duplicateTimestamps)[t]
                  == if t in timestamps then multiset(timestamps)[t] - 1 else 0)
            && (forall t :: multiset(v.outOfRangeTimestamps)[t]
                  == if parse(t).Some? && plan.start <= parse(t).value < plan.end then 0 else multiset(timestamps)[t])
            && MinutesWithoutBar(plan, timestamps, parse, v.missing)
  {
    MissingMinutes(plan, timestamps, parse);
    forall t { DuplicatesCount(timestamps, t); }
    forall t { OutOfRangeCount(plan, timestamps, parse, t); }
  }

  // What the counts mean.

  predicate OnGrid(start: Instant, n: nat, at: Option<Instant>) {
    at.Some? && start <= at.value < GridPoint(start, n) && (at.value - start) % 60_000 == 0
  }

  ghost predicate DistinctInstants(timestamps: seq<string>, parse: Parse) {
    forall i, j :: 0 <= i < j < |timestamps| ==> parse(timestamps[i]) != parse(timestamps[j])
  }

  ghost predicate AllOnGrid(plan: SessionPlan, timestamps: seq<string>, parse: Parse) {
    forall i :: 0 <= i < |timestamps| ==> OnGrid(plan.start, Max(plan.expectedBars, 0), parse(timestamps[i]))
  }

  lemma EpochsAppend(timestamps: seq<string>, parse: Parse)
    requires timestamps != []
    ensures var n := |timestamps| - 1;
            Epochs(timestamps, parse) == Epochs(timestamps[..n], parse) + {parse(timestamps[n])}
  {
    var n := |timestamps| - 1;
    var all, some := Epochs(timestamps, parse), Epochs(timestamps[..n], parse);
    forall e | e in all ensures e in some || e == parse(timestamps[n]) {
      var i :| 0 <= i < |timestamps| && parse(timestamps[i]) == e;
      if i < n { assert timestamps[..n][i] == timestamps[i]; }
    }
    forall e | e in some ensures e in all {
      var i :| 0 <= i < n && parse(timestamps[..n][i]) == e;
      assert timestamps[i] == timestamps[..n][i];
    }
  }

  lemma DistinctAppend(timestamps: seq<string>, parse: Parse)
    requires timestamps != []
    ensures var n := |timestamps| - 1;
            DistinctInstants(timestamps, parse)
            <==> DistinctInstants(timestamps[..n], parse) && parse(timestamps[n]) !in Epochs(timestamps[..n], parse)
  {
    var n := |timestamps| - 1;
    var front := timestamps[..n];
    assert forall i :: 0 <= i < n ==> front[i] == timestamps[i];
    assert forall i :: 0 <= i < n ==> parse(front[i]) in Epochs(front, parse);
  }

  /** Instants can only be fewer than texts, and are as many exactly when no two texts name one instant. */
  lemma {:induction false} EpochCount(timestamps: seq<string>, parse: Parse)
    ensures |Epochs(timestamps, parse)| <= |timestamps|
    ensures |Epochs(timestamps, parse)| == |timestamps| <==> DistinctInstants(timestamps, parse)
  {
    if timestamps == [] {
      assert Epochs(timestamps, parse) == {};
    } else {
      var n := |timestamps| - 1;
      EpochCount(timestamps[..n], parse);
      EpochsAppend(timestamps, parse);
      DistinctAppend(timestamps, parse);
      if parse(timestamps[n]) in Epochs(timestamps[..n], parse) {
        assert Epochs(timestamps, parse) == Epochs(timestamps[..n], parse);
      }
    }
  }

  function OnGridOf(start: Instant, n: nat, epochs: set<Option<Instant>>): set<Option<Instant>> {
    set e | e in epochs && OnGrid(start, n, e)
  }

  lemma GridStep(start: Instant, n: nat, at: Option<Instant>)
    requires n > 0
    ensures OnGrid(start, n, at) <==> OnGrid(start, n - 1, at) || at == Some(GridPoint(start, n - 1))
  {
  }

  /** Every grid point is either named or missing. */
  lemma {:induction false} MissingCount(start: Instant, n: nat, epochs: set<Option<Instant>>)
    ensures |Missing(start, n, epochs)| + |OnGridOf(start, n, epochs)| == n
    ensures forall at :: at in Missing(start, n, epochs) <==> OnGrid(start, n, Some(at)) && Some(at) !in epochs
  {
    if n == 0 {
      assert OnGridOf(start, n, epochs) == {};
    } else {
      MissingCount(start, n - 1, epochs);
      var point := Some(GridPoint(start, n - 1));
      forall e { GridStep(start, n, e); }
      var before, after := OnGridOf(start, n - 1, epochs), OnGridOf(start, n, epochs);
      assert !OnGrid(start, n - 1, point);
      assert after == if point in epochs then before + {point} else before;
    }
  }

  lemma SubsetCount<T>(a: set<T>, b: set<T>)
    requires a <= b
    ensures |a| <= |b| && (|a| == |b| <==> a == b)
  {
    assert b == a + (b - a);
    assert |b| == |a| + |b - a|;
  }

  lemma {:induction false} DistinctTexts(timestamps: seq<string>, parse: Parse)
    requires DistinctInstants(timestamps, parse)
    ensures Duplicates(timestamps) == []
  {
    if timestamps != [] {
      var n := |timestamps| - 1;
      assert forall i :: 0 <= i < n ==> timestamps[..n][i] == timestamps[i];
      DistinctTexts(timestamps[..n], parse);
      assert forall i :: 0 <= i < n ==> parse(timestamps[i]) != parse(timestamps[n]);
    }
  }

  lemma {:induction false} OutOfRangeSpec(plan: SessionPlan, timestamps: seq<string>, parse: Parse)
    ensures OutOfRange(plan, timestamps, parse) == [] <==> forall t :: t in timestamps ==> InPlan(plan, parse(t))
  {
    if timestamps != [] {
      OutOfRangeSpec(plan, timestamps[1..], parse);
      assert timestamps == [timestamps[0]] + timestamps[1..];
      assert timestamps[0] in timestamps;
    }
  }

  /** The one equation that is counted says everything: the bars are as many as the grid points that are not
      missing if and only if every bar sits on the grid and no two share an instant. */
  lemma CountsAreExact(plan: SessionPlan, timestamps: seq<string>, parse: Parse)
    ensures |timestamps| + |Validated(plan, timestamps, parse).missing| == plan.expectedBars
       <==> plan.expectedBars >= 0 && AllOnGrid(plan, timestamps, parse) && DistinctInstants(timestamps, parse)
  {
    var n, epochs := Max(plan.expectedBars, 0), Epochs(timestamps, parse);
    var hits := OnGridOf(plan.start, n, epochs);
    MissingCount(plan.start, n, epochs);
    EpochCount(timestamps, parse);
    SubsetCount(hits, epochs);
    assert forall i :: 0 <= i < |timestamps| ==> parse(timestamps[i]) in epochs;
    if AllOnGrid(plan, timestamps, parse) {
      assert hits == epochs;
    }
    if hits == epochs {
      forall i | 0 <= i < |timestamps| ensures OnGrid(plan.start, n, parse(timestamps[i])) {
        assert parse(timestamps[i]) in hits;
      }
    }
  }

  /** Validation by counting is exact, whatever the plan: a session is structurally valid if and only if its
      bars name pairwise distinct instants, all on the minute grid and before the planned end. */
  lemma StructurallyValidIff(plan: SessionPlan, timestamps: seq<string>, parse: Parse)
    ensures Validated(plan, timestamps, parse).structurallyValid
       <==> plan.expectedBars >= 0 && AllOnGrid(plan, timestamps, parse) && DistinctInstants(timestamps, parse)
            && forall t :: t in timestamps ==> InPlan(plan, parse(t))
  {
    CountsAreExact(plan, timestamps, parse);
    OutOfRangeSpec(plan, timestamps, parse);
    if DistinctInstants(timestamps, parse) { DistinctTexts(timestamps, parse); }
  }

  /** In a structurally valid session every grid point is a bar or is missing, never both, and nothing else
      is either. */
  lemma BarsAndMissingPartition(plan: SessionPlan, timestamps: seq<string>, parse: Parse,
                                at: Instant)
    requires Validated(plan, timestamps, parse).structurallyValid
    ensures var bar, missing := Some(at) in Epochs(timestamps, parse), at in Validated(plan, timestamps, parse).missing;
            && !(bar && missing)
            && (bar || missing <==> OnGrid(plan.start, plan.expectedBars, Some(at)))
  {
    StructurallyValidIff(plan, timestamps, parse);
    MissingCount(plan.start, plan.expectedBars, Epochs(timestamps, parse));
    if Some(at) in Epochs(timestamps, parse) {
      var i :| 0 <= i < |timestamps| && parse(timestamps[i]) == Some(at);
    }
  }

  /** A dense session is a structurally valid one with nothing missing, provided the planned end is not before
      the end of the grid, as in every plan the collector makes. */
  lemma DenseIff(plan: SessionPlan, timestamps: seq<string>, parse: Parse)
    requires GridPoint(plan.start, plan.expectedBars) <= plan.end
    ensures var v := Validated(plan, timestamps, parse); v.denseSession <==> v.structurallyValid && v.missing == []
  {
    CountsAreExact(plan, timestamps, parse);
    StructurallyValidIff(plan, timestamps, parse);
    if Validated(plan, timestamps, parse).denseSession {
      forall t | t in timestamps ensures InPlan(plan, parse(t)) {
        var i :| 0 <= i < |timestamps| && timestamps[i] == t;
        assert OnGrid(plan.start, plan.expectedBars, parse(timestamps[i]));
      }
    }
  }
}
