/** Local evidence: a validated session, split by chunk into a provider page and acknowledged absences. */
module LocalEvidence {
  import opened Market
  import opened BarNormalization
  import opened Executor
  import opened LocalHistory

  const SYMBOL := "NVDA"

  datatype EvidenceSession = EvidenceSession(marketDate: string, coverageKey: string, providerRevision: string,
                                             plan: SessionPlan, bars: seq<SourceBar>)

  predicate StartsIn(bar: SourceBar, range: TimeRange) {
    bar.timestamp.Some? && range.start <= bar.timestamp.value < range.end
  }

  function PageOf(bars: seq<SourceBar>, range: TimeRange): seq<SourceBar> {
    if bars == [] then []
    else (if StartsIn(bars[0], range) then [bars[0]] else []) + PageOf(bars[1..], range)
  }

  /** The evidence as a provider: one page, never beyond the frozen session. */
  function FetchPage(session: EvidenceSession, symbol: string, range: TimeRange): Result<seq<SourceBar>> {
    if symbol != SYMBOL then Err(UnrequestedSymbol)
    else if range.start >= range.end then Err(InvalidEvidenceRange)
    else if range.start < session.plan.start || range.end > session.plan.end then Err(BeyondFrozenSession)
    else Ok(PageOf(session.bars, range))
  }

  /** The evidence answers requests for its one symbol over a non-empty range inside the frozen session, with the bars
      that start there. */
  lemma FetchPageIff(session: EvidenceSession, symbol: string, range: TimeRange)
    ensures FetchPage(session, symbol, range).Ok?
       <==> symbol == "NVDA" && session.plan.start <= range.start < range.end <= session.plan.end
    ensures FetchPage(session, symbol, range).Ok? ==>
              forall b :: multiset(FetchPage(session, symbol, range).value)[b]
                 == if b.timestamp.Some? && range.start <= b.timestamp.value < range.end then multiset(session.bars)[b]
                    else 0
  {
    forall b { PageKeeps(session.bars, range, b); }
  }

  lemma {:induction false} PageKeeps(bars: seq<SourceBar>, range: TimeRange, b: SourceBar)
    ensures multiset(PageOf(bars, range))[b] == if StartsIn(b, range) then multiset(bars)[b] else 0
  {
    if bars != [] {
      PageKeeps(bars[1..], range, b);
      assert bars == [bars[0]] + bars[1..];
    }
  }

  function Between(absences: seq<Absence>, range: TimeRange): seq<Absence> {
    if absences == [] then []
    else
      var n := |absences| - 1;
      Between(absences[..n], range)
      + (if range.start <= absences[n].identityStart < range.end then [absences[n]] else [])
  }

  function AbsencesForRange(absences: seq<Absence>, range: TimeRange): Result<seq<Absence>> {
    if range.start >= range.end then Err(InvalidEvidenceRange) else Ok(Between(absences, range))
  }

  /** Absences are split by non-empty ranges only, and those of a range are the ones that start in it. */
  lemma AbsencesForRangeIff(absences: seq<Absence>, range: TimeRange)
    ensures AbsencesForRange(absences, range).Ok? <==> range.start < range.end
    ensures AbsencesForRange(absences, range).Ok? ==>
              forall a :: multiset(AbsencesForRange(absences, range).value)[a]
                 == if range.start <= a.identityStart < range.end then multiset(absences)[a] else 0
  {
    forall a { BetweenKeeps(absences, range, a); }
  }

  lemma {:induction false} BetweenKeeps(absences: seq<Absence>, range: TimeRange, a: Absence)
    ensures multiset(Between(absences, range))[a]
         == if range.start <= a.identityStart < range.end then multiset(absences)[a] else 0
  {
    if absences != [] {
      var n := |absences| - 1;
      BetweenKeeps(absences[..n], range, a);
      assert absences == absences[..n] + [absences[n]];
    }
  }

  /** The coverage absences of parsed evidence: one for each missing minute, in order. */
  function AbsencesFor(missing: seq<Instant>): (r: seq<Absence>)
    ensures |r| == |missing|
  {
    seq(|missing|, i requires 0 <= i < |missing| => Absence(SYMBOL, missing[i], true))
  }

  /** The instants the bars name. */
  function Instants(bars: seq<SourceBar>): set<Option<Instant>> {
    set i | 0 <= i < |bars| :: bars[i].timestamp
  }

  /** Bars that validation let through: well-formed, of the symbol, on the minute grid, no instant twice. */
  ghost predicate GoodBars(bars: seq<SourceBar>, start: Instant, n: nat) {
    && (forall i :: 0 <= i < |bars| ==>
          bars[i].symbol == SYMBOL && bars[i].fault.None? && OnGrid(start, n, bars[i].timestamp))
    && (forall i, j :: 0 <= i < j < |bars| ==> bars[i].timestamp != bars[j].timestamp)
  }

  /** The texts the bars carry and the instants they denote. */
  ghost predicate TextsOf(texts: seq<string>, parse: Parse, bars: seq<SourceBar>) {
    |texts| == |bars| && forall i :: 0 <= i < |texts| ==> bars[i].timestamp == parse(texts[i])
  }

  lemma ValidatedBarsAreGood(plan: SessionPlan, texts: seq<string>, parse: Parse,
                             bars: seq<SourceBar>)
    requires TextsOf(texts, parse, bars) && Validated(plan, texts, parse).structurallyValid
    requires forall i :: 0 <= i < |bars| ==> bars[i].symbol == SYMBOL && bars[i].fault.None?
    ensures plan.expectedBars >= 0 && GoodBars(bars, plan.start, plan.expectedBars)
    ensures Epochs(texts, parse) == Instants(bars)
  {
    StructurallyValidIff(plan, texts, parse);
    var a, b := Epochs(texts, parse), Instants(bars);
    forall e | e in a ensures e in b {
      var i :| 0 <= i < |texts| && parse(texts[i]) == e;
      assert bars[i].timestamp == e;
    }
    forall e | e in b ensures e in a {
      var i :| 0 <= i < |bars| && bars[i].timestamp == e;
      assert parse(texts[i]) == e;
    }
  }

  // One chunk: minutes `m` to `m + n` of the session.

  function Minutes(start: Instant, m: nat, n: nat): TimeRange {
    TimeRange(GridPoint(start, m), GridPoint(start, m + n))
  }

  lemma {:induction false} PageSpec(bars: seq<SourceBar>, range: TimeRange)
    ensures forall b :: b in PageOf(bars, range) <==> b in bars && StartsIn(b, range)
  {
    if bars != [] {
      PageSpec(bars[1..], range);
      assert bars == [bars[0]] + bars[1..];
    }
  }

  lemma GoodTail(bars: seq<SourceBar>, start: Instant, n: nat)
    requires bars != [] && GoodBars(bars, start, n)
    ensures GoodBars(bars[1..], start, n)
    ensures forall b :: b in bars[1..] ==> b.timestamp != bars[0].timestamp
  {
    forall b | b in bars[1..] ensures b.timestamp != bars[0].timestamp {
      var i :| 0 <= i < |bars[1..]| && bars[1..][i] == b;
      assert bars[i + 1] == b;
    }
  }

  /** A page of good bars names as many instants as it has bars. */
  lemma {:induction false} PageInstants(bars: seq<SourceBar>, start: Instant, n: nat, range: TimeRange)
    requires GoodBars(bars, start, n)
    ensures |Instants(PageOf(bars, range))| == |PageOf(bars, range)|
  {
    if bars == [] {
      assert Instants([]) == {};
    } else {
      var page := PageOf(bars[1..], range);
      GoodTail(bars, start, n);
      PageInstants(bars[1..], start, n, range);
      PageSpec(bars[1..], range);
      if StartsIn(bars[0], range) {
        InstantsPrepend(bars[0], page);
      } else {
        assert PageOf(bars, range) == page;
      }
    }
  }

  lemma InstantsPrepend(b: SourceBar, page: seq<SourceBar>)
    requires forall x :: x in page ==> x.timestamp != b.timestamp
    ensures |Instants([b] + page)| == |Instants(page)| + 1
  {
    var all, rest := Instants([b] + page), Instants(page);
    assert ([b] + page)[0] == b;
    forall e | e in rest ensures e in all {
      var i :| 0 <= i < |page| && page[i].timestamp == e;
      assert ([b] + page)[i + 1] == page[i];
    }
    forall e | e in all ensures e in rest || e == b.timestamp {
      var i :| 0 <= i < |[b] + page| && ([b] + page)[i].timestamp == e;
      if i > 0 { assert page[i - 1].timestamp == e; }
    }
    assert b.timestamp !in rest;
    assert all == rest + {b.timestamp};
  }

  lemma GridShift(start: Instant, total: nat, m: nat, n: nat, at: Option<Instant>)
    requires m + n <= total
    ensures OnGrid(GridPoint(start, m), n, at)
       <==> OnGrid(start, total, at) && GridPoint(start, m) <= at.value < GridPoint(start, m + n)
  {
    if at.Some? {
      var d := at.value - start;
      assert at.value - GridPoint(start, m) == d - m * 60_000;
      assert (d - m * 60_000) % 60_000 == d % 60_000;
    }
  }

  /** The instants of the page are the named grid points of its minutes. */
  lemma PageIsGrid(bars: seq<SourceBar>, start: Instant, total: nat, m: nat, n: nat)
    requires GoodBars(bars, start, total) && m + n <= total
    ensures Instants(PageOf(bars, Minutes(start, m, n))) == OnGridOf(GridPoint(start, m), n, Instants(bars))
  {
    var page := PageOf(bars, Minutes(start, m, n));
    var a, b := Instants(page), OnGridOf(GridPoint(start, m), n, Instants(bars));
    PageSpec(bars, Minutes(start, m, n));
    forall e | e in a ensures e in b {
      var i :| 0 <= i < |page| && page[i].timestamp == e;
      assert page[i] in page;
      var k :| 0 <= k < |bars| && bars[k] == page[i];
      GridShift(start, total, m, n, e);
    }
    forall e | e in b ensures e in a {
      var k :| 0 <= k < |bars| && bars[k].timestamp == e;
      GridShift(start, total, m, n, e);
      assert bars[k] in page;
      var i :| 0 <= i < |page| && page[i] == bars[k];
    }
  }

  /** Bars of the page and missing minutes of the chunk add up to its minutes. */
  lemma PageCount(bars: seq<SourceBar>, start: Instant, total: nat, m: nat, n: nat)
    requires GoodBars(bars, start, total) && m + n <= total
    ensures |PageOf(bars, Minutes(start, m, n))| + |Missing(GridPoint(start, m), n, Instants(bars))| == n
  {
    PageInstants(bars, start, total, Minutes(start, m, n));
    PageIsGrid(bars, start, total, m, n);
    MissingCount(GridPoint(start, m), n, Instants(bars));
  }

  /** How filtering extends by one more grid point, named by a bar or not. */
  lemma BetweenStep(before: seq<Instant>, point: Instant, range: TimeRange)
    ensures Between(AbsencesFor(before + [point]), range)
         == Between(AbsencesFor(before), range)
            + (if range.start <= point < range.end then [Absence(SYMBOL, point, true)] else [])
  {
    AbsencesAppend(before, point);
    BetweenAppend(AbsencesFor(before), Absence(SYMBOL, point, true), range);
  }

  lemma MissingStep(start: Instant, n: nat, epochs: set<Option<Instant>>)
    ensures Missing(start, n + 1, epochs)
         == if Some(GridPoint(start, n)) in epochs then Missing(start, n, epochs)
            else Missing(start, n, epochs) + [GridPoint(start, n)]
  {
    assert Missing(start, n, epochs) + [] == Missing(start, n, epochs);
  }

  lemma {:induction false} NothingBefore(start: Instant, total: nat, m: nat, n: nat, epochs: set<Option<Instant>>)
    requires total <= m
    ensures Between(AbsencesFor(Missing(start, total, epochs)), Minutes(start, m, n)) == []
  {
    if total > 0 {
      NothingBefore(start, total - 1, m, n, epochs);
      MissingStep(start, total - 1, epochs);
      BetweenOutside(Missing(start, total - 1, epochs), GridPoint(start, total - 1), Minutes(start, m, n));
    }
  }

  /** A minute outside the range adds nothing. */
  lemma BetweenOutside(before: seq<Instant>, point: Instant, range: TimeRange)
    requires !(range.start <= point < range.end)
    ensures Between(AbsencesFor(before + [point]), range) == Between(AbsencesFor(before), range)
  {
    BetweenStep(before, point, range);
  }

  lemma {:induction false} MissingUpTo(start: Instant, m: nat, k: nat, n: nat, epochs: set<Option<Instant>>)
    requires k <= n
    ensures Between(AbsencesFor(Missing(start, m + k, epochs)), Minutes(start, m, n))
         == AbsencesFor(Missing(GridPoint(start, m), k, epochs))
    decreases k
  {
    if k == 0 {
      NothingBefore(start, m, m, n, epochs);
    } else {
      MissingUpTo(start, m, k - 1, n, epochs);
      assert GridPoint(GridPoint(start, m), k - 1) == GridPoint(start, m + k - 1);
      MissingStep(GridPoint(start, m), k - 1, epochs);
      AbsencesAppend(Missing(GridPoint(start, m), k - 1, epochs), GridPoint(start, m + k - 1));
      BetweenOneMore(start, m, k - 1, n, epochs);
    }
  }

  /** One more minute of the session, inside the chunk. */
  lemma BetweenOneMore(start: Instant, m: nat, k: nat, n: nat, epochs: set<Option<Instant>>)
    requires k < n
    ensures Between(AbsencesFor(Missing(start, m + k + 1, epochs)), Minutes(start, m, n))
         == Between(AbsencesFor(Missing(start, m + k, epochs)), Minutes(start, m, n))
            + (if Some(GridPoint(start, m + k)) in epochs then [] else [Absence(SYMBOL, GridPoint(start, m + k), true)])
  {
    MissingStep(start, m + k, epochs);
    BetweenStep(Missing(start, m + k, epochs), GridPoint(start, m + k), Minutes(start, m, n));
  }

  /** Filtering the session's missing minutes by a chunk gives the missing minutes of the chunk. */
  lemma {:induction false} MissingBetween(start: Instant, total: nat, m: nat, n: nat, epochs: set<Option<Instant>>)
    requires m + n <= total
    ensures Between(AbsencesFor(Missing(start, total, epochs)), Minutes(start, m, n))
         == AbsencesFor(Missing(GridPoint(start, m), n, epochs))
    decreases total
  {
    if total == m + n {
      MissingUpTo(start, m, n, n, epochs);
    } else {
      MissingBetween(start, total - 1, m, n, epochs);
      MissingStep(start, total - 1, epochs);
      BetweenStep(Missing(start, total - 1, epochs), GridPoint(start, total - 1), Minutes(start, m, n));
    }
  }

  lemma AbsencesAppend(missing: seq<Instant>, at: Instant)
    ensures AbsencesFor(missing + [at]) == AbsencesFor(missing) + [Absence(SYMBOL, at, true)]
  {
    assert (missing + [at])[..|missing|] == missing;
  }

  lemma BetweenAppend(absences: seq<Absence>, a: Absence, range: TimeRange)
    ensures Between(absences + [a], range)
         == Between(absences, range) + (if range.start <= a.identityStart < range.end then [a] else [])
  {
    assert (absences + [a])[..|absences|] == absences;
  }

  lemma {:induction false} AbsencesForSpec(missing: seq<Instant>)
    ensures |AbsencesFor(missing)| == |missing|
    ensures forall a :: a in AbsencesFor(missing) ==> a.symbol == SYMBOL && a.evidenceValid
    ensures forall at :: at in AbsenceStarts(AbsencesFor(missing)) <==> at in missing
  {
    var absences := AbsencesFor(missing);
    if missing == [] {
    } else {
      var n := |missing| - 1;
      var front := AbsencesFor(missing[..n]);
      AbsencesForSpec(missing[..n]);
      assert missing == missing[..n] + [missing[n]];
      forall at ensures at in AbsenceStarts(absences) <==> at in AbsenceStarts(front) || at == missing[n] {
        if at in AbsenceStarts(front) {
          var i :| 0 <= i < |front| && front[i].identityStart == at;
          assert absences[i].identityStart == at;
        }
        if at in AbsenceStarts(absences) {
          var i :| 0 <= i < |absences| && absences[i].identityStart == at;
          if i < n { assert front[i] == absences[i]; }
        }
        assert absences[n].identityStart == missing[n];
      }
    }
  }
}
