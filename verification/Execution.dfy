/** Execution of one acquisition job: pages in, bars accepted, a new checkpoint proposed and committed. */
module Execution {
  import opened Market
  import opened SessionGrid
  import opened MissingRanges
  import opened Checkpoint
  import opened Schedule
  import opened BarNormalization

  // The proposal computed from what was served.

  function Unserved(through: Option<Instant>, bars: seq<Bar>, have: set<Instant>): seq<Bar> {
    if bars == [] then []
    else (if (through.None? || bars[0].completes > through.value) && bars[0].start !in have then [bars[0]] else [])
         + Unserved(through, bars[1..], have)
  }

  /** Move `completeThrough` over the contiguous served prefix. */
  function Advance(through: Option<Instant>, bars: seq<Bar>, have: set<Instant>): Option<Instant>
    decreases bars
  {
    if bars == [] then through
    else if through.Some? && bars[0].completes <= through.value then Advance(through, bars[1..], have)
    else if bars[0].start !in have then through
    else Advance(Some(bars[0].completes), bars[1..], have)
  }

  function RangesOf(bars: seq<Bar>): (ranges: seq<TimeRange>) {
    seq(|bars|, i requires 0 <= i < |bars| => TimeRange(bars[i].start, bars[i].completes))
  }

  /** Acknowledged absences name expected bars that were not also served. */
  predicate AbsencesFit(expected: seq<Bar>, absences: set<Instant>, starts: set<Instant>) {
    forall at :: at in absences ==> at !in starts && exists i :: 0 <= i < |expected| && expected[i].start == at
  }

  function PageVariant(route: Route, feed: string): string {
    if route == CryptoBars then "crypto:us" else "stock:" + feed + ":raw"
  }

  datatype Options = Options(feed: string, maxPages: int, maxBars: int, gapRetryDelayMs: Option<int>, attemptId: string,
                             now: Instant, dates: Dates)

  function Proposal(job: Job, g: Grid, options: Options, existing: Option<StoredCheckpoint>,
                    have: set<Instant>): StoredCheckpoint {
    var expected := Expected(g, job.requestedRange);
    var through := ThroughOf(existing);
    var missing := Unserved(through, expected, have);
    StoredCheckpoint(
      job.expectation.coverageKey, job.instrument.symbol, job.instrument.cadence, job.sessionScope,
      PageVariant(job.instrument.route, options.feed),
      Advance(through, expected, have),
      if missing == [] then Complete else Partial,
      Merge(RangesOf(missing)),
      if missing == [] then Some(options.now) else if existing.Some? then existing.value.lastSuccessAt else None,
      Some(options.now),
      if missing != [] && options.gapRetryDelayMs.Some? then Some(options.now + options.gapRetryDelayMs.value)
      else None,
      if expected == [] then None else Some(expected[|expected| - 1].completes),
      Some(job.universeRevision),
      if existing.Some? then existing.value.version else 0,
      None)
  }

  /** With nothing unserved the proposal is complete and its ledger empty. */
  lemma NothingUnserved(job: Job, g: Grid, options: Options, existing: Option<StoredCheckpoint>, have: set<Instant>)
    requires Unserved(ThroughOf(existing), Expected(g, job.requestedRange), have) == []
    ensures var p := Proposal(job, g, options, existing, have);
            && p.state == Complete && p.missingRanges == []
            && p.completeThrough == Advance(ThroughOf(existing), Expected(g, job.requestedRange), have)
  {
    assert RangesOf([]) == [];
  }

  // Facts about the two scans.

  lemma {:induction false} UnservedSpec(through: Option<Instant>, bars: seq<Bar>, have: set<Instant>)
    requires Ordered(bars)
    ensures Ordered(Unserved(through, bars, have))
    ensures forall b :: b in Unserved(through, bars, have) <==>
              b in bars && (through.None? || b.completes > through.value) && b.start !in have
  {
    if bars != [] {
      OrderedTail(bars);
      var rest := Unserved(through, bars[1..], have);
      UnservedSpec(through, bars[1..], have);
      assert bars == [bars[0]] + bars[1..];
      var head := if (through.None? || bars[0].completes > through.value) && bars[0].start !in have then [bars[0]]
                  else [];
      assert Unserved(through, bars, have) == head + rest;
      OrderedConcat(head, rest);
    }
  }

  /** It never goes back and only ever rests on the completion of a bar. */
  lemma {:induction false} AdvanceMoves(through: Option<Instant>, bars: seq<Bar>, have: set<Instant>)
    ensures var t := Advance(through, bars, have);
            && (through.Some? ==> t.Some? && t.value >= through.value)
            && (t != through ==> exists b :: b in bars && t == Some(b.completes))
    decreases bars
  {
    if bars != [] {
      assert bars == [bars[0]] + bars[1..];
      AdvanceMoves(through, bars[1..], have);
      AdvanceMoves(Some(bars[0].completes), bars[1..], have);
    }
  }

  /** Whatever it passes was served. */
  lemma {:induction false} AdvancePasses(through: Option<Instant>, bars: seq<Bar>, have: set<Instant>)
    requires Ordered(bars)
    ensures var t := Advance(through, bars, have);
            t.Some? ==> forall b ::
              b in bars && b.completes <= t.value && (through.None? || b.completes > through.value) ==> b.start in have
    decreases bars
  {
    if bars != [] {
      OrderedTail(bars);
      assert bars == [bars[0]] + bars[1..];
      AdvancePasses(through, bars[1..], have);
      AdvancePasses(Some(bars[0].completes), bars[1..], have);
    }
  }

  /** It stops no later than the first bar that was not served. */
  lemma {:induction false} AdvanceStops(through: Option<Instant>, bars: seq<Bar>, have: set<Instant>)
    requires Ordered(bars)
    ensures var t := Advance(through, bars, have);
            forall b :: b in Unserved(through, bars, have) ==> t == through || (t.Some? && t.value <= b.start)
    decreases bars
  {
    if bars != [] {
      var b, rest := bars[0], bars[1..];
      OrderedTail(bars);
      assert bars == [b] + rest;
      if through.Some? && b.completes <= through.value {
        AdvanceStops(through, rest, have);
      } else if b.start in have {
        AdvanceStops(Some(b.completes), rest, have);
        UnservedSpec(through, bars, have);
        UnservedSpec(Some(b.completes), rest, have);
      }
    }
  }

  /** Behind the boundary already, or served. */
  predicate Cleared(through: Option<Instant>, b: Bar, have: set<Instant>) {
    (through.Some? && b.completes <= through.value) || b.start in have
  }

  /** And it does not stop before: it reaches every bar up to which all are behind it or served. */
  lemma {:induction false} AdvanceReaches(through: Option<Instant>, bars: seq<Bar>, have: set<Instant>, i: nat)
    requires Ordered(bars) && i < |bars| && forall j :: 0 <= j <= i ==> Cleared(through, bars[j], have)
    ensures Advance(through, bars, have).Some? && bars[i].completes <= Advance(through, bars, have).value
    decreases bars
  {
    var rest := bars[1..];
    OrderedTail(bars);
    var next := if through.Some? && bars[0].completes <= through.value then through else Some(bars[0].completes);
    AdvanceMoves(next, rest, have);
    if i > 0 {
      forall j | 0 <= j <= i - 1 ensures Cleared(next, rest[j], have) { assert Cleared(through, bars[j + 1], have); }
      AdvanceReaches(next, rest, have, i - 1);
    }
  }

  /** `completeThrough` never goes back; what it passes was served; it stops at the first unserved bar. */
  lemma AdvanceSpec(through: Option<Instant>, bars: seq<Bar>, have: set<Instant>)
    requires Ordered(bars)
    ensures var t := Advance(through, bars, have);
            && (through.Some? ==> t.Some? && t.value >= through.value)
            && (t != through ==> exists b :: b in bars && t == Some(b.completes))
            && (t.Some?
                ==> forall b :: b in bars && b.completes <= t.value && (through.None? || b.completes > through.value)
                              ==> b.start in have)
            && (forall b :: b in Unserved(through, bars, have) ==> t == through || t.value <= b.start)
  {
    AdvanceMoves(through, bars, have);
    AdvancePasses(through, bars, have);
    AdvanceStops(through, bars, have);
  }

  lemma {:induction false} AllServed(through: Option<Instant>, bars: seq<Bar>, have: set<Instant>)
    requires Ordered(bars) && forall b :: b in bars ==> b.start in have
    ensures Unserved(through, bars, have) == []
    ensures Advance(through, bars, have)
         == if bars == [] || (through.Some? && through.value >= bars[|bars| - 1].completes) then through
            else Some(bars[|bars| - 1].completes)
    decreases bars
  {
    if bars != [] {
      OrderedTail(bars);
      assert bars[0] in bars;
      AllServed(through, bars[1..], have);
      AllServed(Some(bars[0].completes), bars[1..], have);
    }
  }

  lemma RangesNonEmpty(bars: seq<Bar>)
    requires Ordered(bars)
    ensures NonEmpty(RangesOf(bars))
    ensures forall p :: Covers(RangesOf(bars), p) <==> exists b :: b in bars && b.start <= p < b.completes
  {
    forall p ensures Covers(RangesOf(bars), p) <==> exists b :: b in bars && b.start <= p < b.completes {
      if Covers(RangesOf(bars), p) {
        var i :| 0 <= i < |bars| && RangesOf(bars)[i].start <= p < RangesOf(bars)[i].end;
        assert bars[i] in bars;
      }
      if b :| b in bars && b.start <= p < b.completes {
        var i :| 0 <= i < |bars| && bars[i] == b;
        assert RangesOf(bars)[i] == TimeRange(b.start, b.completes);
      }
    }
  }

  /** The ledger of a proposal: normal form, and it covers exactly the bars that were not served. */
  lemma LedgerSpec(job: Job, g: Grid, options: Options, existing: Option<StoredCheckpoint>, have: set<Instant>)
    requires g.Wf()
    ensures var p := Proposal(job, g, options, existing, have);
            var missing := Unserved(ThroughOf(existing), Expected(g, job.requestedRange), have);
            && Normal(p.missingRanges)
            && (forall x :: Covers(p.missingRanges, x) <==> exists b :: b in missing && b.start <= x < b.completes)
            && (p.state == Complete <==> p.missingRanges == [])
  {
    var missing := Unserved(ThroughOf(existing), Expected(g, job.requestedRange), have);
    ExpectedSpec(g, job.requestedRange);
    UnservedSpec(ThroughOf(existing), Expected(g, job.requestedRange), have);
    RangesNonEmpty(missing);
    MergeIsNormalForm(RangesOf(missing));
    if missing != [] {
      assert missing[0] in missing;
      assert Covers(Merge(RangesOf(missing)), missing[0].start);
    }
  }

  /** The ledger covers exactly the expected bars past the boundary that were neither accepted nor acknowledged. */
  ghost predicate LedgerOf(c: StoredCheckpoint, through: Option<Instant>, expected: seq<Bar>, have: set<Instant>) {
    && Normal(c.missingRanges)
    && (c.state == Complete <==> c.missingRanges == []) && (c.state == Complete || c.state == Partial)
    && forall x :: Covers(c.missingRanges, x) <==>
         exists b :: b in expected && b.start <= x < b.completes
           && (through.None? || b.completes > through.value) && b.start !in have
  }

  /** Every unserved bar past the boundary is in the ledger of the proposal, and nothing else. */
  lemma ProposalRecordsGaps(job: Job, g: Grid, options: Options, existing: Option<StoredCheckpoint>, have: set<Instant>)
    requires g.Wf()
    ensures LedgerOf(Proposal(job, g, options, existing, have), ThroughOf(existing), Expected(g, job.requestedRange),
                     have)
  {
    ExpectedSpec(g, job.requestedRange);
    UnservedSpec(ThroughOf(existing), Expected(g, job.requestedRange), have);
    LedgerSpec(job, g, options, existing, have);
  }

  /** The source was observed up to the end of the last of these bars. */
  ghost predicate EndsWith(through: Option<Instant>, expected: seq<Bar>) {
    if expected == [] then through == None
    else
      && (exists b :: b in expected && through == Some(b.completes))
      && forall b :: b in expected ==> b.completes <= through.value
  }

  lemma LastCompletes(g: Grid, range: TimeRange)
    requires g.Wf() && Expected(g, range) != []
    ensures EndsWith(Some(Expected(g, range)[|Expected(g, range)| - 1].completes), Expected(g, range))
  {
    var expected := Expected(g, range);
    var last := expected[|expected| - 1];
    ExpectedSpec(g, range);
    assert last in expected;
    forall b | b in expected ensures b.completes <= last.completes {
      var i :| 0 <= i < |expected| && expected[i] == b;
      EligibleNonEmpty(g, last);
    }
  }

  /** The rest of a proposal: the stream and version it is for, how fresh it is, and when to look again.  A complete one
      is a success now; any other keeps the last success and, when a delay is configured, is retried after it. */
  lemma ProposalStamps(job: Job, g: Grid, options: Options, existing: Option<StoredCheckpoint>, have: set<Instant>)
    requires g.Wf()
    ensures var p := Proposal(job, g, options, existing, have);
            && p.coverageKey == job.expectation.coverageKey && p.symbol == job.instrument.symbol
            && p.interval == job.instrument.cadence && p.sessionScope == job.sessionScope
            && p.logicalDataVariant == PageVariant(job.instrument.route, options.feed)
            && p.universeRevision == Some(job.universeRevision) && p.blocker == None
            && p.lastAttemptAt == Some(options.now) && (existing.Some? ==> p.version == existing.value.version)
            && EndsWith(p.sourceObservedThrough, Expected(g, job.requestedRange))
            && if p.state == Complete then p.lastSuccessAt == Some(options.now) && p.retryNotBefore == None
               else
                 && p.lastSuccessAt == (if existing.Some? then existing.value.lastSuccessAt else None)
                 && (p.retryNotBefore.Some? <==> options.gapRetryDelayMs.Some?)
                 && (p.retryNotBefore.Some? ==> p.retryNotBefore.value - options.gapRetryDelayMs.value == options.now)
  {
    if Expected(g, job.requestedRange) != [] { LastCompletes(g, job.requestedRange); }
  }

  /** The variant names the route, and for stocks the feed. */
  lemma VariantTells(a: Route, f: string, b: Route, h: string)
    ensures PageVariant(a, f) == PageVariant(b, h) <==> a == b && (a == StockBars ==> f == h)
    ensures PageVariant(CryptoBars, f) == "crypto:us" && PageVariant(StockBars, "iex") == "stock:iex:raw"
  {
    assert PageVariant(CryptoBars, f)[0] == 'c' && PageVariant(StockBars, h)[0] == 's';
    assert ("stock:" + f + ":raw")[6..][..|f|] == f;
    assert ("stock:" + h + ":raw")[6..][..|h|] == h;
  }

  /** A served bar never has to be looked at again: a bar that straddles `completeThrough` is served. */
  predicate StraddlersServed(through: Option<Instant>, bars: seq<Bar>, have: set<Instant>) {
    through.Some? ==> forall b :: b in bars && b.start < through.value < b.completes ==> b.start in have
  }

  /** Every gap of a normal form covering exactly `bars` begins where one of them begins. */
  lemma LedgerStartsAtBar(bars: seq<Bar>, ranges: seq<TimeRange>, i: nat)
    requires Ordered(bars) && Normal(ranges) && i < |ranges|
    requires forall x :: Covers(ranges, x) <==> exists b :: b in bars && b.start <= x < b.completes
    ensures exists b :: b in bars && b.start == ranges[i].start
  {
    assert Covers(ranges, ranges[i].start) && !Covers(ranges, ranges[i].start - 1);
    var b :| b in bars && b.start <= ranges[i].start < b.completes;
    assert b.start == ranges[i].start;
  }

  lemma GapsAheadIff(through: Option<Instant>, bars: seq<Bar>, have: set<Instant>, ranges: seq<TimeRange>)
    requires Ordered(bars) && Normal(ranges)
    requires forall x :: Covers(ranges, x)
               <==> exists b :: b in Unserved(through, bars, have) && b.start <= x < b.completes
    ensures var t := Advance(through, bars, have);
            (t.Some? ==> forall i :: 0 <= i < |ranges| ==> t.value <= ranges[i].start)
            <==> StraddlersServed(through, bars, have)
  {
    var t := Advance(through, bars, have);
    AdvanceSpec(through, bars, have);
    UnservedSpec(through, bars, have);
    if StraddlersServed(through, bars, have) {
      if t.Some? {
        forall i | 0 <= i < |ranges| ensures t.value <= ranges[i].start {
          LedgerStartsAtBar(Unserved(through, bars, have), ranges, i);
        }
      }
    } else {
      var b :| b in bars && b.start < through.value < b.completes && b.start !in have;
      assert b in Unserved(through, bars, have) && t == through;
      assert Covers(ranges, b.start);
      var i :| 0 <= i < |ranges| && ranges[i].start <= b.start < ranges[i].end;
      assert ranges[i].start < t.value;
    }
  }

  /** Whatever the provider returned, the proposal passes validation exactly when no expected bar that
      straddles the stored `completeThrough` was left unserved; it never lowers `completeThrough`. */
  lemma ProposalAdmissible(job: Job, g: Grid, options: Options, existing: Option<StoredCheckpoint>, have: set<Instant>)
    requires g.Wf() && job.expectation.coverageKey != "" && job.instrument.symbol != ""
    ensures var p := Proposal(job, g, options, existing, have);
            && (ValidProposal(p) <==> StraddlersServed(ThroughOf(existing), Expected(g, job.requestedRange), have))
            && (existing.Some? ==> Monotone(existing.value, p))
  {
    var through, expected := ThroughOf(existing), Expected(g, job.requestedRange);
    ExpectedSpec(g, job.requestedRange);
    AdvanceSpec(through, expected, have);
    LedgerSpec(job, g, options, existing, have);
    GapsAheadIff(through, expected, have, Proposal(job, g, options, existing, have).missingRanges);
  }

  lemma UnservedStraddler(job: Job, g: Grid, options: Options, existing: StoredCheckpoint, have: set<Instant>, b: Bar)
    requires g.Wf() && job.expectation.coverageKey != "" && job.instrument.symbol != ""
    requires b in Expected(g, job.requestedRange) && b.start !in have && existing.completeThrough.Some?
    requires b.start < existing.completeThrough.value < b.completes
    ensures !ValidProposal(Proposal(job, g, options, Some(existing), have))
  {
    ProposalAdmissible(job, g, options, Some(existing), have);
  }

  /** A stored boundary inside a bar, which no commit of the protocol leaves behind: when that bar is not served, the
      gap opens before the boundary and the proposal is refused. */
  lemma StraddledProposalRefused(job: Job, g: Grid, options: Options, existing: StoredCheckpoint)
    requires job.expectation.coverageKey != "" && job.instrument.symbol != ""
    requires job.requestedRange == TimeRange(0, 60_000) && existing.completeThrough == Some(30_000)
    requires g == Grid(OneMin, CryptoBars, AllTrading, [])
    ensures !ValidProposal(Proposal(job, g, options, Some(existing), {}))
  {
    ExpectedSpec(g, job.requestedRange);
    assert g.Eligible(Bar(0, 60_000));
    UnservedStraddler(job, g, options, existing, {}, Bar(0, 60_000));
  }
}
