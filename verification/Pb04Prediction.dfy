/** The packet made ahead of time says exactly what the simulated execution then does. */
module Pb04Prediction {
  import opened Market
  import opened Ordering
  import opened SessionGrid
  import opened Checkpoint
  import opened Schedule
  import opened BarNormalization
  import opened Execution
  import opened Tallies
  import opened Executor
  import opened Recovery
  import opened RecoveryChunks
  import opened Campaign
  import opened LocalHistory
  import opened LocalEvidence
  import opened Pb04

  /** Evidence as parsing produces it: a validated full session and one absence for each missing minute. */
  ghost predicate Parsed(input: Input) {
    var plan, bars := input.session.plan, input.session.bars;
    && plan.end == plan.start + 390 * 60_000
    && GoodBars(bars, plan.start, 390)
    && input.coverageAbsences == AbsencesFor(Missing(plan.start, 390, Instants(bars)))
  }

  // Accepting a page.

  function StartsOf(candidates: seq<Candidate>): set<Instant> {
    set i | 0 <= i < |candidates| && candidates[i].Normalized? :: candidates[i].bar.barStart
  }

  lemma StartsOfAppend(candidates: seq<Candidate>)
    requires candidates != [] && candidates[|candidates| - 1].Normalized?
    ensures StartsOf(candidates)
         == StartsOf(candidates[..|candidates| - 1]) + {candidates[|candidates| - 1].bar.barStart}
  {
    var n := |candidates| - 1;
    var all, front := StartsOf(candidates), StartsOf(candidates[..n]);
    forall at | at in all ensures at in front || at == candidates[n].bar.barStart {
      var i :| 0 <= i < |candidates| && candidates[i].Normalized? && candidates[i].bar.barStart == at;
      if i < n { assert candidates[..n][i] == candidates[i]; }
    }
    forall at | at in front ensures at in all {
      var i :| 0 <= i < n && candidates[..n][i].Normalized? && candidates[..n][i].bar.barStart == at;
      assert candidates[i] == candidates[..n][i];
    }
  }

  /** New, pairwise distinct starts are all inserted. */
  lemma {:induction false} AllInserted(candidates: seq<Candidate>, t: Tallied)
    requires forall i :: 0 <= i < |candidates|
               ==> candidates[i].Normalized? && candidates[i].bar.barStart !in t.accepted
    requires forall i, j :: 0 <= i < j < |candidates| ==> candidates[i].bar.barStart != candidates[j].bar.barStart
    ensures AcceptAll(candidates, t)
         == Tallied(t.counts.(inserted := t.counts.inserted + |candidates|), t.starts + StartsOf(candidates),
                    t.accepted + StartsOf(candidates))
  {
    if candidates == [] {
      assert StartsOf(candidates) == {};
    } else {
      var n := |candidates| - 1;
      AllInserted(candidates[..n], t);
      StartsOfAppend(candidates);
      var at := candidates[n].bar.barStart;
      assert forall i :: 0 <= i < n ==> candidates[..n][i] == candidates[i];
      assert at !in StartsOf(candidates[..n]);
    }
  }

  /** A well-formed bar on the minute grid of the session normalises to the bar starting there. */
  lemma GoodBarNormalizes(input: Input, bar: SourceBar, dates: Dates)
    requires input.session.plan.end == input.session.plan.start + 390 * 60_000
    requires bar.symbol == SYMBOL && bar.fault.None? && OnGrid(input.session.plan.start, 390, bar.timestamp)
    ensures Normalize(bar, SYMBOL, input.Grid(), dates).Normalized?
    ensures Normalize(bar, SYMBOL, input.Grid(), dates).bar.barStart == bar.timestamp.value
  {
    var g := input.Grid();
    assert CurrentSession(g, g.sessions, bar.timestamp.value) == Some(input.MarketSession());
    assert bar.timestamp.value + 60_000 <= input.session.plan.end;
  }

  lemma {:induction false} SubPage(bars: seq<SourceBar>, start: Instant, n: nat, range: TimeRange)
    requires GoodBars(bars, start, n)
    ensures GoodBars(PageOf(bars, range), start, n)
  {
    if bars != [] {
      GoodTail(bars, start, n);
      SubPage(bars[1..], start, n, range);
      PageSpec(bars[1..], range);
      var page := PageOf(bars[1..], range);
      forall i | 0 <= i < |page| ensures page[i].timestamp != bars[0].timestamp { assert page[i] in page; }
    }
  }

  /** A page of new good bars: everything inserted, and the served starts are the instants it names. */
  lemma PageAccepted(input: Input, page: seq<SourceBar>, dates: Dates, t: Tallied)
    requires input.session.plan.end == input.session.plan.start + 390 * 60_000
    requires GoodBars(page, input.session.plan.start, 390)
    requires forall i :: 0 <= i < |page| ==> page[i].timestamp.value !in t.accepted
    ensures var candidates := Candidates(page, SYMBOL, input.Grid(), dates);
            && AcceptAll(candidates, t)
               == Tallied(t.counts.(inserted := t.counts.inserted + |page|), t.starts + StartsOf(candidates),
                          t.accepted + StartsOf(candidates))
            && forall at :: at in StartsOf(candidates) <==> Some(at) in Instants(page)
  {
    var candidates := Candidates(page, SYMBOL, input.Grid(), dates);
    forall i | 0 <= i < |page|
      ensures candidates[i].Normalized? && candidates[i].bar.barStart == page[i].timestamp.value
    {
      GoodBarNormalizes(input, page[i], dates);
    }
    AllInserted(candidates, t);
    forall at ensures at in StartsOf(candidates) <==> Some(at) in Instants(page) {
      if at in StartsOf(candidates) {
        var i :| 0 <= i < |candidates| && candidates[i].Normalized? && candidates[i].bar.barStart == at;
        assert page[i].timestamp == Some(at);
      }
      if Some(at) in Instants(page) {
        var i :| 0 <= i < |page| && page[i].timestamp == Some(at);
        assert candidates[i].bar.barStart == at;
      }
    }
  }

  // Chunk `i` of the session.

  function First(i: nat): nat { 100 * i }

  function Length(i: nat): nat { Max(0, Min(100, 390 - 100 * i)) }

  lemma SpanIsMinutes(open: Instant, i: nat)
    requires i < 4
    ensures Span(open, i) == Minutes(open, First(i), Length(i)) && First(i) + Length(i) <= 390 && Length(i) >= 1
  {
  }

  function OwnAbsences(input: Input, i: nat): seq<Absence> {
    Between(input.coverageAbsences, Span(input.session.plan.start, i))
  }

  function OwnMissing(input: Input, i: nat): seq<Instant> {
    Missing(GridPoint(input.session.plan.start, First(i)), Length(i), Instants(input.session.bars))
  }

  function OwnPage(input: Input, i: nat): seq<SourceBar> {
    PageOf(input.session.bars, Span(input.session.plan.start, i))
  }

  lemma OwnCounts(input: Input, i: nat)
    requires Parsed(input) && i < 4
    ensures OwnAbsences(input, i) == AbsencesFor(OwnMissing(input, i))
    ensures |OwnPage(input, i)| + |OwnMissing(input, i)| == Length(i)
    ensures Instants(OwnPage(input, i)) == OnGridOf(GridPoint(input.session.plan.start, First(i)), Length(i),
                                                    Instants(input.session.bars))
  {
    SpanIsMinutes(input.session.plan.start, i);
    MissingBetween(input.session.plan.start, 390, First(i), Length(i), Instants(input.session.bars));
    PageCount(input.session.bars, input.session.plan.start, 390, First(i), Length(i));
    PageIsGrid(input.session.bars, input.session.plan.start, 390, First(i), Length(i));
  }

  lemma EligibleMinutes(input: Input, at: Instant)
    requires Parsed(input)
    ensures input.Grid().Wf()
    ensures input.Grid().Eligible(Bar(at, at + 60_000)) <==> OnGrid(input.session.plan.start, 390, Some(at))
  {
    var g, b := input.Grid(), Bar(at, at + 60_000);
    assert g.sessions[0] == input.MarketSession();
    assert g.Eligible(b) <==> g.InSession(g.sessions[0], b);
  }

  /** The executor expects one bar for every minute of the chunk. */
  lemma ExpectedMinutes(input: Input, i: nat, at: Instant)
    requires Parsed(input) && i < 4
    ensures input.Grid().Wf()
    ensures Bar(at, at + 60_000) in Expected(input.Grid(), Span(input.session.plan.start, i))
       <==> OnGrid(GridPoint(input.session.plan.start, First(i)), Length(i), Some(at))
  {
    var start := input.session.plan.start;
    EligibleMinutes(input, at);
    SpanIsMinutes(start, i);
    ExpectedSpec(input.Grid(), Span(start, i));
    GridShift(start, 390, First(i), Length(i), Some(at));
    if OnGrid(start, 390, Some(at)) { MinuteFits(start, First(i), Length(i), at); }
  }

  /** A grid minute that starts before the end of a chunk also completes by it. */
  lemma MinuteFits(start: Instant, m: nat, n: nat, at: Instant)
    requires OnGrid(start, 390, Some(at))
    ensures at < GridPoint(start, m + n) <==> at + 60_000 <= GridPoint(start, m + n)
  {
    var k := (at - start) / 60_000;
    assert at == start + k * 60_000;
  }

  lemma ExpectedLasts(input: Input, i: nat, b: Bar)
    requires Parsed(input) && i < 4 && b in Expected(input.Grid(), Span(input.session.plan.start, i))
    ensures b == Bar(b.start, b.start + 60_000)
    ensures OnGrid(GridPoint(input.session.plan.start, First(i)), Length(i), Some(b.start))
  {
    ExpectedMinutes(input, i, b.start);
    ExpectedSpec(input.Grid(), Span(input.session.plan.start, i));
    EligibleNonEmpty(input.Grid(), b);
  }

  /** Every expected minute is served by the page or acknowledged absent, never both. */
  lemma MinutesCovered(input: Input, i: nat, starts: set<Instant>)
    requires Parsed(input) && i < 4
    requires forall at :: at in starts <==> Some(at) in Instants(OwnPage(input, i))
    ensures var expected, acked := Expected(input.Grid(), Span(input.session.plan.start, i)),
            AbsenceStarts(OwnAbsences(input, i));
            && AbsencesFit(expected, acked, starts) && (forall b :: b in expected ==> b.start in starts + acked)
            && |acked| == |OwnMissing(input, i)|
  {
    var expected, missing := Expected(input.Grid(), Span(input.session.plan.start, i)), OwnMissing(input, i);
    var acked := AbsenceStarts(OwnAbsences(input, i));
    var first, epochs := GridPoint(input.session.plan.start, First(i)), Instants(input.session.bars);
    OwnCounts(input, i);
    AbsencesForSpec(missing);
    MissingCount(first, Length(i), epochs);
    MissingDistinct(first, Length(i), epochs);
    forall at | at in acked ensures at !in starts && exists k :: 0 <= k < |expected| && expected[k].start == at {
      ExpectedMinutes(input, i, at);
      assert Bar(at, at + 60_000) in expected;
    }
    forall b | b in expected ensures b.start in starts + acked {
      ExpectedLasts(input, i, b);
    }
    SetOfDistinct(missing, acked);
  }

  lemma {:induction false} MissingDistinct(start: Instant, n: nat, epochs: set<Option<Instant>>)
    ensures var m := Missing(start, n, epochs); forall i, j :: 0 <= i < j < |m| ==> m[i] < m[j]
    ensures forall at :: at in Missing(start, n, epochs) ==> at < GridPoint(start, n)
  {
    if n > 0 {
      MissingDistinct(start, n - 1, epochs);
      MissingStep(start, n - 1, epochs);
      var before := Missing(start, n - 1, epochs);
      assert forall i :: 0 <= i < |before| ==> before[i] in before;
      assert forall i :: 0 <= i < |before| ==> before[i] < GridPoint(start, n - 1);
    }
  }

  lemma {:induction false} SetOfDistinct(items: seq<Instant>, s: set<Instant>)
    requires forall i, j :: 0 <= i < j < |items| ==> items[i] < items[j]
    requires forall at :: at in s <==> at in items
    ensures |s| == |items|
  {
    if items == [] {
      assert forall at :: at !in s;
      assert s == {};
    } else {
      var n := |items| - 1;
      assert items == items[..n] + [items[n]];
      SetOfDistinct(items[..n], s - {items[n]});
    }
  }

  /** The absences of a chunk are acceptable evidence for a job over its range. */
  lemma AbsencesAcceptable(input: Input, i: nat, job: Job)
    requires Parsed(input) && i < 4 && job.requestedRange == Span(input.session.plan.start, i)
             && job.instrument.symbol == SYMBOL
    ensures AbsencesValid(job, OwnAbsences(input, i))
  {
    var missing := OwnMissing(input, i);
    OwnCounts(input, i);
    MissingCount(GridPoint(input.session.plan.start, First(i)), Length(i), Instants(input.session.bars));
    SpanIsMinutes(input.session.plan.start, i);
    forall k | 0 <= k < |missing| ensures job.requestedRange.start <= missing[k] < job.requestedRange.end {
      assert missing[k] in missing;
    }
  }

  /** The page of a chunk, as the executor sees it. */
  lemma PageServed(input: Input, i: nat, dates: Dates, accepted: set<Instant>)
    requires Parsed(input) && i < 4 && forall at :: at in accepted ==> at < Span(input.session.plan.start, i).start
    ensures var page := OwnPage(input, i);
            var t := AcceptAll(Candidates(page, SYMBOL, input.Grid(), dates),
                               Tallied(Counts(1, 0, 0, 0, 0), {}, accepted));
            && FetchPage(input.session, SYMBOL, Span(input.session.plan.start, i)) == Ok(page)
            && |page| <= 100 && (forall k :: 0 <= k < |page| ==> page[k].symbol == SYMBOL)
            && t.counts == Counts(1, |page|, 0, 0, 0)
            && (forall at :: at in t.starts <==> Some(at) in Instants(page))
            && (forall at :: at in t.accepted ==> at < Span(input.session.plan.start, i).end)
  {
    var start, page := input.session.plan.start, OwnPage(input, i);
    SpanIsMinutes(start, i);
    OwnCounts(input, i);
    SubPage(input.session.bars, start, 390, Span(start, i));
    PageSpec(input.session.bars, Span(start, i));
    forall k | 0 <= k < |page| ensures page[k].timestamp.value !in accepted { assert page[k] in page; }
    PageAccepted(input, page, dates, Tallied(Counts(1, 0, 0, 0, 0), {}, accepted));
    var candidates := Candidates(page, SYMBOL, input.Grid(), dates);
    forall at | at in StartsOf(candidates) ensures at < Span(start, i).end {
      var k :| 0 <= k < |page| && page[k].timestamp == Some(at);
      assert page[k] in page;
    }
  }

  /** The row a fully covered job leaves behind. */
  ghost predicate Committed(job: Job, feed: string, before: StoredCheckpoint, after: StoredCheckpoint) {
    && after.completeThrough == Some(job.requestedRange.end) && after.version == before.version + 1
    && after.state == Complete && after.missingRanges == [] && after.blocker.None?
    && after.coverageKey == job.expectation.coverageKey && after.symbol == job.instrument.symbol
    && after.interval == job.instrument.cadence && after.sessionScope == job.sessionScope
    && after.universeRevision == Some(job.universeRevision)
    && after.logicalDataVariant == PageVariant(job.instrument.route, feed)
  }

  lemma CoveredProposal(g: Grid, job: Job, options: Options, before: StoredCheckpoint,
                        have: set<Instant>)
    requires g.Wf() && EndsAhead(job, g, before)
    requires forall b :: b in Expected(g, job.requestedRange) ==> b.start in have
    ensures Unserved(before.completeThrough, Expected(g, job.requestedRange), have) == []
    ensures Committed(job, options.feed, before,
                      Proposal(job, g, options, Some(before), have).(version := before.version + 1))
  {
    ServedToTheEnd(job, g, options, before, have);
    ExpectedSpec(g, job.requestedRange);
    AllServed(before.completeThrough, Expected(g, job.requestedRange), have);
  }

  lemma CoveredConcludes(g: Grid, job: Job, options: Options, acked: set<Instant>, s: SimState,
                         t: Tallied)
    requires g.Wf() && EndsAhead(job, g, s.current) && job.expectation.expectedVersion == Some(s.current.version)
    requires AbsencesFit(Expected(g, job.requestedRange), acked, t.starts)
    requires forall b :: b in Expected(g, job.requestedRange) ==> b.start in t.starts + acked
    requires t.counts.conflicts == 0 && t.counts.rejected == 0
    ensures var r := Concluded(job, g, options, acked, s, t);
            && r.Ok? && r.value.summary == Summary(job.jobId, Succeeded, t.counts, 0, |acked|)
            && Committed(job, options.feed, s.current, r.value.state.current) && r.value.state.accepted == t.accepted
  {
    CoveredProposal(g, job, options, s.current, t.starts + acked);
  }

  /** An acceptable page takes execution to its conclusion. */
  lemma ExecutedOnPage(job: Job, g: Grid, options: Options, session: EvidenceSession, absences: seq<Absence>,
                       s: SimState,
                       page: seq<SourceBar>)
    requires AbsencesValid(job, absences) && FetchPage(session, job.instrument.symbol, job.requestedRange) == Ok(page)
    requires |page| <= options.maxBars && forall i :: 0 <= i < |page| ==> page[i].symbol == job.instrument.symbol
    ensures Executed(job, g, options, session, absences, s)
         == Concluded(job, g, options, AbsenceStarts(absences), s,
                      AcceptAll(Candidates(page, job.instrument.symbol, g, options.dates),
                                Tallied(Counts(1, 0, 0, 0, 0), {}, s.accepted)))
  {
  }

  /** Executing chunk `i`: every bar inserted, nothing missing, and the checkpoint at the chunk's end. */
  lemma ChunkExecutes(input: Input, i: nat, job: Job, options: Options, s: SimState)
    requires Parsed(input) && i < 4 && options.maxBars == 100
    requires job.requestedRange == Span(input.session.plan.start, i) && job.instrument.symbol == SYMBOL
    requires job.expectation.expectedVersion == Some(s.current.version)
    requires EndsAhead(job, input.Grid(), s.current)
    requires forall at :: at in s.accepted ==> at < Span(input.session.plan.start, i).start
    ensures var r := Executed(job, input.Grid(), options, input.session, OwnAbsences(input, i), s);
            && r.Ok?
            && r.value.summary == Summary(job.jobId, Succeeded, Counts(1, |OwnPage(input, i)|, 0, 0, 0), 0,
                                          |OwnMissing(input, i)|)
            && Committed(job, options.feed, s.current, r.value.state.current)
            && forall at :: at in r.value.state.accepted ==> at < Span(input.session.plan.start, i).end
  {
    var g, page := input.Grid(), OwnPage(input, i);
    AbsencesAcceptable(input, i, job);
    PageServed(input, i, options.dates, s.accepted);
    ExecutedOnPage(job, g, options, input.session, OwnAbsences(input, i), s, page);
    var t := AcceptAll(Candidates(page, SYMBOL, g, options.dates), Tallied(Counts(1, 0, 0, 0, 0), {}, s.accepted));
    MinutesCovered(input, i, t.starts);
    ExpectedMinutes(input, i, 0);
    CoveredConcludes(g, job, options, AbsenceStarts(OwnAbsences(input, i)), s, t);
  }

  // Planning from the simulated checkpoint.

  function Universe(c: StoredCheckpoint): string {
    if c.universeRevision.Some? then c.universeRevision.value else DEFAULT_UNIVERSE
  }

  /** The boundary before chunk `i`. */
  function BoundaryAt(input: Input, i: nat): Instant
    requires input.checkpointBefore.completeThrough.Some?
  {
    if i == 0 then input.checkpointBefore.completeThrough.value else Span(input.session.plan.start, i - 1).end
  }

  /** `c` is the frozen checkpoint, `i` chunks later. */
  ghost predicate Follows(input: Input, c: StoredCheckpoint, i: nat) {
    var from := input.checkpointBefore;
    && from.completeThrough.Some?
    && c.coverageKey == from.coverageKey && c.symbol == from.symbol && c.interval == from.interval
    && c.sessionScope == from.sessionScope && c.logicalDataVariant == from.logicalDataVariant
    && c.state == Complete && c.missingRanges == [] && Universe(c) == Universe(from)
    && c.version == from.version + i && c.completeThrough == Some(BoundaryAt(input, i))
  }

  /** A request that is accepted for the frozen checkpoint, over a listed full session. */
  ghost predicate Ready(input: Input, recoveryId: string, bars: seq<EligibleBar>, j: nat) {
    && input.checkpointBefore.completeThrough.Some?
    && Refusal(input.Request(recoveryId, input.checkpointBefore)).None?
    && EligibleBars(input.Request(recoveryId, input.checkpointBefore), input.Calendar()) == Ok(bars)
    && InOrder(bars) && Grouped(bars) && Block(bars, j, input.session.plan.start)
    && Pending(bars, BoundaryAt(input, 0)) == bars[j..]
    && BoundaryAt(input, 0) <= input.session.plan.start
    && input.session.plan.end == input.session.plan.start + 390 * 60_000
    && FrozenIdentity(input.checkpointBefore)
  }

  lemma SimIdNonEmpty(input: Input)
    ensures SimulatedId(input) != ""
  {
    assert |SimulatedId(input)| > 0;
  }

  lemma LaterRequest(input: Input, recoveryId: string, bars: seq<EligibleBar>, j: nat,
                     c: StoredCheckpoint, i: nat)
    requires Ready(input, recoveryId, bars, j) && Follows(input, c, i) && i < 4
    ensures Refusal(input.Request(SimulatedId(input), c)).None?
    ensures EligibleBars(input.Request(SimulatedId(input), c), input.Calendar()) == Ok(bars)
  {
    SimIdNonEmpty(input);
    var a, b := input.Request(recoveryId, input.checkpointBefore), input.Request(SimulatedId(input), c);
    if i > 0 { SpanFits(input.session.plan.start, i - 1); }
    assert SessionsFor(a, input.Calendar()) == SessionsFor(b, input.Calendar());
  }

  lemma BoundaryPending(input: Input, recoveryId: string, bars: seq<EligibleBar>, j: nat, i: nat)
    requires Ready(input, recoveryId, bars, j) && i < 4
    ensures Pending(bars, BoundaryAt(input, i)) == bars[j + 100 * i..]
    ensures i > 0 ==> exists k :: 0 <= k < |bars| && bars[k].bar.completes == BoundaryAt(input, i)
  {
    if i > 0 {
      LastMinuteBefore(input, recoveryId, bars, j, i);
      PendingAfter(bars, j + 100 * i - 1);
    }
  }

  /** The bar before chunk `i` completes at the boundary. */
  lemma LastMinuteBefore(input: Input, recoveryId: string, bars: seq<EligibleBar>, j: nat, i: nat)
    requires Ready(input, recoveryId, bars, j) && 0 < i < 4
    ensures j + 100 * i <= |bars| && bars[j + 100 * i - 1].bar.completes == BoundaryAt(input, i)
  {
    assert bars[j + 100 * i - 1].bar == Minute(input.session.plan.start, 100 * i - 1);
  }

  /** The planner's answer, from its parts. */
  lemma PlansFrom(request: Request, calendar: Market.Calendar, bars: seq<EligibleBar>,
                  range: TimeRange)
    requires Refusal(request).None? && EligibleBars(request, calendar) == Ok(bars) && request.maxBarsPerJob >= 1
    requires request.checkpointBefore.completeThrough.Some?
    requires IsBoundary(request, bars, request.checkpointBefore.completeThrough.value)
    requires request.checkpointBefore.completeThrough.value != request.recoveryRange.end
    requires NextRange(bars, request.checkpointBefore.completeThrough.value, request.maxBarsPerJob) == Some(range)
    ensures PlanNext(request, calendar) == Ok(Some(JobFor(request, range)))
  {
  }

  /** From any checkpoint `i` chunks on, the simulation plans the frozen range of chunk `i`. */
  lemma SimulationPlans(input: Input, recoveryId: string, bars: seq<EligibleBar>, j: nat,
                        c: StoredCheckpoint, i: nat)
    requires Ready(input, recoveryId, bars, j) && Follows(input, c, i) && i < 4
    ensures var request := input.Request(SimulatedId(input), c);
            PlanNext(request, input.Calendar()) == Ok(Some(JobFor(request, Span(input.session.plan.start, i))))
  {
    LaterRequest(input, recoveryId, bars, j, c, i);
    BoundaryPending(input, recoveryId, bars, j, i);
    BlockTurn(bars, BoundaryAt(input, i), input.session.plan.start, j, i);
    if i > 0 { SpanFits(input.session.plan.start, i - 1); }
    PlansFrom(input.Request(SimulatedId(input), c), input.Calendar(), bars, Span(input.session.plan.start, i));
  }

  // The simulation, chunk by chunk.

  /** What the simulation reports for chunk `i`. */
  ghost predicate Reports(input: Input, chunk: SimChunk, i: nat)
    requires input.checkpointBefore.completeThrough.Some?
  {
    var version := input.checkpointBefore.version;
    && chunk.ordinal == i + 1
    && chunk.summary.jobId.RecoveryJob? && chunk.summary.jobId.range == Span(input.session.plan.start, i)
    && chunk.summary == Summary(chunk.summary.jobId, Succeeded, Counts(1, |OwnPage(input, i)|, 0, 0, 0), 0,
                                |OwnMissing(input, i)|)
    && chunk.before == SimMark(Some(BoundaryAt(input, i)), version + i)
    && chunk.after == SimMark(Some(BoundaryAt(input, i + 1)), version + i + 1) && chunk.stateAfter == Complete
  }

  lemma SingleSession(input: Input)
    requires input.session.plan.start < input.session.plan.end
    ensures WellFormedSessions(input.Calendar().sessions)
  {
  }

  /** The job of chunk `i` ends ahead of the checkpoint it is planned from. */
  lemma ChunkEndsAhead(input: Input, recoveryId: string, bars: seq<EligibleBar>, j: nat,
                       c: StoredCheckpoint, i: nat)
    requires Ready(input, recoveryId, bars, j) && Follows(input, c, i) && i < 4
    ensures var request := input.Request(SimulatedId(input), c);
            EndsAhead(JobFor(request, Span(input.session.plan.start, i)), input.Grid(), c)
  {
    var request := input.Request(SimulatedId(input), c);
    SimulationPlans(input, recoveryId, bars, j, c, i);
    SingleSession(input);
    JobEndsAhead(request, input.Calendar(), JobFor(request, Span(input.session.plan.start, i)));
  }

  lemma FeedVariant()
    ensures PageVariant(StockBars, "iex") == VARIANT
  {
  }

  lemma CommittedFollows(input: Input, c: StoredCheckpoint, after: StoredCheckpoint, i: nat)
    requires input.checkpointBefore.completeThrough.Some? && Follows(input, c, i)
             && FrozenIdentity(input.checkpointBefore)
    requires input.session.coverageKey == input.checkpointBefore.coverageKey
    requires Committed(JobFor(input.Request(SimulatedId(input), c), Span(input.session.plan.start, i)), "iex", c, after)
    ensures Follows(input, after, i + 1)
  {
    FeedVariant();
  }

  ghost predicate AcceptedBefore(s: SimState, bound: Instant) {
    forall at :: at in s.accepted ==> at < bound
  }

  /** A round from chunk `i` reports it, and leaves the checkpoint and the accepted starts one chunk on. */
  ghost predicate RoundRan(input: Input, round: Round, s: SimState, i: nat)
    requires input.checkpointBefore.completeThrough.Some?
  {
    var r := round(s);
    && r.Ok? && r.value.Some?
    && var state := r.value.value.state;
       && Reports(input,
                  SimChunk(i + 1, r.value.value.summary, MarkOf(s.current), MarkOf(state.current), state.current.state),
                  i)
       && Follows(input, state.current, i + 1) && AcceptedBefore(state, Span(input.session.plan.start, i).end)
  }

  /** One round of the simulation. */
  lemma RoundRuns(input: Input, recoveryId: string, bars: seq<EligibleBar>, j: nat, options: Options,
                  s: SimState, i: nat)
    requires Parsed(input) && Ready(input, recoveryId, bars, j) && Follows(input, s.current, i) && i < 4
    requires options.maxBars == 100 && options.feed == "iex"
             && input.session.coverageKey == input.checkpointBefore.coverageKey
    requires AcceptedBefore(s, Span(input.session.plan.start, i).start)
    ensures RoundRan(input, RoundFor(input, options), s, i)
  {
    var request, range := input.Request(SimulatedId(input), s.current), Span(input.session.plan.start, i);
    var job := JobFor(request, range);
    SimulationPlans(input, recoveryId, bars, j, s.current, i);
    ChunkEndsAhead(input, recoveryId, bars, j, s.current, i);
    ChunkExecutes(input, i, job, options, s);
    SpanFits(input.session.plan.start, i);
    var step := Executed(job, input.Grid(), options, input.session, OwnAbsences(input, i), s).value;
    CommittedFollows(input, s.current, step.state.current, i);
  }

  /** Every round runs, from wherever the loop can be. */
  ghost predicate RoundsRun(input: Input, round: Round) {
    input.checkpointBefore.completeThrough.Some?
    && forall s: SimState, i: nat ::
         i < 4 && Follows(input, s.current, i) && AcceptedBefore(s, Span(input.session.plan.start, i).start)
         ==> RoundRan(input, round, s, i)
  }

  ghost predicate AllReported(input: Input, chunks: seq<SimChunk>, i: nat)
    requires input.checkpointBefore.completeThrough.Some?
  {
    if i >= 4 then chunks == []
    else chunks != [] && Reports(input, chunks[0], i) && AllReported(input, chunks[1..], i + 1)
  }

  lemma {:induction false} LoopRuns(input: Input, round: Round, s: SimState, i: nat, ordinal: nat)
    requires RoundsRun(input, round) && Follows(input, s.current, i) && i <= 4 && ordinal == i + 1
    requires i < 4 ==> AcceptedBefore(s, Span(input.session.plan.start, i).start)
    ensures var r := Loop(round, s, ordinal);
            r.Ok? && AllReported(input, r.value.chunks, i) && Follows(input, r.value.state.current, 4)
    decreases 4 - i
  {
    if i < 4 {
      assert RoundRan(input, round, s, i);
      var step := round(s).value.value;
      LoopRuns(input, round, step.state, i + 1, ordinal + 1);
      LoopStep(input, round, s, ordinal, step, i);
    }
  }

  lemma LoopStep(input: Input, round: Round, s: SimState, ordinal: nat, step: Step, i: nat)
    requires input.checkpointBefore.completeThrough.Some? && i < 4 && ordinal == i + 1
    requires round(s) == Ok(Some(step)) && Loop(round, step.state, ordinal + 1).Ok?
    requires Reports(input,
                     SimChunk(ordinal, step.summary, MarkOf(s.current), MarkOf(step.state.current),
                              step.state.current.state), i)
    requires AllReported(input, Loop(round, step.state, ordinal + 1).value.chunks, i + 1)
    ensures Loop(round, s, ordinal).Ok? && AllReported(input, Loop(round, s, ordinal).value.chunks, i)
    ensures Loop(round, s, ordinal).value.state == Loop(round, step.state, ordinal + 1).value.state
  {
    var first := SimChunk(ordinal, step.summary, MarkOf(s.current), MarkOf(step.state.current),
                          step.state.current.state);
    var rest := Loop(round, step.state, ordinal + 1).value.chunks;
    assert ([first] + rest)[1..] == rest;
  }

  // The packet.

  lemma {:induction false} PacketChunksSpec(chunks: seq<FrozenChunk>, absences: seq<Absence>)
    requires PacketChunks(chunks, absences).Ok?
    ensures |PacketChunks(chunks, absences).value| == |chunks|
    ensures forall i :: 0 <= i < |chunks| ==>
              PacketChunks(chunks, absences).value[i] == PacketChunkFor(chunks[i],
                                                                        Between(absences, chunks[i].requestedRange))
  {
    if chunks != [] { PacketChunksSpec(chunks[1..], absences); }
  }

  lemma {:induction false} SizedAt(chunks: seq<FrozenChunk>, open: Instant, i: nat, k: nat)
    requires Sized(chunks, open, i) && i + k < 4
    ensures k < |chunks| && chunks[k].requestedRange == Span(open, i + k) && chunks[k].expectedBarCount == Length(i + k)
  {
    if k > 0 { SizedAt(chunks[1..], open, i + 1, k - 1); }
  }

  /** A chunk of the packet and a chunk of the simulation tell the same story. */
  ghost predicate Agrees(p: PacketChunk, s: SimChunk) {
    && p.ordinal == s.ordinal
    && p.jobId.RecoveryJob? && s.summary.jobId.RecoveryJob?
    && p.jobId.range == s.summary.jobId.range == p.requestedRange
    && s.before == SimMark(Some(p.before.completeThrough), p.before.version)
    && s.after == SimMark(Some(p.after.completeThrough), p.after.version) && s.stateAfter == Complete
    && s.summary.outcome == Succeeded && s.summary.counts == Counts(1, Max(p.localProviderBars, 0), 0, 0, 0)
    && p.localProviderBars >= 0
    && s.summary.missing == 0 && s.summary.acknowledgedAbsent == p.acknowledgedAbsent
    && p.localProviderBars + p.acknowledgedAbsent == p.expectedGridBars
  }

  lemma OnlySessionBars(input: Input, request: Request)
    requires request.instrument.route == StockBars && request.instrument.cadence == OneMin
             && request.sessionScope == RegularScope
    requires EligibleBars(request, input.Calendar()).Ok?
    ensures forall e :: e in EligibleBars(request, input.Calendar()).value ==> e.bar.start >= input.session.plan.start
  {
    var sessions := SelectedSessions(request, input.Calendar());
    SelectedInScope(request, input.Calendar());
    SessionsEligibleSpec(request.Grid(input.Calendar()), sessions, request.calendarRevision, request.recoveryRange);
  }

  lemma {:induction false} PendingSubset(bars: seq<EligibleBar>, through: Instant)
    ensures forall e :: e in Pending(bars, through) ==> e in bars
  {
    if bars != [] { PendingSubset(bars[1..], through); }
  }

  /** A campaign that freezes was planned from an accepted request. */
  lemma FrozenMeansAccepted(campaign: string, request: Request, calendar: Market.Calendar,
                            session: Session)
    requires Frozen(campaign, request, calendar, session).Ok?
    ensures Refused(campaign, request, calendar, session).None? && Accepted(request, calendar) && Refusal(request).None?
  {
    WholeMinutes(TimeRange(session.opensAt, session.closesAt));
    assert NextChunk(PlannerFor(calendar), request, session, 1).Ok?;
  }

  lemma FrozenMeansReady(input: Input, campaign: string, recovery: string)
    returns (bars: seq<EligibleBar>, j: nat)
    requires input.checkpointBefore.completeThrough.Some? && FrozenIdentity(input.checkpointBefore)
    requires Frozen(campaign, input.Request(recovery, input.checkpointBefore), input.Calendar(),
                    input.MarketSession()).Ok?
    ensures Ready(input, recovery, bars, j)
    ensures Sized(Frozen(campaign, input.Request(recovery, input.checkpointBefore), input.Calendar(),
                         input.MarketSession()).value.chunks,
                  input.session.plan.start, 0)
  {
    var request, calendar, session := input.Request(recovery, input.checkpointBefore), input.Calendar(),
                                      input.MarketSession();
    FrozenMeansAccepted(campaign, request, calendar, session);
    NotRefused(campaign, request, calendar, session);
    AcceptedPlans(request, calendar);
    bars := BarsFor(request, calendar);
    OnlySessionBars(input, request);
    PendingSubset(bars, request.checkpointBefore.completeThrough.value);
    j := SessionBlock(request, calendar, session);
    PendingFromBlock(bars, request.checkpointBefore.completeThrough.value, j, session.opensAt);
    FullSessionFreezes(campaign, request, calendar, session);
  }

  /** Chunk `i` of a frozen one-session campaign. */
  lemma FrozenChunkIs(input: Input, campaign: string, recovery: string, i: nat)
    requires input.checkpointBefore.completeThrough.Some? && FrozenIdentity(input.checkpointBefore) && i < 4
    requires Frozen(campaign, input.Request(recovery, input.checkpointBefore), input.Calendar(),
                    input.MarketSession()).Ok?
    ensures var chunks := Frozen(campaign, input.Request(recovery, input.checkpointBefore), input.Calendar(),
                                 input.MarketSession()).value.chunks;
            var version := input.checkpointBefore.version;
            && |chunks| == 4 && chunks[i].ordinal == i + 1
            && chunks[i].jobId.RecoveryJob?
            && chunks[i].jobId.range == chunks[i].requestedRange == Span(input.session.plan.start, i)
            && chunks[i].expectedBarCount == Length(i)
            && chunks[i].before == Mark(BoundaryAt(input, i), version + i)
            && chunks[i].after == Mark(BoundaryAt(input, i + 1), version + i + 1)
  {
    var request, calendar, session := input.Request(recovery, input.checkpointBefore), input.Calendar(),
                                      input.MarketSession();
    var chunks := Frozen(campaign, request, calendar, session).value.chunks;
    var bars, j := FrozenMeansReady(input, campaign, recovery);
    FrozenTilesSession(campaign, request, calendar, session);
    SizedAt(chunks, session.opensAt, 0, i);
    var from := Mark(input.checkpointBefore.completeThrough.value, input.checkpointBefore.version);
    LinkedVersions(chunks, from, session.closesAt, i);
    if i > 0 {
      LinkedVersions(chunks, from, session.closesAt, i - 1);
      SizedAt(chunks, session.opensAt, 0, i - 1);
    }
    var job := ChunkIsPlanned(PlannerFor(calendar), request, session, 1, i);
    JobCarriesRequest(RequestAt(request, chunks, i), calendar, job);
  }

  lemma {:induction false} ReportedAt(input: Input, chunks: seq<SimChunk>, i: nat, k: nat)
    requires input.checkpointBefore.completeThrough.Some? && AllReported(input, chunks, i) && i + k < 4
    ensures |chunks| == 4 - i && Reports(input, chunks[k], i + k)
  {
    if k > 0 {
      ReportedAt(input, chunks[1..], i + 1, k - 1);
    } else {
      ReportedCount(input, chunks, i);
    }
  }

  lemma {:induction false} ReportedCount(input: Input, chunks: seq<SimChunk>, i: nat)
    requires input.checkpointBefore.completeThrough.Some? && AllReported(input, chunks, i) && i <= 4
    ensures |chunks| == 4 - i
    decreases 4 - i
  {
    if i < 4 { ReportedCount(input, chunks[1..], i + 1); }
  }

  function TotalInserted(chunks: seq<SimChunk>): nat {
    if chunks == [] then 0 else chunks[0].summary.counts.inserted + TotalInserted(chunks[1..])
  }

  /** Every good bar is on exactly one of the four pages. */
  lemma {:induction false} PagesPartition(bars: seq<SourceBar>, open: Instant)
    requires GoodBars(bars, open, 390)
    ensures |PageOf(bars, Span(open, 0))| + |PageOf(bars, Span(open, 1))| + |PageOf(bars,
                                                                                    Span(open, 2))| + |PageOf(bars,
                                                                                                              Span(open,
                                                                                                                   3))|
         == |bars|
  {
    if bars != [] {
      GoodTail(bars, open, 390);
      PagesPartition(bars[1..], open);
    }
  }

  lemma ReportedTotal(input: Input, chunks: seq<SimChunk>)
    requires input.checkpointBefore.completeThrough.Some? && AllReported(input, chunks, 0)
    ensures TotalInserted(chunks) == |OwnPage(input, 0)| + |OwnPage(input, 1)| + |OwnPage(input, 2)| + |OwnPage(input,
                                                                                                                3)|
  {
    var a := chunks[1..];
    assert AllReported(input, a, 1);
    var b := a[1..];
    assert AllReported(input, b, 2);
    var c := b[1..];
    assert AllReported(input, c, 3) && AllReported(input, c[1..], 4);
    assert TotalInserted(c) == |OwnPage(input, 3)|;
    assert TotalInserted(b) == |OwnPage(input, 2)| + TotalInserted(c);
    assert TotalInserted(a) == |OwnPage(input, 1)| + TotalInserted(b);
  }

  /** The simulation of a session whose packet could be built. */
  lemma SimulationRuns(input: Input, campaign: string, recovery: string, options: Options)
    requires Parsed(input) && input.checkpointBefore.completeThrough.Some? && FrozenIdentity(input.checkpointBefore)
    requires input.session.coverageKey == input.checkpointBefore.coverageKey
    requires Frozen(campaign, input.Request(recovery, input.checkpointBefore), input.Calendar(),
                    input.MarketSession()).Ok?
    requires options.maxBars == 100 && options.feed == "iex"
    requires input.checkpointBefore.state == Complete && input.checkpointBefore.missingRanges == []
    ensures Simulated(input, options).Ok?
    ensures var sim := Simulated(input, options).value;
            && AllReported(input, sim.chunks, 0) && sim.initial == MarkOf(input.checkpointBefore)
            && sim.final == SimMark(Some(input.session.plan.end), input.checkpointBefore.version + 4)
            && sim.finalState == Complete
  {
    var bars, j := FrozenMeansReady(input, campaign, recovery);
    var s := SimState(input.checkpointBefore, {});
    assert Follows(input, s.current, 0);
    forall t: SimState, i: nat
      | i < 4 && Follows(input, t.current, i) && AcceptedBefore(t, Span(input.session.plan.start, i).start)
      ensures RoundRan(input, RoundFor(input, options), t, i)
    {
      RoundRuns(input, recovery, bars, j, options, t, i);
    }
    LoopRuns(input, RoundFor(input, options), s, 0, 1);
  }

  /** The dry-run packet predicts the simulation.  For any structurally valid 390-bar session of well-formed
      bars, with its missing minutes as absences, and any input a packet can be built for, the simulation runs
      to its end, and chunk by chunk the two tell the same ranges, checkpoints and counts: every local bar is
      inserted once, nothing is missing, and the final checkpoint is complete at the close, four versions on. */
  lemma PacketPredictsSimulation(input: Input, campaignId: Option<string>,
                                 recoveryId: Option<string>,
                                 texts: seq<string>, parse: Parse, attemptId: string, dates: Dates)
    requires input.session.plan.expectedBars == 390
    requires TextsOf(texts, parse, input.session.bars) && Validated(input.session.plan, texts, parse).structurallyValid
    requires forall i :: 0 <= i < |input.session.bars|
               ==> input.session.bars[i].symbol == SYMBOL && input.session.bars[i].fault.None?
    requires input.coverageAbsences == AbsencesFor(Validated(input.session.plan, texts, parse).missing)
    requires Buildable(input, campaignId, recoveryId)
    ensures BuildPacket(input, campaignId, recoveryId).Ok? && Simulated(input, SimOptions(input, attemptId, dates)).Ok?
    ensures var packet := BuildPacket(input, campaignId, recoveryId).value;
            var sim := Simulated(input, SimOptions(input, attemptId, dates)).value;
            && |packet.chunks| == 4 == |sim.chunks|
            && (forall i :: 0 <= i < 4 ==> Agrees(packet.chunks[i], sim.chunks[i]))
            && sim.initial == SimMark(Some(packet.before.completeThrough), packet.before.version)
            && sim.final == SimMark(Some(input.session.plan.end), packet.before.version + 4)
            && sim.finalState == Complete
            && TotalInserted(sim.chunks) == |input.session.bars| == packet.bars
  {
    PacketBuiltIff(input, campaignId, recoveryId);
    PredictionHolds(input, campaignId, recoveryId, texts, parse, SimOptions(input, attemptId, dates));
  }

  lemma PredictionHolds(input: Input, campaignId: Option<string>, recoveryId: Option<string>,
                        texts: seq<string>, parse: Parse, options: Options)
    requires input.session.plan.expectedBars == 390 && options.maxBars == 100 && options.feed == "iex"
    requires TextsOf(texts, parse, input.session.bars) && Validated(input.session.plan, texts, parse).structurallyValid
    requires forall i :: 0 <= i < |input.session.bars|
               ==> input.session.bars[i].symbol == SYMBOL && input.session.bars[i].fault.None?
    requires input.coverageAbsences == AbsencesFor(Validated(input.session.plan, texts, parse).missing)
    requires BuildPacket(input, campaignId, recoveryId).Ok?
    ensures Simulated(input, options).Ok?
    ensures var packet, sim := BuildPacket(input, campaignId, recoveryId).value, Simulated(input, options).value;
            && |packet.chunks| == 4 == |sim.chunks|
            && (forall i :: 0 <= i < 4 ==> Agrees(packet.chunks[i], sim.chunks[i]))
            && sim.initial == SimMark(Some(packet.before.completeThrough), packet.before.version)
            && sim.final == SimMark(Some(input.session.plan.end), packet.before.version + 4)
            && sim.finalState == Complete
            && TotalInserted(sim.chunks) == |input.session.bars| == packet.bars
  {
    var packet := BuildPacket(input, campaignId, recoveryId).value;
    var request := input.Request(packet.recoveryId, input.checkpointBefore);
    FrozenMeansAccepted(packet.campaignId, request, input.Calendar(), input.MarketSession());
    WholeMinutes(TimeRange(input.session.plan.start, input.session.plan.end));
    ValidatedBarsAreGood(input.session.plan, texts, parse, input.session.bars);
    SimulationRuns(input, packet.campaignId, packet.recoveryId, options);
    var sim := Simulated(input, options).value;
    ReportedTotal(input, sim.chunks);
    PagesPartition(input.session.bars, input.session.plan.start);
    ReportedCount(input, sim.chunks, 0);
    PacketChunksSpec(Frozen(packet.campaignId, request, input.Calendar(), input.MarketSession()).value.chunks,
                     input.coverageAbsences);
    forall i | 0 <= i < 4 ensures i < |packet.chunks| == 4 && Agrees(packet.chunks[i], sim.chunks[i]) {
      ReportedAt(input, sim.chunks, 0, i);
      ChunkAgrees(input, packet.campaignId, packet.recoveryId, i, sim.chunks[i]);
    }
  }

  lemma ChunkAgrees(input: Input, campaign: string, recovery: string, i: nat, reported: SimChunk)
    requires Parsed(input) && input.checkpointBefore.completeThrough.Some? && FrozenIdentity(input.checkpointBefore)
             && i < 4
    requires Frozen(campaign, input.Request(recovery, input.checkpointBefore), input.Calendar(),
                    input.MarketSession()).Ok?
    requires Reports(input, reported, i)
    ensures var chunks := Frozen(campaign, input.Request(recovery, input.checkpointBefore), input.Calendar(),
                                 input.MarketSession()).value.chunks;
            |chunks| == 4
            && Agrees(PacketChunkFor(chunks[i], Between(input.coverageAbsences, chunks[i].requestedRange)), reported)
  {
    FrozenChunkIs(input, campaign, recovery, i);
    OwnCounts(input, i);
  }

  // Exactly when a packet can be built.

  /** What a caller can check beforehand: the frozen identity, a clean checkpoint not past the opening, names
      that are not empty, and a session of 390 minutes. */
  predicate Buildable(input: Input, campaignId: Option<string>, recoveryId: Option<string>) {
    var c, plan := input.checkpointBefore, input.session.plan;
    && input.session.coverageKey == c.coverageKey == CoverageKeyFor(Instrument(SYMBOL, OneMin, StockBars), RegularScope,
                                                                    VARIANT)
    && FrozenIdentity(c) && Clean(c)
    && CampaignId(input, campaignId) != "" && RecoveryId(input, recoveryId) != ""
    && input.session.providerRevision != ""
    && input.calendarRevision != "" && Universe(c) != ""
    && plan.end - plan.start == 390 * 60_000 && c.completeThrough.value <= plan.start
  }

  lemma OneSession(input: Input, request: Request)
    requires request.sessionScope == RegularScope
    ensures SelectedSessions(request, input.Calendar()) == [input.MarketSession()]
  {
    var s := input.MarketSession();
    assert [s][1..] == [] && OfScope([], RegularScope) == [];
    assert OfScope([s], RegularScope) == [s];
    SortOne(OpensNoLater, s);
  }

  lemma KeyNonEmpty()
    ensures CoverageKeyFor(Instrument(SYMBOL, OneMin, StockBars), RegularScope, VARIANT) != ""
  {
    assert |SYMBOL| == 4;
  }

  lemma BuildableIsAccepted(input: Input, campaignId: Option<string>, recoveryId: Option<string>)
    requires Buildable(input, campaignId, recoveryId)
    ensures var request := input.Request(RecoveryId(input, recoveryId), input.checkpointBefore);
            Refused(CampaignId(input, campaignId), request, input.Calendar(), input.MarketSession()).None?
            && PlanNext(request, input.Calendar()).Ok?
  {
    var request := input.Request(RecoveryId(input, recoveryId), input.checkpointBefore);
    OneSession(input, request);
    KeyNonEmpty();
    assert SessionFits([input.MarketSession()], input.calendarRevision, 0);
  }

  lemma {:induction false} SizedPacket(chunks: seq<FrozenChunk>, absences: seq<Absence>, open: Instant, i: nat)
    requires Sized(chunks, open, i) && i <= 4
    ensures PacketChunks(chunks, absences).Ok?
    decreases 4 - i
  {
    if i < 4 {
      SpanFits(open, i);
      SizedPacket(chunks[1..], absences, open, i + 1);
    }
  }

  lemma BuildableFreezes(input: Input, campaignId: Option<string>, recoveryId: Option<string>)
    requires Buildable(input, campaignId, recoveryId)
    ensures var frozen := Frozen(CampaignId(input, campaignId),
                                 input.Request(RecoveryId(input, recoveryId), input.checkpointBefore),
                                 input.Calendar(), input.MarketSession());
            frozen.Ok? && Sized(frozen.value.chunks, input.session.plan.start, 0)
  {
    var request := input.Request(RecoveryId(input, recoveryId), input.checkpointBefore);
    BuildableIsAccepted(input, campaignId, recoveryId);
    AcceptedPlans(request, input.Calendar());
    OnlySessionBars(input, request);
    PendingSubset(BarsFor(request, input.Calendar()), request.checkpointBefore.completeThrough.value);
    FullSessionFreezes(CampaignId(input, campaignId), request, input.Calendar(), input.MarketSession());
  }

  /** A packet can be built if and only if the input is of that kind. */
  lemma PacketBuiltIff(input: Input, campaignId: Option<string>, recoveryId: Option<string>)
    ensures BuildPacket(input, campaignId, recoveryId).Ok? <==> Buildable(input, campaignId, recoveryId)
  {
    if Buildable(input, campaignId, recoveryId) {
      BuildableFreezes(input, campaignId, recoveryId);
      var frozen := Frozen(CampaignId(input, campaignId),
                           input.Request(RecoveryId(input, recoveryId), input.checkpointBefore),
                           input.Calendar(), input.MarketSession());
      SizedPacket(frozen.value.chunks, input.coverageAbsences, input.session.plan.start, 0);
    }
    if BuildPacket(input, campaignId, recoveryId).Ok? {
      FrozenMeansAccepted(CampaignId(input, campaignId),
                          input.Request(RecoveryId(input, recoveryId), input.checkpointBefore),
                          input.Calendar(), input.MarketSession());
      WholeMinutes(TimeRange(input.session.plan.start, input.session.plan.end));
    }
  }

  /** Once a campaign is frozen the packet is built. */
  lemma PacketNeedsFreezing(input: Input, campaignId: Option<string>, recoveryId: Option<string>)
    requires var c := input.checkpointBefore;
             && input.session.coverageKey == c.coverageKey && FrozenIdentity(c) && c.state == Complete
             && c.missingRanges == [] && c.blocker.None? && c.completeThrough.Some?
    ensures var frozen := Frozen(CampaignId(input, campaignId),
                                 input.Request(RecoveryId(input, recoveryId), input.checkpointBefore),
                                 input.Calendar(), input.MarketSession());
            if frozen.Err? then BuildPacket(input, campaignId, recoveryId) == Err(frozen.error)
            else BuildPacket(input, campaignId, recoveryId).Ok?
  {
    var frozen := Frozen(CampaignId(input, campaignId),
                         input.Request(RecoveryId(input, recoveryId), input.checkpointBefore),
                         input.Calendar(), input.MarketSession());
    if frozen.Ok? {
      FrozenTilesSession(CampaignId(input, campaignId),
                         input.Request(RecoveryId(input, recoveryId), input.checkpointBefore),
                         input.Calendar(), input.MarketSession());
      TiledChunksSplit(frozen.value.chunks, input.coverageAbsences, input.MarketSession().opensAt,
                       input.MarketSession().closesAt);
    }
  }

  /** Chunks that tile a session have non-empty ranges, so absences split over them. */
  lemma {:induction false} TiledChunksSplit(chunks: seq<FrozenChunk>, absences: seq<Absence>, at: Instant, to: Instant)
    requires Tiles(chunks, at, to)
    ensures PacketChunks(chunks, absences).Ok?
  {
    if chunks != [] { TiledChunksSplit(chunks[1..], absences, chunks[0].requestedRange.end, to); }
  }

  /** The error when no packet can be built: the first thing that is wrong with the checkpoint, or else the error of
      freezing the campaign. */
  lemma PacketFailsFirst(input: Input, campaignId: Option<string>, recoveryId: Option<string>)
    requires BuildPacket(input, campaignId, recoveryId).Err?
    ensures var c, found := input.checkpointBefore, BuildPacket(input, campaignId, recoveryId).error;
            var foreign := (c.symbol, c.interval, c.sessionScope, c.logicalDataVariant)
                           != ("NVDA", OneMin, RegularScope, "stock:iex:raw");
            var unclean := c.state != Complete || |c.missingRanges| > 0 || c.blocker.Some? || c.completeThrough.None?;
            if input.session.coverageKey != c.coverageKey then found == EvidenceKeyMismatch
            else if foreign then found == ForeignIdentity
            else if unclean then found == UncleanCheckpoint
            else Frozen(CampaignId(input, campaignId), input.Request(RecoveryId(input, recoveryId), c),
                        input.Calendar(), input.MarketSession()) == Err(found)
  {
    var c := input.checkpointBefore;
    if input.session.coverageKey == c.coverageKey && FrozenIdentity(c) && c.state == Complete && c.missingRanges == []
       && c.blocker.None? && c.completeThrough.Some?
    {
      PacketNeedsFreezing(input, campaignId, recoveryId);
    }
  }

  lemma {:induction false} NoDashes(x: string, rest: string)
    requires '-' !in x
    ensures Compact(x + rest) == x + Compact(rest)
  {
    if x == [] {
      assert x + rest == rest;
    } else {
      assert (x + rest)[0] == x[0] && (x + rest)[1..] == x[1..] + rest;
      NoDashes(x[1..], rest);
    }
  }

  lemma {:induction false} DashGoes(rest: string)
    ensures Compact("-" + rest) == Compact(rest)
  {
    assert ("-" + rest)[1..] == rest;
  }

  lemma {:induction false} CompactDate(year: string, month: string, day: string)
    requires '-' !in year && '-' !in month && '-' !in day
    ensures Compact(year + ("-" + (month + ("-" + day)))) == year + (month + day)
  {
    NoDashes(year, "-" + (month + ("-" + day)));
    DashGoes(month + ("-" + day));
    NoDashes(month, "-" + day);
    DashGoes(day);
    NoDashes(day, []);
    assert day + [] == day;
  }

  /** Without names of its own the packet is named after the market date, and so is the simulation. */
  lemma DefaultNames(input: Input, year: string, month: string, day: string, name: string)
    requires '-' !in year && '-' !in month && '-' !in day
    requires input.session.marketDate == year + ("-" + (month + ("-" + day)))
    ensures CampaignId(input, None) == "PB04-NVDA-" + (year + (month + day)) + "-LOCAL-DRYRUN"
    ensures RecoveryId(input, None) == "L1-003-NVDA-" + (year + (month + day)) + "-LOCAL"
    ensures SimulatedId(input) == "L1-003-NVDA-" + (year + (month + day)) + "-LOCAL-SIM"
    ensures CampaignId(input, Some(name)) == name == RecoveryId(input, Some(name))
  {
    CompactDate(year, month, day);
  }
}
