/** Catch-up: with a fixed clock and a provider that serves every requested bar, planning and executing
    again and again ends, and then nothing below the boundary is left. */
module CatchUp {
  import opened Market
  import opened SessionGrid
  import opened MissingRanges
  import opened Checkpoint
  import opened Schedule
  import opened Execution
  import opened CoverageProtocol

  /** One stream, seen by a scheduler whose clock stands still. */
  datatype Stream = Stream(config: Config, g: Grid, now: Instant) {
    function Boundary(): Option<Instant> { LatestBoundary(g, now, config.finalizationLagMs.Of(g.cadence)) }

    function Overlap(): int { config.overlapMs.Of(g.cadence) }

    function Room(): int { g.Interval() * config.maxBarsPerJob }

    /** The overlap leaves room for a new bar, sessions consist of whole bars, and the floor does not cut
        one: none of this follows from `ValidConfig`. */
    ghost predicate Regular() {
      && ValidConfig(config) && g.Wf() && !g.DailyEquity()
      && Overlap() + g.Interval() <= Room()
      && (g.route == CryptoBars ==> config.retentionFloor % g.Interval() == 0)
      && (g.route == StockBars ==> forall s :: s in g.sessions && InScope(s.kind, g.scope) ==>
            && (s.closesAt - s.opensAt) % g.Interval() == 0
            && (s.opensAt < config.retentionFloor < s.closesAt
                ==> (config.retentionFloor - s.opensAt) % g.Interval() == 0))
    }

    function Plan(row: Option<StoredCheckpoint>): Option<Window> { PlanWindow(config, g, row, now) }
  }

  function StartsOf(bars: seq<Bar>): set<Instant> {
    set b | b in bars :: b.start
  }

  /** A fully served round: every expected bar of the planned range arrives, and the commit succeeds, since a
      served proposal passes validation (`Execution.ProposalAdmissible`). */
  function Round(s: Stream, job: Job, options: Options, row: Option<StoredCheckpoint>): Option<StoredCheckpoint> {
    var w := s.Plan(row);
    if w.None? then row
    else
      var planned := job.(requestedRange := w.value.range);
      var version := if row.Some? then Some(row.value.version) else None;
      After(row, Update(version, Proposal(planned, s.g, options, row, StartsOf(Expected(s.g, w.value.range)))))
  }

  function Rounds(s: Stream, job: Job, options: Options, row: Option<StoredCheckpoint>,
                  n: nat): Option<StoredCheckpoint>
    decreases n
  {
    if n == 0 then row else Rounds(s, job, options, Round(s, job, options, row), n - 1)
  }

  /** The eligible bars inside retention and below the boundary that `completeThrough` has not passed. */
  function Remaining(s: Stream, row: Option<StoredCheckpoint>): seq<Bar> {
    if s.Boundary().None? then []
    else Unserved(ThroughOf(row), Expected(s.g, TimeRange(s.config.retentionFloor, s.Boundary().value)), {})
  }

  /** Rows the coverage protocol can reach. */
  ghost predicate Reachable(g: Grid, row: Option<StoredCheckpoint>) {
    row.Some? ==> Shaped(g, row.value)
  }

  /** The instant the next bar is expected at: the demand's anchor, lifted to retention and to the session. */
  function Target(s: Stream, d: Demand, session: Option<Session>): Instant {
    var x := Max(d.anchor, s.config.retentionFloor);
    if s.g.IntradayEquity() && session.Some? then Max(x, session.value.opensAt) else x
  }

  lemma AlignedAhead(c: Cadence, base: int, x: int, y: int)
    requires (x - base) % IntervalMs(c) == 0 && (y - base) % IntervalMs(c) == 0 && x < y
    ensures x + IntervalMs(c) <= y
  {
    AlignedDisjoint(c, base, x, y);
  }

  /** The bar containing a covered instant lies within the one gap that covers it. */
  lemma GapHoldsBar(g: Grid, c: StoredCheckpoint, gap: TimeRange, x: Instant, b: Bar)
    requires Shaped(g, c) && gap in c.missingRanges && gap.start <= x < gap.end
    requires GapBar(g, c, b) && b.start <= x < b.completes
    ensures gap.start <= b.start && b.completes <= gap.end
  {
    var i :| 0 <= i < |c.missingRanges| && c.missingRanges[i] == gap;
    assert !Covers(c.missingRanges, gap.end);
    assert !Covers(c.missingRanges, gap.start - 1);
  }

  /** A gap demand starts at a bar of the grid that fits into the gap. */
  lemma GapTarget(s: Stream, c: StoredCheckpoint, boundary: Instant) returns (b: Bar)
    requires s.Regular() && Shaped(s.g, c)
    requires FirstGap(c.missingRanges, boundary, s.config.retentionFloor).Some?
    ensures var gap := FirstGap(c.missingRanges, boundary, s.config.retentionFloor).value;
            && s.g.Eligible(b) && b.start == Max(gap.start, s.config.retentionFloor) && b.completes <= gap.end
            && (c.completeThrough.Some? ==> c.completeThrough.value <= b.start)
  {
    var floor := s.config.retentionFloor;
    FirstGapSpec(c.missingRanges, boundary, floor);
    var gap := FirstGap(c.missingRanges, boundary, floor).value;
    var i :| 0 <= i < |c.missingRanges| && c.missingRanges[i] == gap;
    var x := Max(gap.start, floor);
    assert Covers(c.missingRanges, x);
    b :| GapBar(s.g, c, b) && b.start <= x < b.completes;
    GapHoldsBar(s.g, c, gap, x, b);
    if b.start < floor {
      FloorCutsNoBar(s, b);
    }
  }

  lemma FloorCutsNoBar(s: Stream, b: Bar)
    requires s.Regular() && s.g.Eligible(b)
    ensures !(b.start < s.config.retentionFloor < b.completes)
  {
    var floor := s.config.retentionFloor;
    if s.g.route == CryptoBars {
      if b.start < floor { AlignedAhead(s.g.cadence, 0, b.start, floor); }
    } else {
      var i :| 0 <= i < |s.g.sessions| && s.g.InSession(s.g.sessions[i], b);
      var session := s.g.sessions[i];
      assert session in s.g.sessions;
      if b.start < floor < b.completes { AlignedAhead(s.g.cadence, session.opensAt, b.start, floor); }
    }
  }

  /** A bar that starts before the boundary completes by it. */
  lemma FitsBelowBoundary(s: Stream, b: Bar)
    requires s.Regular() && s.Boundary().Some? && s.g.Eligible(b) && b.start < s.Boundary().value
    ensures b.completes <= s.Boundary().value
  {
    BoundaryIsFinal(s.g, s.now, s.config.finalizationLagMs.Of(s.g.cadence));
    var e :| s.g.Eligible(e) && e.completes == s.Boundary().value;
    EligibleDisjoint(s.g, b, e);
    EligibleNonEmpty(s.g, e);
  }

  /** A whole bar starts at any aligned instant of a session that is before its close. */
  lemma BarInSession(s: Stream, session: Session, at: Instant)
    requires s.Regular() && s.g.IntradayEquity() && session in s.g.sessions && InScope(session.kind, s.g.scope)
    requires session.opensAt <= at < session.closesAt && (at - session.opensAt) % s.g.Interval() == 0
    ensures s.g.Eligible(Bar(at, at + s.g.Interval())) && at + s.g.Interval() <= session.closesAt
  {
    AlignedAhead(s.g.cadence, session.opensAt, at, session.closesAt);
    var i :| 0 <= i < |s.g.sessions| && s.g.sessions[i] == session;
    assert s.g.InSession(s.g.sessions[i], Bar(at, at + s.g.Interval()));
  }

  /** A bar completion strictly inside a session is on that session's grid. */
  lemma CompletionAligned(s: Stream, session: Session, e: Bar)
    requires s.g.Wf() && s.g.IntradayEquity() && session in s.g.sessions && InScope(session.kind, s.g.scope)
    requires s.g.Eligible(e) && session.opensAt < e.completes < session.closesAt
    ensures (e.completes - session.opensAt) % s.g.Interval() == 0
  {
    var i :| 0 <= i < |s.g.sessions| && s.g.sessions[i] == session;
    var j :| 0 <= j < |s.g.sessions| && s.g.InSession(s.g.sessions[j], e);
    assert s.g.sessions[i].kind == s.g.sessions[j].kind;
    assert i == j;
    PlusStep(s.g.cadence, e.start - session.opensAt);
  }

  /** The picked session is the one the bar at the anchor belongs to. */
  lemma SameSession(s: Stream, session: Session, i: nat, b: Bar)
    requires s.Regular() && s.g.IntradayEquity() && session in s.g.sessions && InScope(session.kind, s.g.scope)
    requires i < |s.g.sessions| && s.g.InSession(s.g.sessions[i], b)
    requires session.closesAt > b.start && session.opensAt <= s.g.sessions[i].opensAt
    ensures session == s.g.sessions[i]
  {
    var j :| 0 <= j < |s.g.sessions| && s.g.sessions[j] == session;
    assert s.g.sessions[i].kind == s.g.sessions[j].kind;
  }

  /** A gap demand: the bar at the start of what is left of the gap. */
  lemma GapDemandBar(s: Stream, c: StoredCheckpoint, session: Option<Session>) returns (b: Bar)
    requires s.Regular() && Shaped(s.g, c) && s.Boundary().Some?
    requires FirstGap(c.missingRanges, s.Boundary().value, s.config.retentionFloor).Some?
    requires s.config.retentionFloor < s.Boundary().value
    requires var gap := FirstGap(c.missingRanges, s.Boundary().value, s.config.retentionFloor).value;
             session == NextSession(s.g, s.g.sessions, Max(gap.start, s.config.retentionFloor), s.Boundary().value)
    ensures var gap := FirstGap(c.missingRanges, s.Boundary().value, s.config.retentionFloor).value;
            && s.g.Eligible(b) && b.start == Max(gap.start, s.config.retentionFloor)
            && b.completes <= gap.end && b.completes <= s.Boundary().value
            && (s.g.IntradayEquity()
                ==> session.Some? && session.value.opensAt <= b.start && b.completes <= session.value.closesAt)
            && (c.completeThrough.Some? ==> c.completeThrough.value < b.completes)
  {
    var boundary, floor := s.Boundary().value, s.config.retentionFloor;
    b := GapTarget(s, c, boundary);
    FirstGapSpec(c.missingRanges, boundary, floor);
    EligibleNonEmpty(s.g, b);
    FitsBelowBoundary(s, b);
    NextSessionSpec(s.g, s.g.sessions, b.start, boundary);
    if s.g.IntradayEquity() {
      var i :| 0 <= i < |s.g.sessions| && s.g.InSession(s.g.sessions[i], b);
      assert s.g.sessions[i] in s.g.sessions;
      SameSession(s, session.value, i, b);
    }
  }

  /** `at` is the floor, where the last round stopped, or an opening. */
  ghost predicate Forward(s: Stream, row: Option<StoredCheckpoint>, session: Option<Session>, at: Instant) {
    at == s.config.retentionFloor || (ThroughOf(row).Some? && at == ThroughOf(row).value)
    || (s.g.IntradayEquity() && session.Some? && at == session.value.opensAt)
  }

  lemma ForwardEquityBar(s: Stream, row: Option<StoredCheckpoint>, session: Session, at: Instant)
    requires s.Regular() && Reachable(s.g, row) && s.g.IntradayEquity() && Forward(s, row, Some(session), at)
    requires session in s.g.sessions && InScope(session.kind, s.g.scope) && session.opensAt <= at < session.closesAt
    ensures s.g.Eligible(Bar(at, at + s.g.Interval())) && at + s.g.Interval() <= session.closesAt
  {
    if session.opensAt < at && at != s.config.retentionFloor {
      var e :| s.g.Eligible(e) && e.completes == row.value.completeThrough.value;
      CompletionAligned(s, session, e);
    }
    BarInSession(s, session, at);
  }

  lemma ForwardCryptoBar(s: Stream, row: Option<StoredCheckpoint>, at: Instant)
    requires s.Regular() && Reachable(s.g, row) && s.g.route == CryptoBars && Forward(s, row, None, at)
    ensures s.g.Eligible(Bar(at, at + s.g.Interval()))
  {
    if at != s.config.retentionFloor {
      var e :| s.g.Eligible(e) && e.completes == row.value.completeThrough.value;
      PlusStep(s.g.cadence, e.start);
    }
  }

  /** Any other demand: the bar at `at`. */
  lemma ForwardDemandBar(s: Stream, row: Option<StoredCheckpoint>, session: Option<Session>, at: Instant)
    requires s.Regular() && Reachable(s.g, row) && s.Boundary().Some? && at < s.Boundary().value
    requires Forward(s, row, session, at)
    requires s.g.IntradayEquity() ==>
               && session.Some? && session.value in s.g.sessions && InScope(session.value.kind, s.g.scope)
               && session.value.opensAt <= at < session.value.closesAt
    ensures s.g.Eligible(Bar(at, at + s.g.Interval())) && at + s.g.Interval() <= s.Boundary().value
    ensures s.g.IntradayEquity() ==> at + s.g.Interval() <= session.value.closesAt
  {
    if s.g.IntradayEquity() {
      ForwardEquityBar(s, row, session.value, at);
    } else {
      ForwardCryptoBar(s, row, at);
    }
    FitsBelowBoundary(s, Bar(at, at + s.g.Interval()));
  }

  /** The bar the next demand starts from: eligible, not yet passed, and inside every clamp but the room. */
  lemma TargetBar(s: Stream, row: Option<StoredCheckpoint>, d: Demand, session: Option<Session>) returns (b: Bar)
    requires s.Regular() && Reachable(s.g, row) && s.Boundary().Some? && s.config.retentionFloor < s.Boundary().value
    requires DemandFor(s.config, s.g, row, s.Boundary().value) == Some(d)
    requires session == NextSession(s.g, s.g.sessions, Max(d.anchor, s.config.retentionFloor), s.Boundary().value)
    requires s.g.IntradayEquity() ==> session.Some?
    ensures s.g.Eligible(b) && b.start == Target(s, d, session) && b.completes <= d.end
    ensures s.g.IntradayEquity() ==> b.completes <= session.value.closesAt
    ensures ThroughOf(row).Some? ==> ThroughOf(row).value < b.completes
  {
    var boundary, floor := s.Boundary().value, s.config.retentionFloor;
    if d.dueReason == MissingRange {
      b := GapDemandBar(s, row.value, session);
    } else {
      NextSessionSpec(s.g, s.g.sessions, Max(d.anchor, floor), boundary);
      var m := Target(s, d, session);
      b := Bar(m, m + s.g.Interval());
      ForwardDemandBar(s, row, session, m);
    }
  }

  /** The range of a planned job holds whatever bar starts at the target and fits under every clamp but the room. */
  lemma TargetInRange(s: Stream, row: Option<StoredCheckpoint>, d: Demand, session: Option<Session>, b: Bar)
    requires s.Regular() && s.Plan(row).Some? && DemandFor(s.config, s.g, row, s.Boundary().value) == Some(d)
    requires session == NextSession(s.g, s.g.sessions, Max(d.anchor, s.config.retentionFloor), s.Boundary().value)
    requires b.start == Target(s, d, session) && b.completes == b.start + s.g.Interval() && b.completes <= d.end
    requires s.g.IntradayEquity() ==> b.completes <= session.value.closesAt
    ensures s.g.Requested(b, s.Plan(row).value.range)
  {
    StepTimes(s.g.Interval(), s.config.maxBarsPerJob);
    RoomForTarget(s, row, d);
  }

  /** The unclamped range starts no earlier than the overlap before the anchor. */
  lemma RoomForTarget(s: Stream, row: Option<StoredCheckpoint>, d: Demand)
    requires s.Boundary().Some? && DemandFor(s.config, s.g, row, s.Boundary().value) == Some(d) && s.Overlap() >= 0
    ensures Max(d.anchor, s.config.retentionFloor) - s.Overlap() <= d.start <= Max(d.anchor, s.config.retentionFloor)
  {
  }

  /** Whenever a job is planned, its range holds an eligible bar that `completeThrough` has not passed. */
  lemma PlannedRangeHoldsNewBar(s: Stream, row: Option<StoredCheckpoint>) returns (b: Bar)
    requires s.Regular() && Reachable(s.g, row) && s.Plan(row).Some?
    ensures b in Expected(s.g, s.Plan(row).value.range)
    ensures ThroughOf(row).Some? ==> ThroughOf(row).value < b.completes
  {
    var boundary := s.Boundary().value;
    var d := DemandFor(s.config, s.g, row, boundary).value;
    var session := NextSession(s.g, s.g.sessions, Max(d.anchor, s.config.retentionFloor), boundary);
    b := TargetBar(s, row, d, session);
    EligibleNonEmpty(s.g, b);
    TargetInRange(s, row, d, session, b);
    ExpectedSpec(s.g, s.Plan(row).value.range);
  }

  /** Serving every bar only moves `completeThrough` on to the completion of a bar. */
  lemma ServedAdvance(g: Grid, range: TimeRange, row: Option<StoredCheckpoint>)
    requires g.Wf() && Reachable(g, row)
    ensures var bars := Expected(g, range);
            var through := Advance(ThroughOf(row), bars, StartsOf(bars));
            && Unserved(ThroughOf(row), bars, StartsOf(bars)) == []
            && (through.Some? ==> exists b :: g.Eligible(b) && b.completes == through.value)
            && (ThroughOf(row).Some? ==> through.Some? && through.value >= ThroughOf(row).value)
  {
    var bars := Expected(g, range);
    ExpectedSpec(g, range);
    AllServed(ThroughOf(row), bars, StartsOf(bars));
    AdvanceMoves(ThroughOf(row), bars, StartsOf(bars));
  }

  lemma GapFreeIsShaped(g: Grid, p: StoredCheckpoint)
    requires p.missingRanges == []
    requires p.completeThrough.Some? ==> exists b :: g.Eligible(b) && b.completes == p.completeThrough.value
    ensures Shaped(g, p)
  {
  }

  /** A fully served proposal: no gap, and `completeThrough` where the served bars take it. */
  lemma ServedProposal(job: Job, g: Grid, options: Options, row: Option<StoredCheckpoint>)
    requires g.Wf() && Reachable(g, row)
    ensures var bars := Expected(g, job.requestedRange);
            var p := Proposal(job, g, options, row, StartsOf(bars));
            && p.missingRanges == [] && p.completeThrough == Advance(ThroughOf(row), bars, StartsOf(bars))
            && (row.Some? ==> Monotone(row.value, p))
  {
    ServedAdvance(g, job.requestedRange, row);
    NothingUnserved(job, g, options, row, StartsOf(Expected(g, job.requestedRange)));
  }

  /** A fully served round commits that proposal. */
  lemma ServedRound(s: Stream, job: Job, options: Options, row: Option<StoredCheckpoint>)
    requires s.g.Wf() && Reachable(s.g, row) && s.Plan(row).Some?
    ensures var after, bars := Round(s, job, options, row), Expected(s.g, s.Plan(row).value.range);
            && after.Some? && after.value.missingRanges == [] && Reachable(s.g, after)
            && after.value.completeThrough == Advance(ThroughOf(row), bars, StartsOf(bars))
  {
    var planned := job.(requestedRange := s.Plan(row).value.range);
    ServedProposal(planned, s.g, options, row);
    ServedAdvance(s.g, planned.requestedRange, row);
    GapFreeIsShaped(s.g, Round(s, job, options, row).value);
  }

  /** A served bar that was not complete becomes complete. */
  lemma NewBarMoves(before: Option<Instant>, bars: seq<Bar>, b: Bar)
    requires Ordered(bars) && b in bars && (before.Some? ==> before.value < b.completes)
    ensures var after := Advance(before, bars, StartsOf(bars));
            MovedForward(before, after) && b.completes <= after.value
  {
    AllServed(before, bars, StartsOf(bars));
    LastIsLatest(bars, b);
  }

  /** A fully served round commits a clean checkpoint with a strictly later boundary. */
  lemma RoundAdvances(s: Stream, job: Job, options: Options, row: Option<StoredCheckpoint>)
    requires s.Regular() && Reachable(s.g, row) && s.Plan(row).Some?
    ensures var after := Round(s, job, options, row);
            && Reachable(s.g, after) && after.Some? && after.value.missingRanges == []
            && MovedForward(ThroughOf(row), ThroughOf(after))
            && |Remaining(s, after)| < |Remaining(s, row)|
  {
    var b := PlannedRangeHoldsNewBar(s, row);
    var bars := Expected(s.g, s.Plan(row).value.range);
    ExpectedSpec(s.g, s.Plan(row).value.range);
    ServedRound(s, job, options, row);
    NewBarMoves(ThroughOf(row), bars, b);
    RemainingShrinks(s, row, ThroughOf(Round(s, job, options, row)).value, b);
  }

  lemma RemainingShrinks(s: Stream, row: Option<StoredCheckpoint>, through: Instant, b: Bar)
    requires ValidConfig(s.config) && s.g.Wf() && s.Plan(row).Some? && b in Expected(s.g, s.Plan(row).value.range)
    requires (ThroughOf(row).Some? ==> ThroughOf(row).value < b.completes) && b.completes <= through
    ensures |Unserved(Some(through), Expected(s.g, TimeRange(s.config.retentionFloor, s.Boundary().value)), {})|
          < |Remaining(s, row)|
  {
    var bars := Expected(s.g, TimeRange(s.config.retentionFloor, s.Boundary().value));
    PlannedWindowIsBoundedAndFinal(s.config, s.g, row, s.now);
    ExpectedSpec(s.g, s.Plan(row).value.range);
    ExpectedSpec(s.g, TimeRange(s.config.retentionFloor, s.Boundary().value));
    UnservedShrinks(ThroughOf(row), through, bars, b);
  }

  lemma LastIsLatest(bars: seq<Bar>, b: Bar)
    requires Ordered(bars) && b in bars
    ensures b.completes <= bars[|bars| - 1].completes
  {
  }

  lemma {:induction false} UnservedShrinks(before: Option<Instant>, after: Instant, bars: seq<Bar>, b: Bar)
    requires before.Some? ==> before.value <= after
    ensures |Unserved(Some(after), bars, {})| <= |Unserved(before, bars, {})|
    ensures b in bars && (before.None? || before.value < b.completes) && b.completes <= after
            ==> |Unserved(Some(after), bars, {})| < |Unserved(before, bars, {})|
  {
    if bars != [] { UnservedShrinks(before, after, bars[1..], b); }
  }

  /** When no job is planned although the boundary is above the floor, nothing remains. */
  lemma NoJobMeansNothingRemains(s: Stream, row: Option<StoredCheckpoint>)
    requires s.Regular() && Reachable(s.g, row) && s.Plan(row).None?
    ensures Remaining(s, row) == []
  {
    if s.Boundary().Some? {
      var boundary, floor := s.Boundary().value, s.config.retentionFloor;
      var bars := Expected(s.g, TimeRange(floor, boundary));
      ExpectedSpec(s.g, TimeRange(floor, boundary));
      UnservedSpec(ThroughOf(row), bars, {});
      if Remaining(s, row) != [] {
        var b := Remaining(s, row)[0];
        assert b in Remaining(s, row);
        EligibleNonEmpty(s.g, b);
        RemainingIsPlanned(s, row, b);
      }
    }
  }

  lemma RemainingIsPlanned(s: Stream, row: Option<StoredCheckpoint>, b: Bar)
    requires s.Regular() && Reachable(s.g, row) && s.Boundary().Some? && s.g.Eligible(b)
    requires s.config.retentionFloor <= b.start < b.completes <= s.Boundary().value
    requires ThroughOf(row).Some? ==> ThroughOf(row).value < b.completes
    ensures s.Plan(row).Some?
  {
    var boundary := s.Boundary().value;
    var d := DemandFor(s.config, s.g, row, boundary).value;
    var session := NextSession(s.g, s.g.sessions, Max(d.anchor, s.config.retentionFloor), boundary);
    if s.g.IntradayEquity() { RemainingHasSession(s, row, b, d); }
    var target := TargetBar(s, row, d, session);
    EligibleNonEmpty(s.g, target);
    TargetIsPlanned(s, row, d, session, target);
  }

  /** A demand with a bar at its target inside every clamp is planned. */
  lemma TargetIsPlanned(s: Stream, row: Option<StoredCheckpoint>, d: Demand, session: Option<Session>, target: Bar)
    requires s.Regular() && s.Boundary().Some? && s.config.retentionFloor < s.Boundary().value
    requires DemandFor(s.config, s.g, row, s.Boundary().value) == Some(d)
    requires session == NextSession(s.g, s.g.sessions, Max(d.anchor, s.config.retentionFloor), s.Boundary().value)
    requires s.g.IntradayEquity() ==> session.Some? && target.completes <= session.value.closesAt
    requires target.start == Target(s, d, session) && target.start < target.completes <= d.end
    ensures s.Plan(row).Some?
  {
    StepTimes(s.g.Interval(), s.config.maxBarsPerJob);
  }

  lemma RemainingHasSession(s: Stream, row: Option<StoredCheckpoint>, b: Bar, d: Demand)
    requires s.Regular() && Reachable(s.g, row) && s.Boundary().Some? && s.g.Eligible(b) && s.g.IntradayEquity()
    requires s.config.retentionFloor <= b.start < b.completes <= s.Boundary().value
    requires ThroughOf(row).Some? ==> ThroughOf(row).value < b.completes
    requires DemandFor(s.config, s.g, row, s.Boundary().value) == Some(d)
    ensures NextSession(s.g, s.g.sessions, Max(d.anchor, s.config.retentionFloor), s.Boundary().value).Some?
  {
    var boundary, floor := s.Boundary().value, s.config.retentionFloor;
    if d.dueReason == MissingRange {
      var _ := GapDemandBar(s, row.value, NextSession(s.g, s.g.sessions, Max(d.anchor, floor), boundary));
    } else {
      NextSessionSpec(s.g, s.g.sessions, Max(d.anchor, floor), boundary);
      var i :| 0 <= i < |s.g.sessions| && s.g.InSession(s.g.sessions[i], b);
      assert s.g.sessions[i] in s.g.sessions;
    }
  }

  /** Catch-up ends: after at most as many fully served rounds as there are bars left, the planner has
      nothing to do and nothing is left; on the way every round moved the boundary. */
  lemma {:induction false} CatchUpEnds(s: Stream, job: Job, options: Options, row: Option<StoredCheckpoint>)
    returns (n: nat)
    requires s.Regular() && Reachable(s.g, row)
    ensures n <= |Remaining(s, row)|
    ensures s.Plan(Rounds(s, job, options, row, n)).None?
    ensures Remaining(s, Rounds(s, job, options, row, n)) == []
    ensures EveryRoundMoves(s, job, options, row, n)
    decreases |Remaining(s, row)|
  {
    if s.Plan(row).None? {
      NoJobMeansNothingRemains(s, row);
      n := 0;
    } else {
      RoundAdvances(s, job, options, row);
      var m := CatchUpEnds(s, job, options, Round(s, job, options, row));
      n := m + 1;
    }
  }

  ghost predicate EveryRoundMoves(s: Stream, job: Job, options: Options, row: Option<StoredCheckpoint>, n: nat)
    decreases n
  {
    n > 0 ==> MovedForward(ThroughOf(row), ThroughOf(Round(s, job, options, row)))
              && EveryRoundMoves(s, job, options, Round(s, job, options, row), n - 1)
  }

  predicate MovedForward(before: Option<Instant>, after: Option<Instant>) {
    after.Some? && (before.Some? ==> before.value < after.value)
  }
}
