/** Planning of market-bar acquisition jobs from coverage checkpoints. */
module Schedule {
  import opened Market
  import opened SessionGrid
  import opened MissingRanges
  import opened Checkpoint
  import opened Ordering

  datatype PerCadence = PerCadence(oneMin: int, fifteenMin: int, oneDay: int) {
    function Of(c: Cadence): int {
      match c
      case OneMin => oneMin
      case FifteenMin => fifteenMin
      case OneDay => oneDay
    }
  }

  datatype Config = Config(retentionFloor: Instant, overlapMs: PerCadence, finalizationLagMs: PerCadence,
                           maxBarsPerJob: int)

  /** What `validateConfig` lets through. */
  predicate ValidConfig(config: Config) {
    && (forall c: Cadence :: config.overlapMs.Of(c) >= IntervalMs(c) && config.finalizationLagMs.Of(c) >= 0)
    && config.maxBarsPerJob >= 1
  }

  datatype Mode = Incremental | CatchUp | Reconcile

  datatype DueReason = MissingRange | NoCheckpoint | ForwardCoverage | HistoricalRecovery

  /** A job id is a hash of these fields; the hash is taken to be injective. */
  datatype JobId =
    | MarketBarsJob(universeRevision: string, calendarRevision: string, coverageKey: string, range: TimeRange,
                    mode: Mode)
    | RecoveryJob(recoveryId: string, providerRevision: string, universeRevision: string, calendarRevision: string,
                  coverageKey: string, range: TimeRange, mode: Mode)

  datatype Expectation = Expectation(coverageKey: string, expectedVersion: Option<int>,
                                     observedCompleteThrough: Option<Instant>)

  /** A job for one instrument; the normal scheduler emits no other kind. */
  datatype Job = Job(jobId: JobId, createdAt: Instant, universeRevision: string, calendarRevision: string,
                     instrument: Instrument, requestedRange: TimeRange, sessionScope: SessionScope, mode: Mode,
                     logicalDataVariant: string, expectation: Expectation, dueReason: DueReason)

  function CadenceName(c: Cadence): string {
    match c
    case OneMin => "1Min"
    case FifteenMin => "15Min"
    case OneDay => "1Day"
  }

  function ScopeName(s: SessionScope): string {
    match s
    case PremarketScope => "PREMARKET"
    case RegularScope => "REGULAR"
    case AllTrading => "ALL_TRADING"
  }

  function CoverageKeyFor(instrument: Instrument, scope: SessionScope, variant: string): string {
    instrument.symbol + "|" + CadenceName(instrument.cadence) + "|" + ScopeName(scope) + "|" + variant
  }

  function GridFor(instrument: Instrument, scope: SessionScope, calendar: Calendar): Grid {
    Grid(instrument.cadence, instrument.route, scope, calendar.sessions)
  }

  /** The first session of the scope that is open at `now`. */
  function CurrentSession(g: Grid, sessions: seq<Session>, now: Instant): Option<Session> {
    if sessions == [] then None
    else if InScope(sessions[0].kind, g.scope) && sessions[0].opensAt <= now < sessions[0].closesAt
    then Some(sessions[0])
    else CurrentSession(g, sessions[1..], now)
  }

  /** Filter by `closesAt <= deadline`, sort by close descending, take the first. */
  function LatestClosed(g: Grid, sessions: seq<Session>, deadline: Instant): Option<Session> {
    if sessions == [] then None
    else
      var rest := LatestClosed(g, sessions[1..], deadline);
      if InScope(sessions[0].kind, g.scope) && sessions[0].closesAt <= deadline
         && (rest.None? || sessions[0].closesAt >= rest.value.closesAt)
      then Some(sessions[0]) else rest
  }

  /** Filter by `closesAt > anchor` and `opensAt < boundary`, sort by opening, take the first. */
  function NextSession(g: Grid, sessions: seq<Session>, anchor: Instant, boundary: Instant): Option<Session> {
    if sessions == [] then None
    else
      var rest := NextSession(g, sessions[1..], anchor, boundary);
      if InScope(sessions[0].kind, g.scope) && sessions[0].closesAt > anchor && sessions[0].opensAt < boundary
         && (rest.None? || sessions[0].opensAt <= rest.value.opensAt)
      then Some(sessions[0]) else rest
  }

  /** The last instant whose bars are final at `now`. */
  function LatestBoundary(g: Grid, now: Instant, lag: int): Option<Instant> {
    if g.route == CryptoBars then Some(FloorTo(now - lag, g.cadence))
    else if g.cadence == OneDay then
      if g.scope != RegularScope then None
      else
        var closed := LatestClosed(g, g.sessions, now - lag);
        if closed.Some? then Some(closed.value.closesAt) else None
    else
      var current := CurrentSession(g, g.sessions, now);
      var session := if current.Some? then current else LatestClosed(g, g.sessions, now - lag);
      if session.None? then None
      else
        var available := Min(now - lag, session.value.closesAt) - session.value.opensAt;
        if available < g.Interval() then None
        else Some(session.value.opensAt + FloorTo(available, g.cadence))
  }

  predicate Actionable(r: TimeRange, boundary: Instant, floor: Instant) {
    r.start < r.end && r.start < boundary && r.end > floor
  }

  /** Filter the ledger by `Actionable`, sort by start, take the first. */
  function FirstGap(gaps: seq<TimeRange>, boundary: Instant, floor: Instant): Option<TimeRange> {
    if gaps == [] then None
    else
      var rest := FirstGap(gaps[1..], boundary, floor);
      if Actionable(gaps[0], boundary, floor) && (rest.None? || gaps[0].start <= rest.value.start)
      then Some(gaps[0]) else rest
  }

  datatype Window = Window(range: TimeRange, mode: Mode, dueReason: DueReason)

  /** The unclamped range a checkpoint asks for, with the instant progress is measured from. */
  datatype Demand = Demand(start: Instant, end: Instant, anchor: Instant, mode: Mode, dueReason: DueReason)

  function DemandFor(config: Config, g: Grid, checkpoint: Option<StoredCheckpoint>, boundary: Instant): Option<Demand> {
    var floor := config.retentionFloor;
    var overlap := config.overlapMs.Of(g.cadence);
    var gap := if checkpoint.Some? then FirstGap(checkpoint.value.missingRanges, boundary, floor) else None;
    if gap.Some? then
      Some(Demand(Max(floor, gap.value.start - overlap), Min(boundary, gap.value.end), gap.value.start,
                  Reconcile, MissingRange))
    else if checkpoint.None? || checkpoint.value.completeThrough.None? then
      Some(Demand(floor, boundary, floor, CatchUp, NoCheckpoint))
    else
      var through := checkpoint.value.completeThrough.value;
      if through >= boundary then None
      else Some(Demand(Max(floor, through - overlap), boundary, through, Incremental, ForwardCoverage))
  }

  /** The one bounded provider range to request next, if any is due. */
  function PlanWindow(config: Config, g: Grid, checkpoint: Option<StoredCheckpoint>, now: Instant): Option<Window> {
    var boundary := LatestBoundary(g, now, config.finalizationLagMs.Of(g.cadence));
    if boundary.None? || boundary.value <= config.retentionFloor then None
    else
      var demand := DemandFor(config, g, checkpoint, boundary.value);
      if demand.None? then None
      else
        var d := demand.value;
        var session := NextSession(g, g.sessions, Max(d.anchor, config.retentionFloor), boundary.value);
        if g.IntradayEquity() && session.None? then None
        else
          var start := if g.IntradayEquity() then Max(d.start, session.value.opensAt) else d.start;
          var end := if g.IntradayEquity() then Min(d.end, session.value.closesAt) else d.end;
          if start >= end then None
          else Some(Window(TimeRange(start, Min(end, start + g.Interval() * config.maxBarsPerJob)), d.mode,
                           d.dueReason))
  }

  // What the selections pick.

  lemma {:induction false} CurrentSessionSpec(g: Grid, sessions: seq<Session>, now: Instant)
    ensures var s := CurrentSession(g, sessions, now);
            s.Some? ==>
              && s.value in sessions && InScope(s.value.kind, g.scope)
              && s.value.opensAt <= now < s.value.closesAt
  {
    if sessions != [] { CurrentSessionSpec(g, sessions[1..], now); }
  }

  /** With disjoint sessions, the session open at an instant is the one containing it. */
  lemma {:induction false} CurrentSessionFound(g: Grid, sessions: seq<Session>, now: Instant, i: nat)
    requires WellFormedSessions(sessions) && i < |sessions|
    requires InScope(sessions[i].kind, g.scope) && sessions[i].opensAt <= now < sessions[i].closesAt
    ensures CurrentSession(g, sessions, now) == Some(sessions[i])
  {
    if i > 0 { CurrentSessionFound(g, sessions[1..], now, i - 1); }
  }

  lemma {:induction false} LatestClosedSpec(g: Grid, sessions: seq<Session>, deadline: Instant)
    ensures var s := LatestClosed(g, sessions, deadline);
            && (s.Some? ==> s.value in sessions && InScope(s.value.kind, g.scope) && s.value.closesAt <= deadline)
            && forall o :: o in sessions && InScope(o.kind, g.scope) && o.closesAt <= deadline
                 ==> s.Some? && o.closesAt <= s.value.closesAt
  {
    if sessions != [] { LatestClosedSpec(g, sessions[1..], deadline); }
  }

  lemma {:induction false} NextSessionSpec(g: Grid, sessions: seq<Session>, anchor: Instant, boundary: Instant)
    ensures var s := NextSession(g, sessions, anchor, boundary);
            && (s.Some? ==> s.value in sessions && InScope(s.value.kind, g.scope)
                            && s.value.closesAt > anchor && s.value.opensAt < boundary)
            && forall o :: o in sessions && InScope(o.kind, g.scope) && o.closesAt > anchor && o.opensAt < boundary
                 ==> s.Some? && s.value.opensAt <= o.opensAt
  {
    if sessions != [] { NextSessionSpec(g, sessions[1..], anchor, boundary); }
  }

  lemma {:induction false} FirstGapSpec(gaps: seq<TimeRange>, boundary: Instant, floor: Instant)
    ensures var gap := FirstGap(gaps, boundary, floor);
            && (gap.Some? ==> gap.value in gaps && Actionable(gap.value, boundary, floor))
            && forall o :: o in gaps && Actionable(o, boundary, floor) ==> gap.Some? && gap.value.start <= o.start
  {
    if gaps != [] { FirstGapSpec(gaps[1..], boundary, floor); }
  }

  /** A whole number of steps after the opening, within the session, ends a bar of it. */
  lemma EndsBarOf(g: Grid, s: Session, at: Instant)
    requires g.IntradayEquity() && s in g.sessions && InScope(s.kind, g.scope)
    requires s.opensAt < at <= s.closesAt && (at - s.opensAt) % g.Interval() == 0
    ensures g.Eligible(Bar(at - g.Interval(), at))
  {
    var i :| 0 <= i < |g.sessions| && g.sessions[i] == s;
    MinusStep(g.cadence, at - s.opensAt);
    AtLeastOneStep(g.cadence, at - s.opensAt);
    assert at - g.Interval() - s.opensAt == at - s.opensAt - g.Interval();
    assert g.InSession(g.sessions[i], Bar(at - g.Interval(), at));
  }

  lemma IntradayBoundaryIsFinal(g: Grid, now: Instant, lag: int)
    requires g.Wf() && g.IntradayEquity() && lag >= 0 && LatestBoundary(g, now, lag).Some?
    ensures LatestBoundary(g, now, lag).value <= now - lag
    ensures exists b :: g.Eligible(b) && b.completes == LatestBoundary(g, now, lag).value
  {
    CurrentSessionSpec(g, g.sessions, now);
    LatestClosedSpec(g, g.sessions, now - lag);
    var current := CurrentSession(g, g.sessions, now);
    var s := if current.Some? then current.value else LatestClosed(g, g.sessions, now - lag).value;
    FloorSpec(Min(now - lag, s.closesAt) - s.opensAt, g.cadence);
    EndsBarOf(g, s, LatestBoundary(g, now, lag).value);
  }

  /** The boundary is a bar completion at least the finalisation lag in the past. */
  lemma BoundaryIsFinal(g: Grid, now: Instant, lag: int)
    requires g.Wf() && lag >= 0 && LatestBoundary(g, now, lag).Some?
    ensures LatestBoundary(g, now, lag).value <= now - lag
    ensures exists b :: g.Eligible(b) && b.completes == LatestBoundary(g, now, lag).value
  {
    var boundary := LatestBoundary(g, now, lag).value;
    if g.route == CryptoBars {
      FloorSpec(now - lag, g.cadence);
      MinusStep(g.cadence, boundary);
      assert g.Eligible(Bar(boundary - g.Interval(), boundary));
    } else if g.cadence == OneDay {
      LatestClosedSpec(g, g.sessions, now - lag);
      var s := LatestClosed(g, g.sessions, now - lag).value;
      var i :| 0 <= i < |g.sessions| && g.sessions[i] == s;
      assert g.InSession(g.sessions[i], Bar(s.opensAt, s.closesAt));
    } else {
      IntradayBoundaryIsFinal(g, now, lag);
    }
  }

  lemma MinusStep(c: Cadence, x: int)
    requires x % IntervalMs(c) == 0
    ensures (x - IntervalMs(c)) % IntervalMs(c) == 0
  {
    AddMultiple(c, x, -1);
  }

  lemma AtLeastOneStep(c: Cadence, x: int)
    requires x % IntervalMs(c) == 0 && x > 0
    ensures x >= IntervalMs(c)
  {
    AlignedDisjoint(c, 0, 0, x);
  }

  lemma {:induction false} OrderedCount(bars: seq<Bar>, lo: int, hi: int, step: int)
    requires Ordered(bars) && step > 0 && lo <= hi
    requires forall b :: b in bars ==> lo <= b.start && b.completes == b.start + step && b.completes <= hi
    ensures |bars| * step <= hi - lo
  {
    if bars != [] {
      var b := bars[0];
      assert b in bars;
      forall x | x in bars[1..] ensures b.completes <= x.start && x in bars {
        var k :| 0 <= k < |bars[1..]| && bars[1..][k] == x;
      }
      OrderedCount(bars[1..], b.completes, hi, step);
      assert |bars| * step == |bars[1..]| * step + step;
    }
  }

  lemma MoreBarsTakeLonger(n: int, m: int, step: int)
    requires step > 0
    ensures n > m ==> n * step > step * m
  {
    if n > m { assert n * step == (n - m - 1) * step + step * m + step; }
  }

  /** Every planned range is non-empty, inside retention, final, inside one session for intraday equities,
      and holds at most `maxBarsPerJob` grid bars unless it is for daily equity bars. */
  lemma PlannedWindowIsBoundedAndFinal(config: Config, g: Grid, checkpoint: Option<StoredCheckpoint>, now: Instant)
    requires ValidConfig(config) && g.Wf()
    requires PlanWindow(config, g, checkpoint, now).Some?
    ensures var range := PlanWindow(config, g, checkpoint, now).value.range;
            && config.retentionFloor <= range.start < range.end
            && range.end <= LatestBoundary(g, now, config.finalizationLagMs.Of(g.cadence)).value
            && range.end <= now - config.finalizationLagMs.Of(g.cadence)
            && (g.IntradayEquity() ==> exists s :: s in g.sessions && InScope(s.kind, g.scope)
                                         && s.opensAt <= range.start && range.end <= s.closesAt)
            && (!g.DailyEquity() ==> |Expected(g, range)| <= config.maxBarsPerJob)
  {
    var w := PlanWindow(config, g, checkpoint, now).value;
    var boundary := LatestBoundary(g, now, config.finalizationLagMs.Of(g.cadence)).value;
    BoundaryIsFinal(g, now, config.finalizationLagMs.Of(g.cadence));
    var d := DemandFor(config, g, checkpoint, boundary).value;
    NextSessionSpec(g, g.sessions, Max(d.anchor, config.retentionFloor), boundary);
    StepTimes(g.Interval(), config.maxBarsPerJob);
    if !g.DailyEquity() {
      ExpectedSpec(g, w.range);
      forall b | b in Expected(g, w.range) ensures b.completes == b.start + g.Interval() { EligibleNonEmpty(g, b); }
      OrderedCount(Expected(g, w.range), w.range.start, w.range.end, g.Interval());
      MoreBarsTakeLonger(|Expected(g, w.range)|, config.maxBarsPerJob, g.Interval());
    }
  }

  lemma StepTimes(step: int, n: int)
    requires step > 0 && n >= 1
    ensures step * n >= step
  {
  }

  /** `b` lies behind the end of the ledger and outside every recorded gap, or behind `completeThrough`:
      the checkpoint claims that nothing is left to do for it. */
  ghost predicate Claims(c: StoredCheckpoint, b: Bar) {
    || (c.completeThrough.Some? && b.completes <= c.completeThrough.value)
    || (!Covers(c.missingRanges, b.start) && exists gap :: gap in c.missingRanges && b.start < gap.end)
  }

  /** Planning never jumps over a bar the checkpoint does not claim: an eligible bar that completes by the
      end of the planned range and is not in it is either claimed already or older than the floor. */
  lemma PlanLeavesNoHole(config: Config, g: Grid, checkpoint: Option<StoredCheckpoint>, now: Instant, b: Bar)
    requires ValidConfig(config) && g.Wf()
    requires PlanWindow(config, g, checkpoint, now).Some? && g.Eligible(b)
    requires b.completes <= PlanWindow(config, g, checkpoint, now).value.range.end
    requires !g.Requested(b, PlanWindow(config, g, checkpoint, now).value.range)
    ensures b.start < config.retentionFloor || (checkpoint.Some? && Claims(checkpoint.value, b))
  {
    var range := PlanWindow(config, g, checkpoint, now).value.range;
    var boundary := LatestBoundary(g, now, config.finalizationLagMs.Of(g.cadence)).value;
    var floor := config.retentionFloor;
    var d := DemandFor(config, g, checkpoint, boundary).value;
    EligibleNonEmpty(g, b);
    if g.IntradayEquity() && b.start < NextSession(g, g.sessions, Max(d.anchor, floor), boundary).value.opensAt {
      SkippedSessionIsPast(g, Max(d.anchor, floor), boundary, b);
    }
    var behindAnchor := b.completes <= d.anchor || b.start < d.start;
    assert b.start < floor || behindAnchor;
    if b.start >= floor && d.dueReason == MissingRange {
      GapLeavesNoHole(checkpoint.value, boundary, floor, b);
    }
  }

  /** A bar before the session the planner picks belongs to a session that closed by the anchor. */
  lemma SkippedSessionIsPast(g: Grid, anchor: Instant, boundary: Instant, b: Bar)
    requires g.Wf() && g.Eligible(b) && g.IntradayEquity() && b.start < boundary
    requires NextSession(g, g.sessions, anchor, boundary).Some?
    requires b.start < NextSession(g, g.sessions, anchor, boundary).value.opensAt
    ensures b.completes <= anchor
  {
    NextSessionSpec(g, g.sessions, anchor, boundary);
    var i :| 0 <= i < |g.sessions| && g.InSession(g.sessions[i], b);
    assert g.sessions[i] in g.sessions;
  }

  /** Bars before the chosen gap: recorded in an expired gap, or outside every gap and behind this one. */
  lemma GapLeavesNoHole(c: StoredCheckpoint, boundary: Instant, floor: Instant, b: Bar)
    requires FirstGap(c.missingRanges, boundary, floor).Some?
    requires b.start < FirstGap(c.missingRanges, boundary, floor).value.start
    ensures b.start < floor || Claims(c, b)
  {
    FirstGapSpec(c.missingRanges, boundary, floor);
    if Covers(c.missingRanges, b.start) {
      var i :| 0 <= i < |c.missingRanges| && c.missingRanges[i].start <= b.start < c.missingRanges[i].end;
      assert c.missingRanges[i] in c.missingRanges;
      assert !Actionable(c.missingRanges[i], boundary, floor);
    }
  }
}
