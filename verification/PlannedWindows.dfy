/** Which window is planned, told by the ledger, the boundary, the floor and the sessions. */
module PlannedWindows {
  import opened Market
  import opened SessionGrid
  import opened Checkpoint
  import opened Schedule

  ghost predicate Largest(x: int, among: set<int>) { x in among && forall y :: y in among ==> y <= x }

  ghost predicate Least(x: int, among: set<int>) { x in among && forall y :: y in among ==> x <= y }

  /** Some of the range is inside retention and final. */
  predicate CanBeFilled(r: TimeRange, floor: Instant, boundary: Instant) {
    Max(r.start, floor) < Min(r.end, boundary)
  }

  /** Gap `i` is the earliest one that can be filled, and the first listed of those that start together. */
  ghost predicate EarliestGap(gaps: seq<TimeRange>, floor: Instant, boundary: Instant, i: int) {
    && 0 <= i < |gaps| && CanBeFilled(gaps[i], floor, boundary)
    && forall j :: 0 <= j < |gaps| && CanBeFilled(gaps[j], floor, boundary)
         ==> gaps[i].start <= gaps[j].start && (gaps[i].start == gaps[j].start ==> i <= j)
  }

  /** The first session to open among those that close after `after` and open before the boundary. */
  ghost predicate FirstDue(g: Grid, s: Session, after: Instant, boundary: Instant) {
    && s in g.sessions && InScope(s.kind, g.scope) && after < s.closesAt && s.opensAt < boundary
    && forall o :: o in g.sessions && InScope(o.kind, g.scope) && after < o.closesAt && o.opensAt < boundary
         ==> s.opensAt <= o.opensAt
  }

  /** `range` is not empty, starts at the largest of `starts` and ends at the least of `ends` and the room of a job. */
  ghost predicate Spans(config: Config, g: Grid, range: TimeRange, starts: set<int>, ends: set<int>) {
    && range.start < range.end && Largest(range.start, starts)
    && Least(range.end, ends + {range.start + g.Interval() * config.maxBarsPerJob})
  }

  /** Progress is measured from `anchor`: an intraday equity range also stays inside the first session that is due. */
  ghost predicate Fills(config: Config, g: Grid, boundary: Instant, anchor: Instant, starts: set<int>, ends: set<int>,
                        range: TimeRange) {
    if g.IntradayEquity() then
      exists s :: FirstDue(g, s, Max(anchor, config.retentionFloor), boundary)
        && Spans(config, g, range, starts + {s.opensAt}, ends + {s.closesAt})
    else Spans(config, g, range, starts, ends)
  }

  /** The window for gap `i`. */
  ghost predicate FillsGap(config: Config, g: Grid, gap: TimeRange, boundary: Instant, w: Window) {
    var floor, overlap := config.retentionFloor, config.overlapMs.Of(g.cadence);
    && w.mode == Reconcile && w.dueReason == MissingRange
    && Fills(config, g, boundary, gap.start, {floor, gap.start - overlap}, {boundary, gap.end}, w.range)
  }

  /** The window without a gap to fill: everything above the floor, or what lies ahead of the boundary. */
  ghost predicate GoesOn(config: Config, g: Grid, through: Option<Instant>, boundary: Instant, w: Window) {
    var floor, overlap := config.retentionFloor, config.overlapMs.Of(g.cadence);
    if through.None? then
      && w.mode == CatchUp && w.dueReason == NoCheckpoint
      && Fills(config, g, boundary, floor, {floor}, {boundary}, w.range)
    else
      && w.mode == Incremental && w.dueReason == ForwardCoverage && through.value < boundary
      && Fills(config, g, boundary, through.value, {floor, through.value - overlap}, {boundary}, w.range)
  }

  function GapsOf(checkpoint: Option<StoredCheckpoint>): seq<TimeRange> {
    if checkpoint.Some? then checkpoint.value.missingRanges else []
  }

  ghost predicate HasGap(config: Config, checkpoint: Option<StoredCheckpoint>, boundary: Instant) {
    exists i :: EarliestGap(GapsOf(checkpoint), config.retentionFloor, boundary, i)
  }

  /** A gap that can be filled comes first. */
  ghost predicate WindowFor(config: Config, g: Grid, checkpoint: Option<StoredCheckpoint>, boundary: Instant,
                            w: Window) {
    if HasGap(config, checkpoint, boundary) then
      exists i :: EarliestGap(GapsOf(checkpoint), config.retentionFloor, boundary, i)
        && FillsGap(config, g, GapsOf(checkpoint)[i], boundary, w)
    else GoesOn(config, g, ThroughOf(checkpoint), boundary, w)
  }

  lemma FirstGapIsEarliest(gaps: seq<TimeRange>, boundary: Instant, floor: Instant)
    requires floor < boundary
    ensures FirstGap(gaps, boundary, floor).Some? <==> exists i :: EarliestGap(gaps, floor, boundary, i)
    ensures forall i :: EarliestGap(gaps, floor, boundary, i) ==> FirstGap(gaps, boundary, floor) == Some(gaps[i])
  {
    forall i ensures EarliestGap(gaps, floor, boundary, i) <==> FirstOf(gaps, boundary, floor, i) {
    }
    FirstGapPlace(gaps, boundary, floor);
  }

  /** Where the planner's choice stands in the ledger. */
  ghost predicate FirstOf(gaps: seq<TimeRange>, boundary: Instant, floor: Instant, i: int) {
    && 0 <= i < |gaps| && Actionable(gaps[i], boundary, floor)
    && forall j :: 0 <= j < |gaps| && Actionable(gaps[j], boundary, floor)
         ==> gaps[i].start <= gaps[j].start && (gaps[i].start == gaps[j].start ==> i <= j)
  }

  lemma {:induction false} FirstGapPlace(gaps: seq<TimeRange>, boundary: Instant, floor: Instant)
    ensures FirstGap(gaps, boundary, floor).Some? <==> exists i :: FirstOf(gaps, boundary, floor, i)
    ensures forall i :: FirstOf(gaps, boundary, floor, i) ==> FirstGap(gaps, boundary, floor) == Some(gaps[i])
  {
    FirstGapSpec(gaps, boundary, floor);
    if FirstGap(gaps, boundary, floor).Some? {
      var k := FirstGapIndex(gaps, boundary, floor);
      assert forall i :: FirstOf(gaps, boundary, floor, i) ==> i == k;
    } else {
      assert forall i :: 0 <= i < |gaps| ==> gaps[i] in gaps;
    }
  }

  lemma {:induction false} FirstGapIndex(gaps: seq<TimeRange>, boundary: Instant, floor: Instant) returns (k: nat)
    requires FirstGap(gaps, boundary, floor).Some?
    ensures FirstOf(gaps, boundary, floor, k) && FirstGap(gaps, boundary, floor) == Some(gaps[k])
  {
    var rest := gaps[1..];
    FirstGapSpec(rest, boundary, floor);
    var later := FirstGap(rest, boundary, floor);
    if Actionable(gaps[0], boundary, floor) && (later.None? || gaps[0].start <= later.value.start) {
      k := 0;
      forall j | 0 <= j < |gaps| && Actionable(gaps[j], boundary, floor) ensures gaps[0].start <= gaps[j].start {
        if j > 0 { assert rest[j - 1] == gaps[j] && rest[j - 1] in rest; }
      }
    } else {
      var i := FirstGapIndex(rest, boundary, floor);
      k := i + 1;
      forall j | 0 <= j < |gaps| && Actionable(gaps[j], boundary, floor)
        ensures gaps[k].start <= gaps[j].start && (gaps[k].start == gaps[j].start ==> k <= j)
      {
        if j > 0 { assert rest[j - 1] == gaps[j]; }
      }
    }
  }

  /** With disjoint sessions there is one at most, and it is the one the planner picks. */
  lemma FirstDueIsNext(g: Grid, after: Instant, boundary: Instant)
    requires g.Wf()
    ensures forall s :: FirstDue(g, s, after, boundary) <==> NextSession(g, g.sessions, after, boundary) == Some(s)
  {
    NextSessionSpec(g, g.sessions, after, boundary);
    forall s, o | FirstDue(g, s, after, boundary) && FirstDue(g, o, after, boundary) ensures s == o {
      var i :| 0 <= i < |g.sessions| && g.sessions[i] == s;
      var j :| 0 <= j < |g.sessions| && g.sessions[j] == o;
    }
  }

  lemma GapDemand(config: Config, g: Grid, checkpoint: Option<StoredCheckpoint>, boundary: Instant, i: int)
    requires checkpoint.Some? && config.retentionFloor < boundary
    requires EarliestGap(checkpoint.value.missingRanges, config.retentionFloor, boundary, i)
    ensures var gap := checkpoint.value.missingRanges[i];
            DemandFor(config, g, checkpoint, boundary)
            == Some(Demand(Max(config.retentionFloor, gap.start - config.overlapMs.Of(g.cadence)),
                           Min(boundary, gap.end),
                           gap.start, Reconcile, MissingRange))
  {
    FirstGapIsEarliest(checkpoint.value.missingRanges, boundary, config.retentionFloor);
  }

  /** A demand between two bounds becomes a window exactly when the window fills it. */
  lemma DemandFills(config: Config, g: Grid, checkpoint: Option<StoredCheckpoint>, now: Instant, boundary: Instant,
                    d: Demand, starts: set<int>, ends: set<int>, w: Window)
    requires ValidConfig(config) && g.Wf() && config.retentionFloor < boundary
    requires LatestBoundary(g, now, config.finalizationLagMs.Of(g.cadence)) == Some(boundary)
    requires DemandFor(config, g, checkpoint, boundary) == Some(d)
    requires Largest(d.start, starts) && Least(d.end, ends)
    ensures PlanWindow(config, g, checkpoint, now) == Some(w)
       <==> w.mode == d.mode && w.dueReason == d.dueReason
            && Fills(config, g, boundary, d.anchor, starts, ends, w.range)
  {
    var after := Max(d.anchor, config.retentionFloor);
    var session := NextSession(g, g.sessions, after, boundary);
    StepTimes(g.Interval(), config.maxBarsPerJob);
    FirstDueIsNext(g, after, boundary);
    if !g.IntradayEquity() {
      SpansExactly(config, g, w.range, starts, ends, d.start, d.end);
    } else if session.Some? {
      SpansExactly(config, g, w.range, starts + {session.value.opensAt}, ends + {session.value.closesAt},
                   Max(d.start, session.value.opensAt), Min(d.end, session.value.closesAt));
    }
  }

  lemma SpansExactly(config: Config, g: Grid, range: TimeRange, starts: set<int>, ends: set<int>, start: Instant,
                     end: Instant)
    requires ValidConfig(config) && Largest(start, starts) && Least(end, ends)
    ensures Spans(config, g, range, starts, ends)
       <==> start < end && range == TimeRange(start, Min(end, start + g.Interval() * config.maxBarsPerJob))
  {
    StepTimes(g.Interval(), config.maxBarsPerJob);
  }

  /** What is planned, in every case: the window for the first thing that is due, and nothing when the boundary is not
      above the floor. */
  lemma PlannedWindowIs(config: Config, g: Grid, checkpoint: Option<StoredCheckpoint>, now: Instant, w: Window)
    requires ValidConfig(config) && g.Wf()
    ensures var boundary := LatestBoundary(g, now, config.finalizationLagMs.Of(g.cadence));
            PlanWindow(config, g, checkpoint, now) == Some(w)
            <==> boundary.Some? && config.retentionFloor < boundary.value
                 && WindowFor(config, g, checkpoint, boundary.value, w)
  {
    var latest := LatestBoundary(g, now, config.finalizationLagMs.Of(g.cadence));
    if latest.Some? && config.retentionFloor < latest.value {
      var floor, boundary := config.retentionFloor, latest.value;
      FirstGapIsEarliest(GapsOf(checkpoint), boundary, floor);
      if i :| EarliestGap(GapsOf(checkpoint), floor, boundary, i) {
        GapWindow(config, g, checkpoint, now, boundary, i, w);
      } else {
        ForwardWindow(config, g, checkpoint, now, boundary, w);
      }
    }
  }

  lemma GapWindow(config: Config, g: Grid, checkpoint: Option<StoredCheckpoint>, now: Instant, boundary: Instant,
                  i: int, w: Window)
    requires ValidConfig(config) && g.Wf() && config.retentionFloor < boundary && checkpoint.Some?
    requires LatestBoundary(g, now, config.finalizationLagMs.Of(g.cadence)) == Some(boundary)
    requires EarliestGap(checkpoint.value.missingRanges, config.retentionFloor, boundary, i)
    ensures PlanWindow(config, g, checkpoint, now) == Some(w) <==> WindowFor(config, g, checkpoint, boundary, w)
  {
    var floor, gaps := config.retentionFloor, checkpoint.value.missingRanges;
    var starts, ends := {floor, gaps[i].start - config.overlapMs.Of(g.cadence)}, {boundary, gaps[i].end};
    GapDemand(config, g, checkpoint, boundary, i);
    DemandFills(config, g, checkpoint, now, boundary, DemandFor(config, g, checkpoint, boundary).value, starts, ends,
                w);
    assert GapsOf(checkpoint) == gaps;
    assert forall j :: EarliestGap(gaps, floor, boundary, j) ==> j == i;
  }

  lemma ForwardWindow(config: Config, g: Grid, checkpoint: Option<StoredCheckpoint>, now: Instant, boundary: Instant,
                      w: Window)
    requires ValidConfig(config) && g.Wf() && config.retentionFloor < boundary
    requires LatestBoundary(g, now, config.finalizationLagMs.Of(g.cadence)) == Some(boundary)
    requires checkpoint.Some? ==> FirstGap(checkpoint.value.missingRanges, boundary, config.retentionFloor).None?
    requires !HasGap(config, checkpoint, boundary)
    ensures PlanWindow(config, g, checkpoint, now) == Some(w) <==> WindowFor(config, g, checkpoint, boundary, w)
  {
    var floor := config.retentionFloor;
    var demand := DemandFor(config, g, checkpoint, boundary);
    if demand.Some? {
      var starts := if checkpoint.None? || checkpoint.value.completeThrough.None? then {floor}
                    else {floor, checkpoint.value.completeThrough.value - config.overlapMs.Of(g.cadence)};
      DemandFills(config, g, checkpoint, now, boundary, demand.value, starts, {boundary}, w);
    }
  }
}
