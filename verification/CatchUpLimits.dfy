/** Exactly when catch-up ends: every stream, every configuration `validateConfig` accepts, every reachable row. */
module CatchUpLimits {
  import opened Market
  import opened SessionGrid
  import opened Checkpoint
  import opened Schedule
  import opened Execution
  import opened CoverageProtocol
  import opened CatchUp
  import opened CatchUpRounds
  import opened CatchUpStretches
  import opened CatchUpDaily

  /** Daily equities: every close ahead is within reach.  All other streams: every stretch ahead is passable. */
  ghost predicate CatchesUp(s: Stream, through: Option<Instant>) {
    if s.g.DailyEquity() then ClosesWithinReach(s, through) else StretchesPassable(s, through)
  }

  lemma Verdict(s: Stream, row: Option<StoredCheckpoint>)
    requires Permitted(s) && Reachable(s.g, row) && GoesForward(s, row)
    ensures s.Plan(row).None? ==> CatchesUp(s, ThroughOf(row))
    ensures s.Plan(row).Some? ==>
              if MovedForward(ThroughOf(row), Taken(s, row))
              then CatchesUp(s, ThroughOf(row)) <==> CatchesUp(s, Taken(s, row))
              else !CatchesUp(s, ThroughOf(row))
  {
    if s.g.DailyEquity() { DailyVerdict(s, row); } else { StretchVerdict(s, row); }
  }

  /** A forward row that catches up does so within as many rounds as there are bars left; every round moves the
      boundary, and in the end nothing is left. */
  lemma {:induction false} ForwardEnds(s: Stream, job: Job, options: Options, row: Option<StoredCheckpoint>)
    returns (n: nat)
    requires Permitted(s) && Reachable(s.g, row) && GoesForward(s, row) && CatchesUp(s, ThroughOf(row))
    ensures n <= |Remaining(s, row)| && EveryRoundMoves(s, job, options, row, n)
    ensures s.Plan(Rounds(s, job, options, row, n)).None? && Remaining(s, Rounds(s, job, options, row, n)) == []
    decreases |Remaining(s, row)|
  {
    Verdict(s, row);
    if s.Plan(row).None? {
      IdleMeansNothingRemains(s, row);
      n := 0;
    } else {
      RoundTakes(s, job, options, row);
      MoveShrinks(s, job, options, row);
      var m := ForwardEnds(s, job, options, Round(s, job, options, row));
      n := m + 1;
    }
  }

  /** A forward row that does not catch up never ends. */
  lemma {:induction false} ForwardStalls(s: Stream, job: Job, options: Options, row: Option<StoredCheckpoint>)
    requires Permitted(s) && Reachable(s.g, row) && GoesForward(s, row) && !CatchesUp(s, ThroughOf(row))
    ensures !Ends(s, job, options, row)
    decreases |Remaining(s, row)|
  {
    Verdict(s, row);
    if MovedForward(ThroughOf(row), Taken(s, row)) {
      RoundTakes(s, job, options, row);
      MoveShrinks(s, job, options, row);
      EndsStep(s, job, options, row);
      ForwardStalls(s, job, options, Round(s, job, options, row));
    } else {
      StuckNeverEnds(s, job, options, row);
    }
  }

  /** Going forward, catch-up ends exactly when the row catches up. */
  lemma ForwardEndsIff(s: Stream, job: Job, options: Options, row: Option<StoredCheckpoint>)
    requires Permitted(s) && Reachable(s.g, row) && GoesForward(s, row)
    ensures Ends(s, job, options, row) <==> CatchesUp(s, ThroughOf(row))
  {
    if CatchesUp(s, ThroughOf(row)) {
      var n := ForwardEnds(s, job, options, row);
    } else {
      ForwardStalls(s, job, options, row);
    }
  }

  /** Where catch-up goes forward from: the row itself, or behind an actionable gap what its first round takes. */
  function ForwardFrom(s: Stream, row: Option<StoredCheckpoint>): Option<Instant>
    requires s.Plan(row).Some?
  {
    if GoesForward(s, row) then ThroughOf(row) else Taken(s, row)
  }

  /** When catch-up ends: for every valid configuration, from every reachable row, by a condition on the row, the
      configuration and the calendar. */
  lemma CatchUpEndsIff(s: Stream, job: Job, options: Options, row: Option<StoredCheckpoint>)
    requires Permitted(s) && Reachable(s.g, row)
    ensures Ends(s, job, options, row) <==> s.Plan(row).None? || CatchesUp(s, ForwardFrom(s, row))
  {
    if s.Plan(row).None? {
      assert s.Plan(Rounds(s, job, options, row, 0)).None?;
    } else if GoesForward(s, row) {
      ForwardEndsIff(s, job, options, row);
    } else {
      RoundTakes(s, job, options, row);
      EndsStep(s, job, options, row);
      ForwardEndsIff(s, job, options, Round(s, job, options, row));
    }
  }

  /** Whatever the configuration, a forward row with nothing to plan has nothing left. */
  lemma IdleMeansNothingRemains(s: Stream, row: Option<StoredCheckpoint>)
    requires Permitted(s) && Reachable(s.g, row) && GoesForward(s, row) && s.Plan(row).None?
    ensures Remaining(s, row) == []
  {
    if s.Boundary().Some? && Remaining(s, row) != [] {
      var range := TimeRange(s.config.retentionFloor, s.Boundary().value);
      var b := Remaining(s, row)[0];
      ExpectedSpec(s.g, range);
      UnservedSpec(ThroughOf(row), Expected(s.g, range), {});
      assert b in Remaining(s, row);
      if s.g.DailyEquity() {
        DailyPlan(s, row);
      } else {
        BarLiesAhead(s, ThroughOf(row), b);
        PlanForward(s, row);
      }
    }
  }

  // What this says of the ways to stall.

  /** A crypto stream is one stretch. */
  lemma CryptoPassable(s: Stream, x: Stretch)
    requires ValidConfig(s.config) && s.g.Wf() && s.g.route == CryptoBars
    requires x == Stretch(FloorTo(s.config.retentionFloor, s.g.cadence), s.Boundary().value)
    ensures Passable(s, None, x) <==>
              && CeilTo(s.config.retentionFloor, s.g.cadence) + s.g.Interval() <= s.Boundary().value
              && (s.Overlap() + s.g.Interval() <= s.Room() || s.Boundary().value <= s.config.retentionFloor + s.Room())
  {
    FloorSpec(s.config.retentionFloor, s.g.cadence);
    FloorSpec(s.now - s.config.finalizationLagMs.Of(s.g.cadence), s.g.cadence);
    AlignedShift(s.g.cadence, 0, x.open, s.Boundary().value);
    CeilFromGrid(s.g.cadence, x.open, s.config.retentionFloor);
  }

  /** A crypto stream starting from nothing catches up exactly when the boundary is not above the floor, or a whole
      bar lies between them and either the overlap leaves room for a new bar or one job covers everything. */
  lemma CryptoEndsIff(s: Stream, job: Job, options: Options)
    requires ValidConfig(s.config) && s.g.Wf() && s.g.route == CryptoBars
    ensures var floor, boundary := s.config.retentionFloor, s.Boundary().value;
            Ends(s, job, options, None) <==>
              || boundary <= floor
              || (CeilTo(floor, s.g.cadence) + s.g.Interval() <= boundary
                  && (s.Overlap() + s.g.Interval() <= s.Room() || boundary <= floor + s.Room()))
  {
    var x := Stretch(FloorTo(s.config.retentionFloor, s.g.cadence), s.Boundary().value);
    ForwardEndsIff(s, job, options, None);
    CryptoPassable(s, x);
    assert Ahead(s, None, x);
  }

  lemma CeilFromGrid(c: Cadence, base: Instant, at: Instant)
    requires base % IntervalMs(c) == 0
    ensures base + CeilTo(at - base, c) == CeilTo(at, c)
  {
    CeilSpec(at - base, c);
    CeilSpec(at, c);
    var x, y := base + CeilTo(at - base, c), CeilTo(at, c);
    AlignedShift(c, 0, base, x);
    if x < y { AlignedDisjoint(c, 0, x, y); }
    if y < x { AlignedDisjoint(c, 0, y, x); }
  }

  lemma CryptoTargetFits(s: Stream, row: StoredCheckpoint)
    requires ValidConfig(s.config) && s.g.Wf() && s.g.route == CryptoBars
    requires Shaped(s.g, row) && row.completeThrough.Some? && row.completeThrough.value < s.Boundary().value
    ensures row.completeThrough.value + s.g.Interval() <= s.Boundary().value
  {
    FloorSpec(s.now - s.config.finalizationLagMs.Of(s.g.cadence), s.g.cadence);
    var e :| s.g.Eligible(e) && e.completes == row.completeThrough.value;
    PlusStep(s.g.cadence, e.start);
    AlignedAhead(s.g.cadence, 0, row.completeThrough.value, s.Boundary().value);
  }

  /** Away from the floor a crypto round moves exactly when the overlap plus one bar fits into a job. */
  lemma ForwardRoundNeedsRoom(s: Stream, job: Job, options: Options, row: StoredCheckpoint)
    requires ValidConfig(s.config) && s.g.Wf() && s.g.route == CryptoBars
    requires Shaped(s.g, row) && row.missingRanges == [] && row.completeThrough.Some?
    requires s.config.retentionFloor <= row.completeThrough.value - s.Overlap()
    requires row.completeThrough.value < s.Boundary().value
    ensures s.Plan(Some(row)).Some?
    ensures MovedForward(row.completeThrough, ThroughOf(Round(s, job, options, Some(row))))
       <==> s.Overlap() + s.g.Interval() <= s.Room()
  {
    PlanForward(s, Some(row));
    RoundReaches(s, Some(row));
    RoundTakes(s, job, options, Some(row));
    FloorSpec(s.config.retentionFloor, s.g.cadence);
    CryptoTargetFits(s, row);
  }

  /** `completeThrough` rests on the last whole bar of a session that closes with less than a bar to go,
      and something later is due. */
  ghost predicate AtPartialTail(s: Stream, session: Session, row: StoredCheckpoint) {
    && s.g.IntradayEquity() && session in s.g.sessions && InScope(session.kind, s.g.scope)
    && Shaped(s.g, row) && row.missingRanges == [] && row.completeThrough.Some? && s.Boundary().Some?
    && var through := row.completeThrough.value;
       session.opensAt <= through < session.closesAt < through + s.g.Interval()
       && s.config.retentionFloor <= through < s.Boundary().value
  }

  /** From a partial tail the planner emits the same job for ever and the boundary stays. */
  lemma PartialTailNeverEnds(s: Stream, job: Job, options: Options, session: Session, row: StoredCheckpoint, n: nat)
    requires ValidConfig(s.config) && s.g.Wf() && AtPartialTail(s, session, row)
    ensures s.Plan(Rounds(s, job, options, Some(row), n)).Some?
    ensures ThroughOf(Rounds(s, job, options, Some(row), n)) == row.completeThrough
  {
    var through := row.completeThrough;
    var x := Stretch(session.opensAt, session.closesAt);
    assert Ahead(s, through, x);
    CurrentIsFirst(s, through);
    PlanForward(s, Some(row));
    RoundReaches(s, Some(row));
    RoundTakes(s, job, options, Some(row));
    StuckForEver(s, job, options, Some(row), n);
  }

  // Each hypothesis of `Regular` is needed: an input for each that meets the other two and never catches up.

  function Minutes(overlap: int, maxBars: int, floor: Instant): Config {
    Config(floor, PerCadence(overlap, 900_000, 86_400_000), PerCadence(0, 0, 0), maxBars)
  }

  /** An overlap of two bars in jobs of two bars. */
  lemma NarrowJobStalls(job: Job, options: Options) returns (s: Stream)
    ensures Permitted(s) && s.g.route == CryptoBars && s.config.retentionFloor % s.g.Interval() == 0
    ensures !Ends(s, job, options, None)
  {
    s := Stream(Minutes(120_000, 2, 0), Grid(OneMin, CryptoBars, AllTrading, []), 600_000);
    assert s.Boundary().value == 600_000;
    CryptoEndsIff(s, job, options);
  }

  /** A floor inside the only bar below the boundary. */
  lemma CutBarStalls(job: Job, options: Options) returns (s: Stream)
    ensures Permitted(s) && s.g.route == CryptoBars && s.Overlap() + s.g.Interval() <= s.Room()
    ensures !Ends(s, job, options, None)
  {
    s := Stream(Minutes(60_000, 2, 30_000), Grid(OneMin, CryptoBars, AllTrading, []), 60_000);
    assert s.Boundary().value == 60_000;
    CryptoEndsIff(s, job, options);
  }

  const SHORT := Session("2026-01-02", Regular, 0, 90_000, true, "r")

  const LATER := Session("2026-01-03", Regular, 120_000, 180_000, true, "r")

  const TAILED := Stream(Minutes(60_000, 2, 0), Grid(OneMin, StockBars, RegularScope, [SHORT, LATER]), 180_000)

  lemma TailedBoundary()
    ensures TAILED.Boundary() == Some(180_000)
  {
    var g, one := TAILED.g, [LATER];
    assert g.sessions[1..] == one && one[1..] == [];
    assert CurrentSession(g, one, 180_000) == None && LatestClosed(g, one, 180_000) == Some(LATER);
  }

  lemma TailedSessions()
    ensures Permitted(TAILED) && TAILED.Overlap() + TAILED.g.Interval() <= TAILED.Room()
    ensures SHORT in TAILED.g.sessions && TAILED.g.Eligible(Bar(0, 60_000))
  {
    assert TAILED.g.sessions[0] == SHORT && TAILED.g.sessions[1] == LATER;
    assert TAILED.g.InSession(TAILED.g.sessions[0], Bar(0, 60_000));
  }

  /** A session that is not a whole number of bars long, inside retention and below the boundary. */
  lemma PartialSessionStalls(s: Stream, job: Job, options: Options, session: Session)
    requires Permitted(s) && s.g.IntradayEquity() && session in s.g.sessions && InScope(session.kind, s.g.scope)
    requires s.Boundary().Some? && s.config.retentionFloor < session.closesAt <= s.Boundary().value
    requires session.opensAt < session.closesAt && (session.closesAt - session.opensAt) % s.g.Interval() != 0
    ensures !Ends(s, job, options, None)
  {
    assert Ahead(s, None, Stretch(session.opensAt, session.closesAt));
    ForwardEndsIff(s, job, options, None);
  }

  /** A session of a minute and a half with a later one after it: from nothing, and from any row at its tail. */
  lemma TailedStreamStalls(job: Job, options: Options, row: StoredCheckpoint)
    requires row.missingRanges == [] && row.completeThrough == Some(60_000)
    ensures Permitted(TAILED) && TAILED.Overlap() + TAILED.g.Interval() <= TAILED.Room()
    ensures AtPartialTail(TAILED, SHORT, row)
    ensures !Ends(TAILED, job, options, None)
  {
    TailedBoundary();
    TailedSessions();
    GapFreeIsShaped(TAILED.g, row);
    PartialSessionStalls(TAILED, job, options, SHORT);
  }

  // Daily bars: the overlap and a bar fit into a job, and still a weekend does not.

  const FRIDAY := Session("2026-01-02", Regular, 0, 23_400_000, false, "r")

  const MONDAY := Session("2026-01-05", Regular, 259_200_000, 282_600_000, false, "r")

  const WEEKEND := Stream(Config(0, PerCadence(60_000, 900_000, 86_400_000), PerCadence(0, 0, 0), 3),
                          Grid(OneDay, StockBars, RegularScope, [FRIDAY, MONDAY]), 282_600_000)

  lemma WeekendBoundary()
    ensures WEEKEND.Boundary() == Some(282_600_000)
  {
    var g, one := WEEKEND.g, [MONDAY];
    assert g.sessions[1..] == one && one[1..] == [];
    assert LatestClosed(g, one, 282_600_000) == Some(MONDAY);
  }

  lemma WeekendCloses()
    ensures Permitted(WEEKEND) && Closes(WEEKEND.g, WEEKEND.g.sessions, 23_400_000)
    ensures NextClose(WEEKEND.g, WEEKEND.g.sessions, 23_400_000) == Some(282_600_000)
  {
    var g, one := WEEKEND.g, [MONDAY];
    assert g.sessions[0] == FRIDAY && g.sessions[1] == MONDAY && g.sessions[1..] == one && one[1..] == [];
    assert FRIDAY in g.sessions;
    assert NextClose(g, one, 23_400_000) == Some(282_600_000);
  }

  /** A Friday and a Monday, an overlap of one day and jobs of three: from nothing the first round reaches Friday's
      close, and no round ever reaches Monday's. */
  lemma WeekendStalls(job: Job, options: Options)
    ensures Permitted(WEEKEND) && WEEKEND.Overlap() + WEEKEND.g.Interval() <= WEEKEND.Room()
    ensures !Ends(WEEKEND, job, options, None)
  {
    WeekendBoundary();
    WeekendCloses();
    assert Mark(WEEKEND, None) == 0 && !NextWithinReach(WEEKEND, 23_400_000);
    ForwardEndsIff(WEEKEND, job, options, None);
  }
}
