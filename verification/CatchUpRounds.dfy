/** One round after another, whatever the stream: a fully served round in closed form, and the alternative between
    moving and being repeated for ever. */
module CatchUpRounds {
  import opened Market
  import opened SessionGrid
  import opened Checkpoint
  import opened Schedule
  import opened Execution
  import opened CatchUp

  /** Nothing is assumed but a valid configuration and a well-formed calendar. */
  ghost predicate Permitted(s: Stream) { ValidConfig(s.config) && s.g.Wf() }

  /** Catch-up ends: some number of fully served rounds leaves nothing to plan. */
  ghost predicate Ends(s: Stream, job: Job, options: Options, row: Option<StoredCheckpoint>) {
    exists n: nat :: s.Plan(Rounds(s, job, options, row, n)).None?
  }

  /** No recorded gap is actionable, so the next round goes forward. */
  predicate GoesForward(s: Stream, row: Option<StoredCheckpoint>) {
    row.Some? && s.Boundary().Some?
    ==> FirstGap(row.value.missingRanges, s.Boundary().value, s.config.retentionFloor).None?
  }

  /** A forward round is due: the boundary is above the floor and above what is complete. */
  predicate Due(s: Stream, through: Option<Instant>) {
    && s.Boundary().Some? && s.config.retentionFloor < s.Boundary().value
    && (through.Some? ==> through.value < s.Boundary().value)
  }

  /** Where a fully served round takes `completeThrough`: to the last completion in the planned range, if that is
      later. */
  function Taken(s: Stream, row: Option<StoredCheckpoint>): Option<Instant>
    requires s.Plan(row).Some?
  {
    var through, bars := ThroughOf(row), Expected(s.g, s.Plan(row).value.range);
    if bars == [] || (through.Some? && bars[|bars| - 1].completes <= through.value) then through
    else Some(bars[|bars| - 1].completes)
  }

  /** A fully served round in closed form. */
  lemma RoundTakes(s: Stream, job: Job, options: Options, row: Option<StoredCheckpoint>)
    requires Permitted(s) && Reachable(s.g, row) && s.Plan(row).Some?
    ensures var after := Round(s, job, options, row);
            && after.Some? && after.value.missingRanges == [] && Reachable(s.g, after) && GoesForward(s, after)
            && ThroughOf(after) == Taken(s, row)
  {
    var bars := Expected(s.g, s.Plan(row).value.range);
    ServedRound(s, job, options, row);
    ExpectedSpec(s.g, s.Plan(row).value.range);
    AllServed(ThroughOf(row), bars, StartsOf(bars));
  }

  /** Two forward rows with the same boundary are planned alike. */
  lemma SamePlan(s: Stream, a: Option<StoredCheckpoint>, b: Option<StoredCheckpoint>)
    requires GoesForward(s, a) && GoesForward(s, b) && ThroughOf(a) == ThroughOf(b)
    ensures s.Plan(a) == s.Plan(b)
  {
  }

  /** A round that does not move leaves the planner where it was. */
  lemma StuckStays(s: Stream, job: Job, options: Options, row: Option<StoredCheckpoint>)
    requires Permitted(s) && Reachable(s.g, row) && GoesForward(s, row) && s.Plan(row).Some?
    requires !MovedForward(ThroughOf(row), Taken(s, row))
    ensures var after := Round(s, job, options, row);
            && Reachable(s.g, after) && GoesForward(s, after) && s.Plan(after) == s.Plan(row)
            && ThroughOf(after) == ThroughOf(row) && Taken(s, after) == Taken(s, row)
  {
    RoundTakes(s, job, options, row);
    SamePlan(s, row, Round(s, job, options, row));
  }

  /** A round that does not move is repeated for ever. */
  lemma {:induction false} StuckForEver(s: Stream, job: Job, options: Options, row: Option<StoredCheckpoint>, n: nat)
    requires Permitted(s) && Reachable(s.g, row) && GoesForward(s, row) && s.Plan(row).Some?
    requires !MovedForward(ThroughOf(row), Taken(s, row))
    ensures s.Plan(Rounds(s, job, options, row, n)) == s.Plan(row)
    ensures ThroughOf(Rounds(s, job, options, row, n)) == ThroughOf(row)
    decreases n
  {
    if n > 0 {
      StuckStays(s, job, options, row);
      StuckForEver(s, job, options, Round(s, job, options, row), n - 1);
    }
  }

  lemma StuckNeverEnds(s: Stream, job: Job, options: Options, row: Option<StoredCheckpoint>)
    requires Permitted(s) && Reachable(s.g, row) && GoesForward(s, row) && s.Plan(row).Some?
    requires !MovedForward(ThroughOf(row), Taken(s, row))
    ensures !Ends(s, job, options, row)
  {
    forall n: nat ensures s.Plan(Rounds(s, job, options, row, n)).Some? { StuckForEver(s, job, options, row, n); }
  }

  lemma EndsStep(s: Stream, job: Job, options: Options, row: Option<StoredCheckpoint>)
    requires s.Plan(row).Some?
    ensures Ends(s, job, options, row) <==> Ends(s, job, options, Round(s, job, options, row))
  {
    var next := Round(s, job, options, row);
    if Ends(s, job, options, row) {
      var n: nat :| s.Plan(Rounds(s, job, options, row, n)).None?;
      assert n > 0;
      assert s.Plan(Rounds(s, job, options, next, n - 1)).None?;
    }
    if Ends(s, job, options, next) {
      var n: nat :| s.Plan(Rounds(s, job, options, next, n)).None?;
      assert s.Plan(Rounds(s, job, options, row, n + 1)).None?;
    }
  }

  /** A round that moves leaves fewer bars and stays below the boundary. */
  lemma MoveShrinks(s: Stream, job: Job, options: Options, row: Option<StoredCheckpoint>)
    requires Permitted(s) && Reachable(s.g, row) && s.Plan(row).Some? && MovedForward(ThroughOf(row), Taken(s, row))
    ensures Taken(s, row).value <= s.Boundary().value
    ensures |Remaining(s, Round(s, job, options, row))| < |Remaining(s, row)|
  {
    var bars := Expected(s.g, s.Plan(row).value.range);
    var last := bars[|bars| - 1];
    assert last in bars;
    RoundTakes(s, job, options, row);
    RemainingShrinks(s, row, last.completes, last);
    PlannedWindowIsBoundedAndFinal(s.config, s.g, row, s.now);
    ExpectedSpec(s.g, s.Plan(row).value.range);
  }
}
