/** What historical recovery plans for continuous trading, where neither the calendar nor the session scope is
    ever looked at. */
module RecoveryCrypto {
  import opened Market
  import opened SessionGrid
  import opened Checkpoint
  import opened Schedule
  import opened Recovery
  import opened RecoveryChunks

  /** On aligned bounds, what is pending behind a grid instant are the steps from there. */
  lemma {:induction false} PendingSteps(c: Cadence, at: Instant, end: Instant, through: Instant)
    requires AlignedBounds(c, at, end) && through % IntervalMs(c) == 0 && at <= through <= end
    ensures Pending(Tagged(Steps(at, end, IntervalMs(c)), None), through) == Tagged(Steps(through, end, IntervalMs(c)),
                                                                                    None)
    decreases through - at
  {
    if at == through {
      var bars := Tagged(Steps(at, end, IntervalMs(c)), None);
      StepsSpec(at, end, c);
      forall i | 0 <= i < |bars| ensures bars[i].bar.completes > through {
        assert bars[i].bar in Steps(at, end, IntervalMs(c));
      }
      AllPending(bars, through);
    } else {
      GridStep(c, at, end);
      AlignedFits(c, at, through);
      var rest := Tagged(Steps(at + IntervalMs(c), end, IntervalMs(c)), None);
      assert ([EligibleBar(Bar(at, at + IntervalMs(c)), None)] + rest)[1..] == rest;
      PendingSteps(c, at + IntervalMs(c), end, through);
    }
  }

  lemma StepEndsAt(c: Cadence, start: Instant, end: Instant, at: Instant)
    requires AlignedBounds(c, start, end) && start < at <= end && at % IntervalMs(c) == 0
    ensures Bar(at - IntervalMs(c), at) in Steps(start, end, IntervalMs(c))
  {
    StepsSpec(start, end, c);
    MinusStep(c, at);
    AlignedDisjoint(c, 0, start, at);
    AlignedShift(c, 0, start, at - IntervalMs(c));
  }

  lemma StepEndIsAligned(c: Cadence, start: Instant, end: Instant, b: Bar)
    requires AlignedBounds(c, start, end) && b in Steps(start, end, IntervalMs(c))
    ensures b.completes % IntervalMs(c) == 0
  {
    StepsSpec(start, end, c);
    AlignedShift(c, 0, start, b.start);
    PlusStep(c, b.start);
  }

  /** The boundary test comes down to alignment. */
  lemma BoundaryIsAligned(request: Request, at: Instant)
    requires var c, range := request.instrument.cadence, request.recoveryRange;
             AlignedBounds(c, range.start, range.end) && range.start <= at <= range.end
    ensures var c, range := request.instrument.cadence, request.recoveryRange;
            IsBoundary(request, Tagged(Steps(range.start, range.end, IntervalMs(c)), None), at)
            <==> at % IntervalMs(c) == 0
  {
    var c, range := request.instrument.cadence, request.recoveryRange;
    var bars := Steps(range.start, range.end, IntervalMs(c));
    if at % IntervalMs(c) == 0 && range.start < at {
      StepEndsAt(c, range.start, range.end, at);
      var i :| 0 <= i < |bars| && bars[i] == Bar(at - IntervalMs(c), at);
      assert Tagged(bars, None)[i].bar.completes == at;
    }
    if i :| 0 <= i < |bars| && Tagged(bars, None)[i].bar.completes == at {
      StepEndIsAligned(c, range.start, range.end, bars[i]);
    }
  }

  /** The `n`-th completion from an aligned instant, or the end if that comes first. */
  lemma {:induction false} StepsHead(c: Cadence, at: Instant, end: Instant, n: nat)
    requires AlignedBounds(c, at, end) && at < end && n >= 1
    ensures var bars := Steps(at, end, IntervalMs(c));
            && bars != [] && bars[0] == Bar(at, at + IntervalMs(c))
            && bars[Min(n, |bars|) - 1].completes == Min(at + IntervalMs(c) * n, end)
    decreases n
  {
    AlignedFits(c, at, end);
    var rest := Steps(at + IntervalMs(c), end, IntervalMs(c));
    if n > 1 && at + IntervalMs(c) < end {
      StepsHead(c, at + IntervalMs(c), end, n - 1);
      OneStepMore(IntervalMs(c), n);
    }
  }

  lemma OneStepMore(step: int, n: int)
    ensures step + step * (n - 1) == step * n
  {
  }

  lemma {:induction false} OfOneKey(bars: seq<EligibleBar>, key: Option<Instant>)
    requires forall i :: 0 <= i < |bars| ==> bars[i].sessionKey == key
    ensures OfKey(bars, key) == bars
  {
    if bars != [] { OfOneKey(bars[..|bars| - 1], key); }
  }

  /** The next chunk from a grid instant before the end. */
  lemma NextSteps(c: Cadence, start: Instant, end: Instant, through: Instant, max: nat)
    requires AlignedBounds(c, start, end) && through % IntervalMs(c) == 0 && start <= through < end && max >= 1
    ensures NextRange(Tagged(Steps(start, end, IntervalMs(c)), None), through, max)
         == Some(TimeRange(through, Min(through + IntervalMs(c) * max, end)))
  {
    var pending := Tagged(Steps(through, end, IntervalMs(c)), None);
    PendingSteps(c, start, end, through);
    StepsHead(c, through, end, max);
    OfOneKey(pending[..Min(max, |pending|)], None);
  }

  /** Everything a crypto recovery plans, in closed form: nothing in it depends on the calendar, and the session
      scope counts only as a part of the coverage key and of the checkpoint's identity. */
  function CryptoPlan(request: Request): Result<Option<Job>> {
    var c, range := request.instrument.cadence, request.recoveryRange;
    if Refusal(request).Some? then Err(Refusal(request).value)
    else if !AlignedBounds(c, range.start, range.end) then Err(UnalignedCryptoBounds)
    else
      var through := request.checkpointBefore.completeThrough.value;
      if through % IntervalMs(c) != 0 then Err(BoundaryNotEligible)
      else if through == range.end then Ok(None)
      else
        Ok(Some(JobFor(request, TimeRange(through, Min(through + IntervalMs(c) * request.maxBarsPerJob, range.end)))))
  }

  /** The guards on the calendar revision and on the `ALL_TRADING` scope are never reached: whatever the calendar
      and the scope, a crypto recovery plans what `CryptoPlan` says. */
  lemma CryptoPlanned(request: Request, calendar: Calendar)
    requires request.instrument.route == CryptoBars
    ensures PlanNext(request, calendar) == CryptoPlan(request)
  {
    var c, range := request.instrument.cadence, request.recoveryRange;
    if Refusal(request).None? && AlignedBounds(c, range.start, range.end) {
      var through := request.checkpointBefore.completeThrough.value;
      BoundaryIsAligned(request, through);
      if through % IntervalMs(c) == 0 && through < range.end {
        NextSteps(c, range.start, range.end, through, request.maxBarsPerJob);
      }
    }
  }

  /** When a crypto recovery is not refused: a condition on the request alone. */
  lemma CryptoPlansIff(request: Request, calendar: Calendar)
    requires request.instrument.route == CryptoBars
    ensures PlanNext(request, calendar).Ok? <==>
              && Refusal(request).None?
              && AlignedBounds(request.instrument.cadence, request.recoveryRange.start, request.recoveryRange.end)
              && request.checkpointBefore.completeThrough.value % IntervalMs(request.instrument.cadence) == 0
  {
    CryptoPlanned(request, calendar);
  }

  /** An input the messages rule out, with the `REGULAR` scope and a calendar of another revision, is planned. */
  lemma ForeignScopeIsPlanned(row: StoredCheckpoint, instrument: Instrument, calendar: Calendar)
    returns (request: Request)
    requires instrument == Instrument("BTC", OneMin, CryptoBars) && calendar.revision == "d"
    requires row.coverageKey == CoverageKeyFor(instrument, RegularScope, "v") && row.state == Complete
    requires row.missingRanges == [] && row.version == 0 && row.completeThrough == Some(0)
    requires row.symbol == "BTC" && row.interval == OneMin && row.sessionScope == RegularScope
    requires row.logicalDataVariant == "v"
    ensures request.instrument.route == CryptoBars && request.sessionScope == RegularScope
    ensures calendar.revision != request.calendarRevision
    ensures PlanNext(request, calendar) == Ok(Some(JobFor(request, TimeRange(0, 60_000))))
  {
    request := Request("r", "p", "u", "c", instrument, row.coverageKey, RegularScope, "v", CatchUp,
                       TimeRange(0, 60_000), row, 1, 0);
    CryptoPlanned(request, calendar);
  }
}
