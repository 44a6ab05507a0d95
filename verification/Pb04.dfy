/** One locally evidenced session: the packet that predicts its recovery, and the simulation that performs it. */
module Pb04 {
  import opened Market
  import opened SessionGrid
  import opened Checkpoint
  import opened Schedule
  import opened BarNormalization
  import opened Execution
  import opened Tallies
  import opened Executor
  import opened Recovery
  import opened Campaign
  import opened LocalEvidence

  const VARIANT := "stock:iex:raw"
  const DEFAULT_UNIVERSE := "stock-monitoring-canary-v0.1"

  datatype Input = Input(session: EvidenceSession, coverageAbsences: seq<Absence>, checkpointBefore: StoredCheckpoint,
                         calendarRevision: string, createdAt: Instant)
  {
    function MarketSession(): Session {
      Session(session.marketDate, Regular, session.plan.start, session.plan.end, false, calendarRevision)
    }

    function Calendar(): Market.Calendar { Market.Calendar(calendarRevision, [MarketSession()]) }

    function Request(recoveryId: string, checkpoint: StoredCheckpoint): Recovery.Request
      requires checkpointBefore.completeThrough.Some?
    {
      Recovery.Request(recoveryId, session.providerRevision,
                       if checkpoint.universeRevision.Some? then checkpoint.universeRevision.value
                       else DEFAULT_UNIVERSE,
                       calendarRevision, Instrument(SYMBOL, OneMin, StockBars), session.coverageKey, RegularScope,
                       VARIANT, CatchUp,
                       TimeRange(checkpointBefore.completeThrough.value, session.plan.end), checkpoint, 100, createdAt)
    }

    function Grid(): SessionGrid.Grid { SessionGrid.Grid(OneMin, StockBars, RegularScope, [MarketSession()]) }
  }

  /** A market date without its separators. */
  function Compact(date: string): string {
    if date == [] then [] else (if date[0] == '-' then [] else [date[0]]) + Compact(date[1..])
  }

  // The dry-run packet.

  datatype PacketChunk = PacketChunk(ordinal: nat, jobId: JobId, requestedRange: TimeRange, expectedGridBars: int,
                                     localProviderBars: int, acknowledgedAbsent: nat, before: Mark, after: Mark)

  datatype Packet = Packet(campaignId: string, recoveryId: string, bars: nat, before: Mark, chunks: seq<PacketChunk>)

  predicate FrozenIdentity(c: StoredCheckpoint) {
    c.symbol == SYMBOL && c.interval == OneMin && c.sessionScope == RegularScope && c.logicalDataVariant == VARIANT
  }

  function PacketChunkFor(chunk: FrozenChunk, absences: seq<Absence>): PacketChunk {
    PacketChunk(chunk.ordinal, chunk.jobId, chunk.requestedRange, chunk.expectedBarCount,
                chunk.expectedBarCount - |absences|, |absences|, chunk.before, chunk.after)
  }

  function PacketChunks(chunks: seq<FrozenChunk>, absences: seq<Absence>): Result<seq<PacketChunk>> {
    if chunks == [] then Ok([])
    else
      var own := AbsencesForRange(absences, chunks[0].requestedRange);
      if own.Err? then Err(own.error)
      else
        var rest := PacketChunks(chunks[1..], absences);
        if rest.Err? then rest else Ok([PacketChunkFor(chunks[0], own.value)] + rest.value)
  }

  function CampaignId(input: Input, campaignId: Option<string>): string {
    if campaignId.Some? then campaignId.value else "PB04-NVDA-" + Compact(input.session.marketDate) + "-LOCAL-DRYRUN"
  }

  function RecoveryId(input: Input, recoveryId: Option<string>): string {
    if recoveryId.Some? then recoveryId.value else "L1-003-NVDA-" + Compact(input.session.marketDate) + "-LOCAL"
  }

  function BuildPacket(input: Input, campaignId: Option<string>, recoveryId: Option<string>): Result<Packet> {
    var c := input.checkpointBefore;
    if input.session.coverageKey != c.coverageKey then Err(EvidenceKeyMismatch)
    else if !FrozenIdentity(c) then Err(ForeignIdentity)
    else if c.state != Complete || c.missingRanges != [] || c.blocker.Some? || c.completeThrough.None?
    then Err(UncleanCheckpoint)
    else
      var campaign, recovery := CampaignId(input, campaignId), RecoveryId(input, recoveryId);
      var frozen := Frozen(campaign, input.Request(recovery, c), input.Calendar(), input.MarketSession());
      if frozen.Err? then Err(frozen.error)
      else
        var chunks := PacketChunks(frozen.value.chunks, input.coverageAbsences);
        if chunks.Err? then Err(chunks.error)
        else Ok(Packet(campaign, recovery, |input.session.bars|, Mark(c.completeThrough.value, c.version),
                       chunks.value))
  }

  // Execution against the simulated ports.

  /** What the ports hold: the one checkpoint and the starts accepted so far. */
  datatype SimState = SimState(current: StoredCheckpoint, accepted: set<Instant>)

  datatype Tallied = Tallied(counts: Counts, starts: set<Instant>, accepted: set<Instant>)

  /** Accept candidates one after the other: a start seen before is matched, a new one inserted. */
  function AcceptAll(candidates: seq<Candidate>, t: Tallied): Tallied {
    if candidates == [] then t
    else
      var n := |candidates| - 1;
      var before := AcceptAll(candidates[..n], t);
      if candidates[n].Rejected? then before.(counts := before.counts.(rejected := before.counts.rejected + 1))
      else
        var at := candidates[n].bar.barStart;
        Tallied(if at in before.accepted then before.counts.(matched := before.counts.matched + 1)
                else before.counts.(inserted := before.counts.inserted + 1),
                before.starts + {at}, before.accepted + {at})
  }

  datatype Step = Step(summary: Summary, state: SimState)

  /** The second half of a job: compare with the grid, propose, and compare-and-set. */
  function Concluded(job: Job, g: Grid, options: Options, acked: set<Instant>, s: SimState, t: Tallied): Result<Step> {
    var expected := Expected(g, job.requestedRange);
    if !AbsencesFit(expected, acked, t.starts) then Err(AbsenceOffGrid)
    else
      var missing := Unserved(s.current.completeThrough, expected, t.starts + acked);
      var proposed := Proposal(job, g, options, Some(s.current), t.starts + acked);
      if job.expectation.expectedVersion != Some(s.current.version) then Err(CompareAndSetConflict)
      else
        Ok(Step(Summary(job.jobId,
                        if missing != [] || t.counts.conflicts > 0 || t.counts.rejected > 0 then PartialAttempt
                        else Succeeded,
                        t.counts, |missing|, |acked|),
                SimState(proposed.(version := s.current.version + 1), t.accepted)))
  }

  /** `executeAcquisitionJob` with one page, at most `maxBars` bars, and the simulated ports. */
  function Executed(job: Job, g: Grid, options: Options, session: EvidenceSession, absences: seq<Absence>,
                    s: SimState): Result<Step> {
    if !AbsencesValid(job, absences) then Err(InvalidAbsenceEvidence)
    else
      var page := FetchPage(session, job.instrument.symbol, job.requestedRange);
      if page.Err? then Err(page.error)
      else if |page.value| > options.maxBars then Err(BarLimitExceeded)
      else if exists i :: 0 <= i < |page.value| && page.value[i].symbol != job.instrument.symbol
      then Err(UnrequestedSymbol)
      else
        Concluded(job, g, options, AbsenceStarts(absences), s,
                  AcceptAll(Candidates(page.value, job.instrument.symbol, g, options.dates),
                            Tallied(Counts(1, 0, 0, 0, 0), {}, s.accepted)))
  }

  /** The closures over the simulation's local state. */
  class SimulatedPorts {
    var current: StoredCheckpoint
    var accepted: set<Instant>

    constructor (checkpoint: StoredCheckpoint)
      ensures State() == SimState(checkpoint, {})
    {
      current := checkpoint;
      accepted := {};
    }

    ghost function State(): SimState
      reads this
    {
      SimState(current, accepted)
    }

    method CompareAndSet(expectedVersion: Option<int>, proposed: StoredCheckpoint) returns (updated: bool)
      modifies this
      ensures updated == (expectedVersion == Some(old(current.version))) && accepted == old(accepted)
      ensures current == if updated then proposed.(version := old(current.version) + 1) else old(current)
    {
      updated := expectedVersion == Some(current.version);
      if updated { current := proposed.(version := current.version + 1); }
    }

    method AcceptBatch(candidates: seq<Candidate>, counts0: Counts) returns (counts: Counts, starts: set<Instant>)
      modifies this
      ensures current == old(current)
      ensures Tallied(counts, starts, accepted) == AcceptAll(candidates, Tallied(counts0, {}, old(accepted)))
    {
      counts, starts := counts0, {};
      for i := 0 to |candidates|
        invariant current == old(current)
        invariant Tallied(counts, starts, accepted) == AcceptAll(candidates[..i], Tallied(counts0, {}, old(accepted)))
      {
        assert candidates[..i + 1][..i] == candidates[..i];
        if candidates[i].Rejected? {
          counts := counts.(rejected := counts.rejected + 1);
        } else {
          var at := candidates[i].bar.barStart;
          if at in accepted {
            counts := counts.(matched := counts.matched + 1);
          } else {
            counts := counts.(inserted := counts.inserted + 1);
          }
          accepted, starts := accepted + {at}, starts + {at};
        }
      }
      assert candidates[..|candidates|] == candidates;
    }
  }

  method Execute(job: Job, g: Grid, options: Options, session: EvidenceSession, absences: seq<Absence>,
                 ports: SimulatedPorts)
    returns (result: Result<Summary>)
    requires g.Wf()
    modifies ports
    ensures var spec := Executed(job, g, options, session, absences, old(ports.State()));
            && (result.Ok? <==> spec.Ok?)
            && (result.Ok? ==> spec.value == Step(result.value, ports.State()))
            && (result.Err? ==> spec == Err(result.error))
  {
    if !AbsencesValid(job, absences) { return Err(InvalidAbsenceEvidence); }
    var page := FetchPage(session, job.instrument.symbol, job.requestedRange);
    if page.Err? { return Err(page.error); }
    if |page.value| > options.maxBars { return Err(BarLimitExceeded); }
    if exists i :: 0 <= i < |page.value| && page.value[i].symbol != job.instrument.symbol {
      return Err(UnrequestedSymbol);
    }
    var counts, starts := ports.AcceptBatch(Candidates(page.value, job.instrument.symbol, g, options.dates),
                                            Counts(1, 0, 0, 0, 0));
    var expected := ExpectedBars(g, job.requestedRange);
    var acked := AbsenceStarts(absences);
    if !AbsencesFit(expected, acked, starts) { return Err(AbsenceOffGrid); }
    var proposed, missing := Propose(job, g, options, Some(ports.current), expected, starts + acked);
    var updated := ports.CompareAndSet(job.expectation.expectedVersion, proposed);
    if !updated { return Err(CompareAndSetConflict); }
    var outcome := if missing > 0 || counts.conflicts > 0 || counts.rejected > 0 then PartialAttempt else Succeeded;
    result := Ok(Summary(job.jobId, outcome, counts, missing, |acked|));
  }

  // The simulation loop.

  datatype SimMark = SimMark(completeThrough: Option<Instant>, version: int)

  datatype SimChunk = SimChunk(ordinal: nat, summary: Summary, before: SimMark, after: SimMark,
                               stateAfter: CheckpointState)

  datatype Simulation = Simulation(initial: SimMark, final: SimMark, finalState: CheckpointState, chunks: seq<SimChunk>)

  function MarkOf(c: StoredCheckpoint): SimMark { SimMark(c.completeThrough, c.version) }

  datatype Trace = Trace(chunks: seq<SimChunk>, state: SimState)

  function Prefixed(chunks: seq<SimChunk>, rest: Result<Trace>): Result<Trace> {
    if rest.Err? then rest else Ok(Trace(chunks + rest.value.chunks, rest.value.state))
  }

  lemma Joined(chunks: seq<SimChunk>, next: SimChunk, rest: Result<Trace>)
    ensures Prefixed(chunks, Prefixed([next], rest)) == Prefixed(chunks + [next], rest)
  {
    if rest.Ok? { assert chunks + ([next] + rest.value.chunks) == chunks + [next] + rest.value.chunks; }
  }

  /** One round of the loop: plan from the current checkpoint, then execute. */
  type Round = SimState -> Result<Option<Step>>

  function Loop(round: Round, s: SimState, ordinal: nat): Result<Trace>
    requires ordinal <= 5
    decreases 5 - ordinal, s
  {
    if ordinal > 4 then Ok(Trace([], s))
    else
      var r := round(s);
      if r.Err? then Err(r.error)
      else if r.value.None? then Ok(Trace([], s))
      else
        var step := r.value.value;
        Prefixed([SimChunk(ordinal, step.summary, MarkOf(s.current), MarkOf(step.state.current),
                           step.state.current.state)],
                 Loop(round, step.state, ordinal + 1))
  }

  function SimulatedId(input: Input): string {
    "L1-003-NVDA-" + Compact(input.session.marketDate) + "-LOCAL-SIM"
  }

  function RoundFor(input: Input, options: Options): Round
    requires input.checkpointBefore.completeThrough.Some?
  {
    (s: SimState) =>
      var planned := PlanNext(input.Request(SimulatedId(input), s.current), input.Calendar());
      if planned.Err? then Err(planned.error)
      else if planned.value.None? then Ok(None)
      else
        var job := planned.value.value;
        var absences := AbsencesForRange(input.coverageAbsences, job.requestedRange);
        if absences.Err? then Err(absences.error)
        else
          var step := Executed(job, input.Grid(), options, input.session, absences.value, s);
          if step.Err? then Err(step.error) else Ok(Some(step.value))
  }

  function Simulated(input: Input, options: Options): Result<Simulation> {
    var c := input.checkpointBefore;
    if c.completeThrough.None? then Err(NoCheckpointBoundary)
    else
      var trace := Loop(RoundFor(input, options), SimState(c, {}), 1);
      if trace.Err? then Err(trace.error)
      else Ok(Simulation(MarkOf(c), MarkOf(trace.value.state.current), trace.value.state.current.state,
                         trace.value.chunks))
  }

  /** The options the simulation executes with. */
  function SimOptions(input: Input, attemptId: string, dates: Dates): Options {
    Options("iex", 1, 100, None, attemptId, input.createdAt, dates)
  }

  /** The planner checked the one session before it planned anything. */
  lemma PlannedMeansWf(input: Input, request: Request)
    requires request.instrument.route == StockBars && request.sessionScope == RegularScope
    requires PlanNext(request, input.Calendar()).Ok?
    ensures input.Grid().Wf()
  {
    var sessions := SelectedSessions(request, input.Calendar());
    SelectedInScope(request, input.Calendar());
    assert input.MarketSession() in sessions;
    var i :| 0 <= i < |sessions| && sessions[i] == input.MarketSession();
    assert SessionFits(sessions, request.calendarRevision, i);
  }

  /** One turn of the simulation loop. */
  method SimulateRound(input: Input, options: Options, ports: SimulatedPorts) returns (result: Result<Option<Summary>>)
    requires input.checkpointBefore.completeThrough.Some?
    modifies ports
    ensures var spec := RoundFor(input, options)(old(ports.State()));
            && (result.Err? <==> spec.Err?) && (result.Err? ==> spec == Err(result.error))
            && (result.Ok? ==> (result.value.None? <==> spec.value.None?))
            && (result.Ok? && result.value.None? ==> ports.State() == old(ports.State()))
            && (result.Ok? && result.value.Some? ==> spec.value.value == Step(result.value.value, ports.State()))
  {
    var planned := PlanNext(input.Request(SimulatedId(input), ports.current), input.Calendar());
    if planned.Err? { return Err(planned.error); }
    if planned.value.None? { return Ok(None); }
    var job := planned.value.value;
    PlannedMeansWf(input, input.Request(SimulatedId(input), ports.current));
    var absences := AbsencesForRange(input.coverageAbsences, job.requestedRange);
    if absences.Err? { return Err(absences.error); }
    var summary := Execute(job, input.Grid(), options, input.session, absences.value, ports);
    if summary.Err? { return Err(summary.error); }
    result := Ok(Some(summary.value));
  }

  /** At most four rounds; `current` and `accepted` live in the ports. */
  method SimulateSession(input: Input, options: Options) returns (result: Result<Simulation>)
    ensures result == Simulated(input, options)
  {
    if input.checkpointBefore.completeThrough.None? { return Err(NoCheckpointBoundary); }
    var ports := new SimulatedPorts(input.checkpointBefore);
    var trace := SimulateRounds(input, options, ports, 1);
    if trace.Err? { return Err(trace.error); }
    result := Ok(Simulation(MarkOf(input.checkpointBefore), MarkOf(ports.current), ports.current.state, trace.value));
  }

  method SimulateRounds(input: Input, options: Options, ports: SimulatedPorts, first: nat)
    returns (result: Result<seq<SimChunk>>)
    requires input.checkpointBefore.completeThrough.Some? && first <= 5
    modifies ports
    ensures var spec := Loop(RoundFor(input, options), old(ports.State()), first);
            && (result.Err? ==> spec == Err(result.error))
            && (result.Ok? ==> spec == Ok(Trace(result.value, ports.State())))
  {
    var chunks: seq<SimChunk> := [];
    var ordinal := first;
    ghost var round := RoundFor(input, options);
    ghost var total := Loop(round, ports.State(), first);
    ghost var rest := total;
    assert rest.Ok? ==> chunks + rest.value.chunks == rest.value.chunks;
    while ordinal <= 4
      invariant first <= ordinal <= 5
      invariant rest == Loop(round, ports.State(), ordinal) && total == Prefixed(chunks, rest)
      decreases 5 - ordinal
    {
      var before := ports.current;
      var executed := SimulateRound(input, options, ports);
      if executed.Err? { return Err(executed.error); }
      if executed.value.None? { break; }
      var next := SimChunk(ordinal, executed.value.value, MarkOf(before), MarkOf(ports.current), ports.current.state);
      ghost var later := Loop(round, ports.State(), ordinal + 1);
      Joined(chunks, next, later);
      chunks, rest, ordinal := chunks + [next], later, ordinal + 1;
    }
    assert chunks + [] == chunks;
    result := Ok(chunks);
  }
}
