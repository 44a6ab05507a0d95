/** A recovery campaign: one session frozen into chunks ahead of time. */
module Campaign {
  import opened Market
  import opened Ordering
  import opened SessionGrid
  import opened Checkpoint
  import opened Schedule
  import opened Execution
  import opened Recovery
  import opened RecoveryChunks

  const MAX_CAMPAIGN_JOBS := 4
  const MAX_CAMPAIGN_BARS := 390

  datatype Mark = Mark(completeThrough: Instant, version: int)

  datatype FrozenChunk = FrozenChunk(ordinal: nat, jobId: JobId, requestedRange: TimeRange, expectedBarCount: int,
                                     before: Mark, after: Mark)

  datatype FrozenCampaign = FrozenCampaign(campaignId: string, request: Request, calendar: Calendar, session: Session,
                                           chunks: seq<FrozenChunk>)

  predicate Clean(c: StoredCheckpoint) {
    && c.state == Complete && c.missingRanges == [] && c.blocker.None?
    && c.completeThrough.Some? && c.version >= 0
  }

  /** Whole minutes in a range, if it holds at least one and nothing else. */
  function BarCount(range: TimeRange): Option<int> {
    if (range.end - range.start) % 60_000 == 0 && range.end - range.start >= 60_000
    then Some((range.end - range.start) / 60_000) else None
  }

  function Refused(campaignId: string, request: Request, calendar: Calendar, session: Session): Option<Fault> {
    var minutes := BarCount(TimeRange(session.opensAt, session.closesAt));
    if campaignId == "" then Some(EmptyCampaignId)
    else if !Clean(request.checkpointBefore) then Some(UncleanCheckpoint)
    else if request.instrument.cadence != OneMin || request.sessionScope != RegularScope
            || request.maxBarsPerJob != 100 then
      Some(UnreviewedShape)
    else if calendar.revision != request.calendarRevision || session.calendarRevision != request.calendarRevision
            || session.kind != Regular then Some(SessionIdentityMismatch)
    else if minutes.None? then Some(InvalidMinuteRange)
    else if minutes.value != MAX_CAMPAIGN_BARS then Some(NotAFullSession)
    else if request.checkpointBefore.completeThrough.value > session.opensAt
            || request.recoveryRange.end < session.closesAt then
      Some(SessionOutsideRange)
    else None
  }

  function ChunkFor(request: Request, job: Job, ordinal: nat, count: int): FrozenChunk
    requires request.checkpointBefore.completeThrough.Some?
  {
    var c := request.checkpointBefore;
    FrozenChunk(ordinal, job.jobId, job.requestedRange, count,
                Mark(c.completeThrough.value, c.version), Mark(job.requestedRange.end, c.version + 1))
  }

  /** The planner for one calendar. */
  type Planner = Request -> Result<Option<Job>>

  function PlannerFor(calendar: Calendar): Planner {
    (request: Request) => PlanNext(request, calendar)
  }

  /** One turn of the freezing loop. */
  function NextChunk(planner: Planner, request: Request, session: Session, ordinal: nat): Result<FrozenChunk>
    requires request.checkpointBefore.completeThrough.Some?
  {
    var planned := planner(request);
    if planned.Err? then Err(planned.error)
    else if planned.value.None? then Err(PlannerEndedEarly)
    else
      var job := planned.value.value;
      if job.requestedRange.start < session.opensAt || job.requestedRange.end > session.closesAt
      then Err(SessionCrossed)
      else
        var count := BarCount(job.requestedRange);
        if count.None? then Err(InvalidMinuteRange)
        else if ordinal > MAX_CAMPAIGN_JOBS then Err(TooManyJobs)
        else Ok(ChunkFor(request, job, ordinal, count.value))
  }

  /** The chunks frozen from a given checkpoint on. */
  function FrozenFrom(planner: Planner, request: Request, session: Session, ordinal: nat): Result<seq<FrozenChunk>>
    requires request.checkpointBefore.completeThrough.Some? && ordinal <= MAX_CAMPAIGN_JOBS + 1
    decreases MAX_CAMPAIGN_JOBS + 1 - ordinal, session
  {
    if request.checkpointBefore.completeThrough.value == session.closesAt then Ok([])
    else
      var next := NextChunk(planner, request, session, ordinal);
      if next.Err? then Err(next.error)
      else
        Prefixed([next.value],
                 FrozenFrom(planner, request.CommittedAt(next.value.requestedRange.end), session, ordinal + 1))
  }

  function TotalBars(chunks: seq<FrozenChunk>): int {
    if chunks == [] then 0 else chunks[0].expectedBarCount + TotalBars(chunks[1..])
  }

  function Frozen(campaignId: string, request: Request, calendar: Calendar, session: Session): Result<FrozenCampaign> {
    var refused := Refused(campaignId, request, calendar, session);
    if refused.Some? then Err(refused.value)
    else
      var chunks := FrozenFrom(PlannerFor(calendar), request, session, 1);
      if chunks.Err? then Err(chunks.error)
      else if |chunks.value| != MAX_CAMPAIGN_JOBS || TotalBars(chunks.value) != MAX_CAMPAIGN_BARS then Err(WrongTotal)
      else Ok(FrozenCampaign(campaignId, request, calendar, session, chunks.value))
  }

  function Prefixed(chunks: seq<FrozenChunk>, rest: Result<seq<FrozenChunk>>): Result<seq<FrozenChunk>> {
    if rest.Err? then rest else Ok(chunks + rest.value)
  }

  lemma Joined(chunks: seq<FrozenChunk>, next: FrozenChunk, rest: Result<seq<FrozenChunk>>)
    ensures Prefixed(chunks, Prefixed([next], rest)) == Prefixed(chunks + [next], rest)
  {
    if rest.Ok? { assert chunks + ([next] + rest.value) == chunks + [next] + rest.value; }
  }

  /** The freezing loop from chunk number `first` on: plan a chunk, pretend it committed, plan the next. */
  method FreezeChunks(planner: Planner, request: Request, session: Session, first: nat)
    returns (result: Result<seq<FrozenChunk>>)
    requires request.checkpointBefore.completeThrough.Some? && first <= MAX_CAMPAIGN_JOBS + 1
    ensures result == FrozenFrom(planner, request, session, first)
  {
    var chunks: seq<FrozenChunk> := [];
    var current := request;
    ghost var rest := FrozenFrom(planner, request, session, first);
    assert rest.Ok? ==> chunks + rest.value == rest.value;
    while current.checkpointBefore.completeThrough.value != session.closesAt
      invariant current.checkpointBefore.completeThrough.Some? && first + |chunks| <= MAX_CAMPAIGN_JOBS + 1
      invariant rest == FrozenFrom(planner, current, session, first + |chunks|)
      invariant FrozenFrom(planner, request, session, first) == Prefixed(chunks, rest)
      decreases MAX_CAMPAIGN_JOBS + 1 - first - |chunks|
    {
      var next := NextChunk(planner, current, session, first + |chunks|);
      if next.Err? { return Err(next.error); }
      current := current.CommittedAt(next.value.requestedRange.end);
      ghost var later := FrozenFrom(planner, current, session, first + |chunks| + 1);
      Joined(chunks, next.value, later);
      chunks, rest := chunks + [next.value], later;
    }
    assert chunks + [] == chunks;
    result := Ok(chunks);
  }

  method CountBars(chunks: seq<FrozenChunk>) returns (total: int)
    ensures total == TotalBars(chunks)
  {
    total := 0;
    for i := 0 to |chunks|
      invariant total + TotalBars(chunks[i..]) == TotalBars(chunks)
    {
      total := total + chunks[i].expectedBarCount;
    }
  }

  /** Freeze one full session and its deterministic chunk identities. */
  method Freeze(campaignId: string, request: Request, calendar: Calendar, session: Session)
    returns (result: Result<FrozenCampaign>)
    ensures result == Frozen(campaignId, request, calendar, session)
  {
    var refused := Refused(campaignId, request, calendar, session);
    if refused.Some? { return Err(refused.value); }
    var frozen := FreezeChunks(PlannerFor(calendar), request, session, 1);
    if frozen.Err? { return Err(frozen.error); }
    var total := CountBars(frozen.value);
    if |frozen.value| != MAX_CAMPAIGN_JOBS || total != MAX_CAMPAIGN_BARS { return Err(WrongTotal); }
    result := Ok(FrozenCampaign(campaignId, request, calendar, session, frozen.value));
  }

  // What a frozen campaign looks like.

  /** Chunks linked end to start: each begins with the checkpoint the one before it leaves behind. */
  ghost predicate Linked(chunks: seq<FrozenChunk>, from: Mark, to: Instant) {
    if chunks == [] then from.completeThrough == to
    else
      && chunks[0].before == from
      && chunks[0].after == Mark(chunks[0].requestedRange.end, from.version + 1)
      && chunks[0].requestedRange.start < chunks[0].requestedRange.end
      && chunks[0].requestedRange.end - chunks[0].requestedRange.start == chunks[0].expectedBarCount * 60_000
      && from.completeThrough <= chunks[0].requestedRange.start
      && Linked(chunks[1..], chunks[0].after, to)
  }

  ghost predicate IsBarEnd(request: Request, calendar: Calendar, at: Instant) {
    var bars := EligibleBars(request, calendar);
    bars.Ok? && exists i :: 0 <= i < |bars.value| && bars.value[i].bar.completes == at
  }

  lemma SliceAhead(bars: seq<EligibleBar>, range: TimeRange, through: Instant, j: nat, k: nat)
    requires Arranged(bars, range) && j < j + k <= |bars| && through < bars[j].bar.completes
    ensures var slice := SliceRange(bars, j, k);
            && range.start <= slice.start < slice.end <= range.end && through < slice.end
            && ((exists i :: 0 <= i < |bars| && bars[i].bar.completes == through) ==> through <= slice.start)
            && exists i :: 0 <= i < |bars| && bars[i].bar.completes == slice.end
  {
    assert bars[j].bar.start < bars[j].bar.completes <= bars[j + k - 1].bar.completes;
    assert bars[j + k - 1].bar.completes == SliceRange(bars, j, k).end;
  }

  /** A planned range never starts before a checkpoint that is a bar completion, and ends with one. */
  lemma StartsAhead(request: Request, calendar: Calendar, job: Job)
    requires PlanNext(request, calendar) == Ok(Some(job))
    ensures request.checkpointBefore.completeThrough.Some?
    ensures IsBarEnd(request, calendar, request.checkpointBefore.completeThrough.value)
            ==> request.checkpointBefore.completeThrough.value <= job.requestedRange.start
    ensures job.requestedRange.start < job.requestedRange.end
    ensures IsBarEnd(request.CommittedAt(job.requestedRange.end), calendar, job.requestedRange.end)
  {
    var bars, j, k := JobIsSlice(request, calendar, job);
    SliceAhead(bars, request.recoveryRange, request.checkpointBefore.completeThrough.value, j, k);
    CommitStep(request, calendar);
  }

  lemma WholeMinutes(range: TimeRange)
    requires BarCount(range).Some?
    ensures range.end - range.start == BarCount(range).value * 60_000
  {
  }

  lemma {:induction false} ChunksLinked(request: Request, calendar: Calendar, session: Session, ordinal: nat)
    requires request.checkpointBefore.completeThrough.Some? && ordinal <= MAX_CAMPAIGN_JOBS + 1
    requires FrozenFrom(PlannerFor(calendar), request, session, ordinal).Ok?
    requires request.checkpointBefore.completeThrough.value <= session.opensAt
             || IsBarEnd(request, calendar, request.checkpointBefore.completeThrough.value)
    ensures var c := request.checkpointBefore;
            Linked(FrozenFrom(PlannerFor(calendar), request, session, ordinal).value,
                   Mark(c.completeThrough.value, c.version), session.closesAt)
    decreases MAX_CAMPAIGN_JOBS + 1 - ordinal
  {
    if request.checkpointBefore.completeThrough.value != session.closesAt {
      var job := PlanNext(request, calendar).value.value;
      StartsAhead(request, calendar, job);
      WholeMinutes(job.requestedRange);
      ChunksLinked(request.CommittedAt(job.requestedRange.end), calendar, session, ordinal + 1);
    }
  }

  /** The ranges follow each other without a gap from `at` to `to`. */
  ghost predicate Tiles(chunks: seq<FrozenChunk>, at: Instant, to: Instant) {
    if chunks == [] then at == to
    else chunks[0].requestedRange.start == at < chunks[0].requestedRange.end
         && Tiles(chunks[1..], chunks[0].requestedRange.end, to)
  }

  lemma {:induction false} LinkedSpan(chunks: seq<FrozenChunk>, from: Mark, to: Instant)
    requires Linked(chunks, from, to)
    ensures to - from.completeThrough >= TotalBars(chunks) * 60_000
  {
    if chunks != [] { LinkedSpan(chunks[1..], chunks[0].after, to); }
  }

  /** Linked chunks that add up to the whole distance leave no gap. */
  lemma {:induction false} LinkedTiles(chunks: seq<FrozenChunk>, from: Mark, to: Instant, at: Instant)
    requires Linked(chunks, from, to) && from.completeThrough <= at && to - at == TotalBars(chunks) * 60_000
    requires chunks != [] ==> at <= chunks[0].requestedRange.start
    ensures Tiles(chunks, at, to)
  {
    if chunks == [] {
    } else {
      LinkedSpan(chunks[1..], chunks[0].after, to);
      LinkedTiles(chunks[1..], chunks[0].after, to, chunks[0].requestedRange.end);
    }
  }

  /** A campaign that freezes at all consists of exactly four chunks which tile the session without gap or
      overlap, 390 minutes in all, each starting from the checkpoint the one before it leaves behind. */
  lemma FrozenTilesSession(campaignId: string, request: Request, calendar: Calendar,
                           session: Session)
    requires Frozen(campaignId, request, calendar, session).Ok?
    ensures var c, before := Frozen(campaignId, request, calendar, session).value, request.checkpointBefore;
            && |c.chunks| == 4 && TotalBars(c.chunks) == 390
            && Tiles(c.chunks, session.opensAt, session.closesAt)
            && Linked(c.chunks, Mark(before.completeThrough.value, before.version), session.closesAt)
  {
    var c := Frozen(campaignId, request, calendar, session).value;
    ChunksLinked(request, calendar, session, 1);
    WholeMinutes(TimeRange(session.opensAt, session.closesAt));
    LinkedTiles(c.chunks, Mark(request.checkpointBefore.completeThrough.value, request.checkpointBefore.version),
                session.closesAt, session.opensAt);
  }

  /** Versions count up by one, so no two chunks share a checkpoint or an identity. */
  lemma {:induction false} LinkedVersions(chunks: seq<FrozenChunk>, from: Mark, to: Instant, i: nat)
    requires Linked(chunks, from, to) && i < |chunks|
    ensures chunks[i].before.version == from.version + i && chunks[i].after.version == from.version + i + 1
    ensures chunks[i].after.completeThrough == chunks[i].requestedRange.end
    ensures chunks[i].after == if i + 1 < |chunks| then chunks[i + 1].before else Mark(to, from.version + |chunks|)
  {
    if i == 0 {
      assert |chunks| > 1 ==> chunks[1..][0] == chunks[1];
      assert |chunks| == 1 ==> chunks[1..] == [];
    } else {
      LinkedVersions(chunks[1..], chunks[0].after, to, i - 1);
    }
  }

  // The prediction is what execution does.

  /** The request chunk `i` is planned from, when every chunk before it committed. */
  function RequestAt(request: Request, chunks: seq<FrozenChunk>, i: nat): Request
    requires i <= |chunks|
    decreases i
  {
    if i == 0 then request else RequestAt(request.CommittedAt(chunks[0].requestedRange.end), chunks[1..], i - 1)
  }

  lemma FrozenTail(planner: Planner, request: Request, session: Session, ordinal: nat)
    requires request.checkpointBefore.completeThrough.Some? && ordinal <= MAX_CAMPAIGN_JOBS
    requires FrozenFrom(planner, request, session, ordinal).Ok?
             && FrozenFrom(planner, request, session, ordinal).value != []
    ensures var chunks := FrozenFrom(planner, request, session, ordinal).value;
            var next := request.CommittedAt(chunks[0].requestedRange.end);
            && NextChunk(planner, request, session, ordinal) == Ok(chunks[0])
            && FrozenFrom(planner, next, session, ordinal + 1) == Ok(chunks[1..])
  {
  }

  /** Chunk `i` records the job planned at its turn. */
  ghost predicate PlannedAs(planner: Planner, request: Request, chunks: seq<FrozenChunk>, ordinal: nat, i: nat,
                            job: Job)
    requires i < |chunks|
  {
    var at := RequestAt(request, chunks, i);
    && planner(at) == Ok(Some(job)) && at.checkpointBefore.completeThrough.Some?
    && BarCount(job.requestedRange).Some?
    && chunks[i] == ChunkFor(at, job, ordinal + i, BarCount(job.requestedRange).value)
  }

  lemma LaterChunk(planner: Planner, request: Request, chunks: seq<FrozenChunk>, ordinal: nat, i: nat, job: Job)
    requires 0 < i < |chunks|
    requires PlannedAs(planner, request.CommittedAt(chunks[0].requestedRange.end), chunks[1..], ordinal + 1, i - 1, job)
    ensures PlannedAs(planner, request, chunks, ordinal, i, job)
  {
  }

  lemma {:induction false} ChunkIsPlanned(planner: Planner, request: Request, session: Session, ordinal: nat, i: nat)
    returns (job: Job)
    requires request.checkpointBefore.completeThrough.Some? && ordinal <= MAX_CAMPAIGN_JOBS
    requires FrozenFrom(planner, request, session, ordinal).Ok?
    requires i < |FrozenFrom(planner, request, session, ordinal).value|
    ensures PlannedAs(planner, request, FrozenFrom(planner, request, session, ordinal).value, ordinal, i, job)
    decreases i
  {
    var chunks := FrozenFrom(planner, request, session, ordinal).value;
    FrozenTail(planner, request, session, ordinal);
    if i == 0 {
      job := FirstChunk(planner, request, session, ordinal);
    } else {
      AtMostFour(planner, request, session, ordinal);
      job := ChunkIsPlanned(planner, request.CommittedAt(chunks[0].requestedRange.end), session, ordinal + 1, i - 1);
      LaterChunk(planner, request, chunks, ordinal, i, job);
    }
  }

  lemma FirstChunk(planner: Planner, request: Request, session: Session, ordinal: nat)
    returns (job: Job)
    requires request.checkpointBefore.completeThrough.Some? && NextChunk(planner, request, session, ordinal).Ok?
    ensures planner(request) == Ok(Some(job)) && BarCount(job.requestedRange).Some?
    ensures NextChunk(planner, request, session, ordinal).value
         == ChunkFor(request, job, ordinal, BarCount(job.requestedRange).value)
  {
    job := planner(request).value.value;
  }

  lemma AtMostFour(planner: Planner, request: Request, session: Session, ordinal: nat)
    requires request.checkpointBefore.completeThrough.Some? && ordinal <= MAX_CAMPAIGN_JOBS
    requires FrozenFrom(planner, request, session, ordinal).Ok?
    requires |FrozenFrom(planner, request, session, ordinal).value| > 1
    ensures ordinal < MAX_CAMPAIGN_JOBS
  {
    FrozenTail(planner, request, session, ordinal);
  }

  predicate SameIdentity(a: StoredCheckpoint, b: StoredCheckpoint) {
    && a.coverageKey == b.coverageKey && a.symbol == b.symbol && a.interval == b.interval
    && a.sessionScope == b.sessionScope && a.logicalDataVariant == b.logicalDataVariant
    && a.universeRevision == b.universeRevision
  }

  /** `exactCheckpoint`: clean, of the frozen identity, and at the expected mark. */
  predicate Exact(actual: StoredCheckpoint, identity: StoredCheckpoint, expected: Mark) {
    && Clean(actual) && SameIdentity(actual, identity)
    && actual.completeThrough == Some(expected.completeThrough) && actual.version == expected.version
  }

  lemma {:induction false} RequestAtKeeps(request: Request, chunks: seq<FrozenChunk>, i: nat)
    requires i <= |chunks|
    ensures var at := RequestAt(request, chunks, i);
            && at.(checkpointBefore := request.checkpointBefore) == request
            && at.checkpointBefore.(completeThrough := request.checkpointBefore.completeThrough,
                                    version := request.checkpointBefore.version) == request.checkpointBefore
    decreases i
  {
    if i > 0 { RequestAtKeeps(request.CommittedAt(chunks[0].requestedRange.end), chunks[1..], i - 1); }
  }

  /** The frozen chunk is the job the planner emits at its turn, and the job ends ahead of its checkpoint. */
  lemma FrozenJob(campaignId: string, request: Request, calendar: Calendar, session: Session, i: nat)
    returns (job: Job)
    requires WellFormedSessions(calendar.sessions) && Frozen(campaignId, request, calendar, session).Ok? && i < 4
    ensures var chunk := Frozen(campaignId, request, calendar, session).value.chunks[i];
            var at := RequestAt(request, Frozen(campaignId, request, calendar, session).value.chunks, i);
            && PlanNext(at, calendar) == Ok(Some(job)) && job == JobFor(at, chunk.requestedRange)
            && job.jobId == chunk.jobId
            && chunk.before == Mark(at.checkpointBefore.completeThrough.value, at.checkpointBefore.version)
            && EndsAhead(job, request.Grid(calendar), at.checkpointBefore)
  {
    var chunks := Frozen(campaignId, request, calendar, session).value.chunks;
    job := ChunkIsPlanned(PlannerFor(calendar), request, session, 1, i);
    RequestAtKeeps(request, chunks, i);
    JobCarriesRequest(RequestAt(request, chunks, i), calendar, job);
    JobEndsAhead(RequestAt(request, chunks, i), calendar, job);
  }

  lemma AcceptedIdentity(request: Request, calendar: Calendar)
    requires PlanNext(request, calendar).Ok?
    ensures IdentityMatches(request) && request.checkpointBefore.coverageKey == request.coverageKey != ""
  {
  }

  /** What the job of a frozen chunk carries. */
  ghost predicate Carries(job: Job, request: Request, chunk: FrozenChunk) {
    && job.jobId == chunk.jobId && job.requestedRange == chunk.requestedRange && job.instrument == request.instrument
    && job.sessionScope == request.sessionScope && job.universeRevision == request.universeRevision
    && job.expectation.coverageKey == request.coverageKey
    && job.expectation.expectedVersion == Some(chunk.before.version)
    && request.coverageKey == request.checkpointBefore.coverageKey != "" && IdentityMatches(request)
    && chunk.after == Mark(chunk.requestedRange.end, chunk.before.version + 1)
  }

  lemma ChunkJob(campaignId: string, request: Request, calendar: Calendar, session: Session, i: nat,
                 row: StoredCheckpoint)
    returns (job: Job)
    requires WellFormedSessions(calendar.sessions) && Frozen(campaignId, request, calendar, session).Ok? && i < 4
    requires row.completeThrough
          == Some(Frozen(campaignId, request, calendar, session).value.chunks[i].before.completeThrough)
    ensures Carries(job, request, Frozen(campaignId, request, calendar, session).value.chunks[i])
    ensures EndsAhead(job, request.Grid(calendar), row)
  {
    var chunks := Frozen(campaignId, request, calendar, session).value.chunks;
    var from := Mark(request.checkpointBefore.completeThrough.value, request.checkpointBefore.version);
    job := FrozenJob(campaignId, request, calendar, session, i);
    RequestAtKeeps(request, chunks, i);
    AcceptedIdentity(RequestAt(request, chunks, i), calendar);
    FrozenTilesSession(campaignId, request, calendar, session);
    LinkedVersions(chunks, from, session.closesAt, i);
  }

  /** What committing a served chunk leaves, field by field. */
  lemma CommittedChunk(job: Job, request: Request, g: Grid, options: Options, row: StoredCheckpoint, have: set<Instant>,
                       chunk: FrozenChunk)
    requires Carries(job, request, chunk) && g.Wf() && EndsAhead(job, g, row) && request.instrument.symbol != ""
    requires Exact(row, request.checkpointBefore, chunk.before)
    requires forall b :: b in Expected(g, chunk.requestedRange) ==> b.start in have
    ensures var proposal := Proposal(job, g, options, Some(row), have);
            var committed := Returned(Some(row), Update(job.expectation.expectedVersion, proposal));
            && ValidProposal(proposal) && committed.Some? && Clean(committed.value)
            && committed.value.completeThrough == Some(chunk.after.completeThrough)
            && committed.value.version == chunk.after.version
            && (Exact(committed.value, request.checkpointBefore, chunk.after)
                <==> PageVariant(request.instrument.route, options.feed) == request.logicalDataVariant
                     && request.checkpointBefore.universeRevision == Some(request.universeRevision))
  {
    ServedToTheEnd(job, g, options, row, have);
    ServedCommits(job, g, options, row, have);
  }

  /** Executing a frozen chunk from any row the runner accepts before it, with every expected bar served,
      commits a row at exactly the frozen mark; the runner accepts that row too if and only if the feed and
      the universe revision of the executor are those of the frozen identity. */
  lemma ServedChunkPasses(campaignId: string, request: Request, calendar: Calendar, session: Session, i: nat,
                          options: Options, row: StoredCheckpoint, have: set<Instant>)
    returns (job: Job)
    requires WellFormedSessions(calendar.sessions) && request.instrument.symbol != ""
    requires Frozen(campaignId, request, calendar, session).Ok? && i < 4
    requires var chunk := Frozen(campaignId, request, calendar, session).value.chunks[i];
             && Exact(row, request.checkpointBefore, chunk.before)
             && forall b :: b in Expected(request.Grid(calendar), chunk.requestedRange) ==> b.start in have
    ensures var chunk := Frozen(campaignId, request, calendar, session).value.chunks[i];
            var proposal := Proposal(job, request.Grid(calendar), options, Some(row), have);
            var committed := Returned(Some(row), Update(job.expectation.expectedVersion, proposal));
            && job.jobId == chunk.jobId && job.requestedRange == chunk.requestedRange
            && ValidProposal(proposal) && committed.Some? && Clean(committed.value)
            && committed.value.completeThrough == Some(chunk.after.completeThrough)
            && committed.value.version == chunk.after.version
            && (Exact(committed.value, request.checkpointBefore, chunk.after)
                <==> PageVariant(request.instrument.route, options.feed) == request.logicalDataVariant
                     && request.checkpointBefore.universeRevision == Some(request.universeRevision))
  {
    var chunk := Frozen(campaignId, request, calendar, session).value.chunks[i];
    job := ChunkJob(campaignId, request, calendar, session, i, row);
    CommittedChunk(job, request, request.Grid(calendar), options, row, have, chunk);
  }

  // A full session in the calendar does freeze.

  function Minute(open: Instant, m: int): Bar { Bar(open + m * 60_000, open + m * 60_000 + 60_000) }

  /** The session's 390 bars stand together at `j`, and no other bar carries its key. */
  ghost predicate Block(bars: seq<EligibleBar>, j: nat, open: Instant) {
    && j + 390 <= |bars|
    && (forall i :: j <= i < j + 390 ==> bars[i] == EligibleBar(Minute(open, i - j), Some(open)))
    && (forall i :: 0 <= i < |bars| && bars[i].sessionKey == Some(open) ==> j <= i < j + 390)
  }

  /** The range of chunk `i`: a hundred minutes, the last one ninety. */
  function Span(open: Instant, i: nat): TimeRange {
    TimeRange(open + 100 * i * 60_000, open + Min(100 * i + 100, 390) * 60_000)
  }

  lemma BlockCount(pending: seq<EligibleBar>, key: Option<Instant>, n: nat)
    requires Grouped(pending) && 1 <= n <= |pending| && pending[0].sessionKey == key
    requires forall i :: 0 <= i < |pending| ==> (pending[i].sessionKey == key <==> i < n)
    ensures |OfKey(pending, key)| == n
  {
    FirstSessionLeads(pending);
    var c := |OfKey(pending, key)|;
    assert pending[n - 1].sessionKey == key && pending[c - 1].sessionKey == key;
  }

  lemma BlockRest(bars: seq<EligibleBar>, j: nat, open: Instant, n: nat)
    requires Grouped(bars) && Block(bars, j, open) && j <= n < j + 390
    ensures |OfKey(bars[n..], bars[n].sessionKey)| == j + 390 - n
  {
    var pending := bars[n..];
    assert forall m :: 0 <= m < |pending| ==> pending[m] == bars[n + m];
    GroupedSuffix(bars, n);
    BlockCount(pending, Some(open), j + 390 - n);
  }

  /** With `c` bars of one session next, the planner takes `max` of them or what there is. */
  lemma SliceStep(bars: seq<EligibleBar>, through: Instant, max: nat, n: nat, c: nat)
    requires InOrder(bars) && Grouped(bars) && max >= 1 && n < |bars|
    requires Pending(bars, through) == bars[n..] && |OfKey(bars[n..], bars[n].sessionKey)| == c
    ensures var k := Min(max, c);
            && 1 <= k <= |bars| - n
            && NextRange(bars, through, max) == Some(SliceRange(bars, n, k))
  {
    var a, k := NextIsSlice(bars, through, max);
    assert |bars[a..]| == |bars| - a;
  }

  lemma BlockSpan(bars: seq<EligibleBar>, j: nat, open: Instant, i: nat)
    requires Block(bars, j, open) && i < 4
    ensures SliceRange(bars, j + 100 * i, Min(100, 390 - 100 * i)) == Span(open, i)
  {
    var n, k := j + 100 * i, Min(100, 390 - 100 * i);
    assert bars[n].bar == Minute(open, 100 * i) && bars[n + k - 1].bar == Minute(open, 100 * i + k - 1);
  }

  /** One turn of the freezing loop, for any planner. */
  lemma FrozenStep(planner: Planner, request: Request, session: Session, ordinal: nat,
                   range: TimeRange, n: int)
    requires request.checkpointBefore.completeThrough.Some? && 1 <= ordinal <= 4
    requires request.checkpointBefore.completeThrough.value != session.closesAt
    requires planner(request) == Ok(Some(JobFor(request, range))) && BarCount(range) == Some(n)
    requires session.opensAt <= range.start && range.end <= session.closesAt
    requires FrozenFrom(planner, request.CommittedAt(range.end), session, ordinal + 1).Ok?
    ensures FrozenFrom(planner, request, session, ordinal)
         == Ok([ChunkFor(request, JobFor(request, range), ordinal, n)]
               + FrozenFrom(planner, request.CommittedAt(range.end), session, ordinal + 1).value)
  {
  }

  /** Chunks `i` to 3 of a session: a hundred minutes each, the last one ninety. */
  ghost predicate Sized(chunks: seq<FrozenChunk>, open: Instant, i: nat) {
    if i >= 4 then chunks == []
    else chunks != [] && chunks[0].requestedRange == Span(open, i)
         && chunks[0].expectedBarCount == Min(100, 390 - 100 * i)
         && Sized(chunks[1..], open, i + 1)
  }

  /** The next range inside the block. */
  lemma BlockTurn(bars: seq<EligibleBar>, through: Instant, open: Instant, j: nat, i: nat)
    requires InOrder(bars) && Grouped(bars) && Block(bars, j, open) && i < 4
             && Pending(bars, through) == bars[j + 100 * i..]
    ensures NextRange(bars, through, 100) == Some(Span(open, i))
  {
    BlockRest(bars, j, open, j + 100 * i);
    SliceStep(bars, through, 100, j + 100 * i, 390 - 100 * i);
    BlockSpan(bars, j, open, i);
  }

  lemma SpanFits(open: Instant, i: nat)
    requires i < 4
    ensures BarCount(Span(open, i)) == Some(Min(100, 390 - 100 * i))
    ensures open <= Span(open, i).start < Span(open, i).end <= open + 390 * 60_000
    ensures Span(open, i).end < open + 390 * 60_000 <==> i < 3
  {
    var n := Min(100, 390 - 100 * i);
    assert Span(open, i).end - Span(open, i).start == n * 60_000;
    assert (n * 60_000) % 60_000 == 0;
  }

  function Spans(open: Instant, i: nat): seq<TimeRange>
    decreases 4 - i
  {
    if i >= 4 then [] else [Span(open, i)] + Spans(open, i + 1)
  }

  /** Asked again after every commit, the planner emits these ranges first. */
  ghost predicate Emits(planner: Planner, request: Request, ranges: seq<TimeRange>)
    decreases ranges
  {
    ranges != [] ==>
      && planner(request) == Ok(Some(JobFor(request, ranges[0])))
      && Emits(planner, request.CommittedAt(ranges[0].end), ranges[1..])
  }

  /** Committed one after the other, these ranges come next. */
  ghost predicate ComeNext(next: Instant -> Option<TimeRange>, through: Instant, ranges: seq<TimeRange>)
    decreases ranges
  {
    ranges != [] ==> next(through) == Some(ranges[0]) && ComeNext(next, ranges[0].end, ranges[1..])
  }

  function NextOf(bars: seq<EligibleBar>): Instant -> Option<TimeRange> {
    (through: Instant) => NextRange(bars, through, 100)
  }

  lemma {:induction false} PlannerEmits(request: Request, calendar: Calendar, ranges: seq<TimeRange>)
    requires Accepted(request, calendar) && EligibleBars(request, calendar).Ok? && request.maxBarsPerJob == 100
    requires request.checkpointBefore.completeThrough.Some?
    requires ComeNext(NextOf(BarsFor(request, calendar)), request.checkpointBefore.completeThrough.value, ranges)
    ensures Emits(PlannerFor(calendar), request, ranges)
    decreases ranges
  {
    if ranges != [] {
      AcceptedPlans(request, calendar);
      CommitStep(request, calendar);
      PlannerEmits(request.CommittedAt(ranges[0].end), calendar, ranges[1..]);
    }
  }

  lemma {:induction false} SpansComeNext(next: Instant -> Option<TimeRange>, through: Instant, open: Instant, i: nat)
    requires i < 4 && next(through) == Some(Span(open, i))
    requires forall k: nat :: i < k < 4 ==> next(Span(open, k - 1).end) == Some(Span(open, k))
    ensures ComeNext(next, through, Spans(open, i))
    decreases 4 - i
  {
    assert Spans(open, i)[1..] == Spans(open, i + 1);
    if i < 3 {
      assert next(Span(open, (i + 1) - 1).end) == Some(Span(open, i + 1));
      SpansComeNext(next, Span(open, i).end, open, i + 1);
    }
  }

  lemma BlockPending(bars: seq<EligibleBar>, open: Instant, j: nat, k: nat)
    requires InOrder(bars) && Block(bars, j, open) && k < 3
    ensures Pending(bars, Span(open, k).end) == bars[j + 100 * (k + 1)..]
  {
    var n := j + 100 * k + 99;
    assert bars[n].bar == Minute(open, 100 * k + 99);
    PendingAfter(bars, n);
  }

  lemma BlockNext(bars: seq<EligibleBar>, open: Instant, j: nat, k: nat)
    requires InOrder(bars) && Grouped(bars) && Block(bars, j, open) && k < 3
    ensures NextOf(bars)(Span(open, k).end) == Some(Span(open, k + 1))
  {
    BlockPending(bars, open, j, k);
    BlockTurn(bars, Span(open, k).end, open, j, k + 1);
  }

  /** With the whole block pending, its four ranges come next. */
  lemma BlockRanges(bars: seq<EligibleBar>, through: Instant, open: Instant, j: nat)
    requires InOrder(bars) && Grouped(bars) && Block(bars, j, open) && Pending(bars, through) == bars[j..]
    ensures ComeNext(NextOf(bars), through, Spans(open, 0))
  {
    BlockTurn(bars, through, open, j, 0);
    forall k: nat | 0 < k < 4 ensures NextOf(bars)(Span(open, k - 1).end) == Some(Span(open, k)) {
      BlockNext(bars, open, j, k - 1);
    }
    SpansComeNext(NextOf(bars), through, open, 0);
  }

  lemma {:induction false} FreezesFrom(planner: Planner, request: Request, session: Session, i: nat, ordinal: nat)
    requires session.closesAt == session.opensAt + 390 * 60_000 && request.checkpointBefore.completeThrough.Some?
             && i <= 4 && ordinal == i + 1
    requires Emits(planner, request, Spans(session.opensAt, i))
    requires if i == 4 then request.checkpointBefore.completeThrough.value == session.closesAt
             else request.checkpointBefore.completeThrough.value < session.closesAt
    ensures FrozenFrom(planner, request, session, ordinal).Ok?
    ensures Sized(FrozenFrom(planner, request, session, ordinal).value, session.opensAt, i)
    decreases 4 - i
  {
    if i < 4 {
      var range := Span(session.opensAt, i);
      SpanFits(session.opensAt, i);
      assert Spans(session.opensAt, i)[1..] == Spans(session.opensAt, i + 1);
      FreezesFrom(planner, request.CommittedAt(range.end), session, i + 1, ordinal + 1);
      FrozenStep(planner, request, session, ordinal, range, Min(100, 390 - 100 * i));
    }
  }

  lemma SizedTotal(chunks: seq<FrozenChunk>, open: Instant)
    requires Sized(chunks, open, 0)
    ensures |chunks| == 4 && TotalBars(chunks) == 390
  {
    var a := chunks[1..];
    assert Sized(a, open, 1);
    var b := a[1..];
    assert Sized(b, open, 2);
    var c := b[1..];
    assert Sized(c, open, 3) && Sized(c[1..], open, 4);
    assert TotalBars(c) == 90 && TotalBars(b) == 190 && TotalBars(a) == 290;
  }

  // The session's bars do stand together in the enumeration.

  /** A listed full session inside the recovery range. */
  ghost predicate Listed(request: Request, calendar: Calendar, session: Session) {
    && EligibleBars(request, calendar).Ok? && request.instrument.route == StockBars
    && request.instrument.cadence == OneMin
    && session in calendar.sessions && InScope(session.kind, request.sessionScope)
    && session.closesAt == session.opensAt + 390 * 60_000
    && request.recoveryRange.start <= session.opensAt && session.closesAt <= request.recoveryRange.end
  }

  lemma MinuteEligible(request: Request, calendar: Calendar, session: Session, m: int)
    requires Listed(request, calendar, session) && 0 <= m < 390
    ensures EligibleBar(Minute(session.opensAt, m), Some(session.opensAt)) in BarsFor(request, calendar)
  {
    var sessions := SelectedSessions(request, calendar);
    SelectedInScope(request, calendar);
    SessionsEligibleSpec(request.Grid(calendar), sessions, request.calendarRevision, request.recoveryRange);
    assert (m * 60_000) % 60_000 == 0;
    assert request.Grid(calendar).InSession(session, Minute(session.opensAt, m));
  }

  lemma MinuteOf(grid: Grid, session: Session, b: Bar) returns (m: int)
    requires grid.InSession(session, b) && grid.route == StockBars && grid.cadence == OneMin
    requires session.closesAt == session.opensAt + 390 * 60_000
    ensures 0 <= m < 390 && b == Minute(session.opensAt, m)
  {
    m := (b.start - session.opensAt) / 60_000;
  }

  lemma KeyIsMinute(request: Request, calendar: Calendar, session: Session, e: EligibleBar)
    returns (m: int)
    requires Listed(request, calendar, session) && e in BarsFor(request, calendar)
             && e.sessionKey == Some(session.opensAt)
    ensures 0 <= m < 390 && e.bar == Minute(session.opensAt, m)
  {
    var sessions := SelectedSessions(request, calendar);
    SelectedInScope(request, calendar);
    SessionsEligibleSpec(request.Grid(calendar), sessions, request.calendarRevision, request.recoveryRange);
    var o :| o in sessions && request.Grid(calendar).InSession(o, e.bar) && e.sessionKey == Some(o.opensAt);
    OneSessionPerOpening(sessions, request.calendarRevision, o, session);
    m := MinuteOf(request.Grid(calendar), session, e.bar);
  }

  lemma {:induction false} OneSessionPerOpening(sessions: seq<Session>, revision: string, a: Session, b: Session)
    requires SessionsFit(sessions, revision) && a in sessions && b in sessions && a.opensAt == b.opensAt
    ensures a == b
  {
    if a != sessions[0] && b != sessions[0] {
      var rest := sessions[1..];
      forall i | 0 <= i < |rest|
        ensures SessionFits(rest, revision, i) { assert SessionFits(sessions, revision, i + 1); }
      OneSessionPerOpening(rest, revision, a, b);
    } else {
      assert SessionFits(sessions, revision, 0);
      if a != sessions[0] { LaterSession(sessions, revision, a); }
      if b != sessions[0] { LaterSession(sessions, revision, b); }
    }
  }

  /** Minute `m + 1` is the bar right after minute `m`. */
  lemma NextMinute(bars: seq<EligibleBar>, open: Instant, i: nat, k: nat, m: int)
    requires InOrder(bars) && i < |bars| && k < |bars|
    requires bars[i].bar == Minute(open, m) && bars[k].bar == Minute(open, m + 1)
    ensures k == i + 1
  {
    assert i + 1 < |bars| ==> bars[i].bar.completes <= bars[i + 1].bar.start < bars[i + 1].bar.completes;
  }

  lemma {:induction false} MinutesInARow(bars: seq<EligibleBar>, open: Instant, j: nat, n: nat)
    requires InOrder(bars) && j < |bars| && 1 <= n <= 390 && bars[j].bar == Minute(open, 0)
    requires forall m :: 0 <= m < 390 ==> EligibleBar(Minute(open, m), Some(open)) in bars
    ensures j + n <= |bars| && forall i :: j <= i < j + n ==> bars[i] == EligibleBar(Minute(open, i - j), Some(open))
    decreases n
  {
    assert EligibleBar(Minute(open, n - 1), Some(open)) in bars;
    var k :| 0 <= k < |bars| && bars[k] == EligibleBar(Minute(open, n - 1), Some(open));
    if n > 1 {
      MinutesInARow(bars, open, j, n - 1);
      NextMinute(bars, open, j + n - 2, k, n - 2);
    } else {
      SameBarSameIndex(bars, j, k);
    }
  }

  lemma AllMinutesEligible(request: Request, calendar: Calendar, session: Session)
    requires Listed(request, calendar, session)
    ensures forall m :: 0 <= m < 390 ==>
              EligibleBar(Minute(session.opensAt, m), Some(session.opensAt)) in BarsFor(request, calendar)
  {
    forall m | 0 <= m < 390
      ensures EligibleBar(Minute(session.opensAt, m), Some(session.opensAt)) in BarsFor(request, calendar)
    {
      MinuteEligible(request, calendar, session, m);
    }
  }

  lemma SessionMinutes(request: Request, calendar: Calendar, session: Session) returns (j: nat)
    requires Listed(request, calendar, session)
    ensures var bars := BarsFor(request, calendar);
            && InOrder(bars) && j + 390 <= |bars|
            && forall i :: j <= i < j + 390
                 ==> bars[i] == EligibleBar(Minute(session.opensAt, i - j), Some(session.opensAt))
  {
    var bars, open := BarsFor(request, calendar), session.opensAt;
    EligibleBarsSpec(request, calendar);
    AllMinutesEligible(request, calendar, session);
    assert EligibleBar(Minute(open, 0), Some(open)) in bars;
    j :| 0 <= j < |bars| && bars[j] == EligibleBar(Minute(open, 0), Some(open));
    MinutesInARow(bars, open, j, 390);
  }

  lemma SessionBlock(request: Request, calendar: Calendar, session: Session) returns (j: nat)
    requires Listed(request, calendar, session)
    ensures Block(BarsFor(request, calendar), j, session.opensAt)
  {
    var bars, open := BarsFor(request, calendar), session.opensAt;
    j := SessionMinutes(request, calendar, session);
    forall i | 0 <= i < |bars| && bars[i].sessionKey == Some(open) ensures j <= i < j + 390 {
      var m := KeyIsMinute(request, calendar, session, bars[i]);
      SameBarSameIndex(bars, j + m, i);
    }
  }

  lemma SameBarSameIndex(bars: seq<EligibleBar>, a: nat, b: nat)
    requires InOrder(bars) && a < |bars| && b < |bars|
    ensures bars[a].bar == bars[b].bar ==> a == b
  {
    if a < b {
      assert bars[a].bar.start < bars[a].bar.completes <= bars[b].bar.start;
    } else if b < a {
      assert bars[b].bar.start < bars[b].bar.completes <= bars[a].bar.start;
    }
  }

  lemma PendingFromBlock(bars: seq<EligibleBar>, through: Instant, j: nat, open: Instant)
    requires InOrder(bars) && Block(bars, j, open) && through <= open
    requires forall e :: e in Pending(bars, through) ==> e.bar.start >= open
    ensures Pending(bars, through) == bars[j..]
  {
    var k := PendingIsSuffix(bars, through);
    assert bars[j].bar == Minute(open, 0);
    assert k < |bars| ==> bars[k..][0] == bars[k];
    assert k < |bars| ==> bars[k] in bars[k..];
    assert forall i :: 0 <= i < j ==> bars[i].bar.start < bars[j].bar.start;
  }

  /** Any acceptable request for an equity whose next pending bar opens a listed 390-minute session freezes,
      into ranges of 100, 100, 100 and 90 minutes. */
  lemma FullSessionFreezes(campaignId: string, request: Request, calendar: Calendar,
                           session: Session)
    requires Refused(campaignId, request, calendar, session).None? && PlanNext(request, calendar).Ok?
    requires request.instrument.route == StockBars && session in calendar.sessions
    requires forall e :: e in PendingOf(request, calendar) ==> e.bar.start >= session.opensAt
    ensures Frozen(campaignId, request, calendar, session).Ok?
    ensures Sized(Frozen(campaignId, request, calendar, session).value.chunks, session.opensAt, 0)
  {
    NotRefused(campaignId, request, calendar, session);
    SessionFreezes(request, calendar, session, 1);
    SizedCampaign(campaignId, request, calendar, session, 1);
  }

  lemma NotRefused(campaignId: string, request: Request, calendar: Calendar, session: Session)
    requires Refused(campaignId, request, calendar, session).None? && PlanNext(request, calendar).Ok?
    requires request.instrument.route == StockBars && session in calendar.sessions
    ensures Listed(request, calendar, session) && request.maxBarsPerJob == 100
    ensures request.checkpointBefore.completeThrough.Some?
            && request.checkpointBefore.completeThrough.value <= session.opensAt
  {
    WholeMinutes(TimeRange(session.opensAt, session.closesAt));
    AcceptedPlans(request, calendar);
  }

  lemma SizedCampaign(campaignId: string, request: Request, calendar: Calendar, session: Session,
                      first: nat)
    requires Refused(campaignId, request, calendar, session).None? && first == 1
    requires FrozenFrom(PlannerFor(calendar), request, session, first).Ok?
    requires Sized(FrozenFrom(PlannerFor(calendar), request, session, first).value, session.opensAt, 0)
    ensures Frozen(campaignId, request, calendar, session)
         == Ok(FrozenCampaign(campaignId, request, calendar, session,
                              FrozenFrom(PlannerFor(calendar), request, session, first).value))
  {
    SizedTotal(FrozenFrom(PlannerFor(calendar), request, session, first).value, session.opensAt);
  }

  lemma SessionFreezes(request: Request, calendar: Calendar, session: Session, first: nat)
    requires first == 1
    requires Accepted(request, calendar) && Listed(request, calendar, session) && request.maxBarsPerJob == 100
    requires request.checkpointBefore.completeThrough.Some?
             && request.checkpointBefore.completeThrough.value <= session.opensAt
    requires forall e :: e in PendingOf(request, calendar) ==> e.bar.start >= session.opensAt
    ensures FrozenFrom(PlannerFor(calendar), request, session, first).Ok?
    ensures Sized(FrozenFrom(PlannerFor(calendar), request, session, first).value, session.opensAt, 0)
  {
    SessionEmits(request, calendar, session);
    FreezesFrom(PlannerFor(calendar), request, session, 0, first);
  }

  lemma SessionEmits(request: Request, calendar: Calendar, session: Session)
    requires Accepted(request, calendar) && Listed(request, calendar, session) && request.maxBarsPerJob == 100
    requires request.checkpointBefore.completeThrough.Some?
             && request.checkpointBefore.completeThrough.value <= session.opensAt
    requires forall e :: e in PendingOf(request, calendar) ==> e.bar.start >= session.opensAt
    ensures Emits(PlannerFor(calendar), request, Spans(session.opensAt, 0))
  {
    AcceptedPlans(request, calendar);
    var bars, through := BarsFor(request, calendar), request.checkpointBefore.completeThrough.value;
    var j := SessionBlock(request, calendar, session);
    PendingFromBlock(bars, through, j, session.opensAt);
    BlockRanges(bars, through, session.opensAt, j);
    PlannerEmits(request, calendar, Spans(session.opensAt, 0));
  }

  // A campaign that freezes although its chunks cannot pass.

  function OneDayCalendar(): Calendar {
    Calendar("c", [Session("2026-01-02", Regular, 0, 390 * 60_000, false, "c")])
  }

  /** One frozen session of one stream, standing at the opening. */
  function OneDayRequest(variant: string, universe: string): Request {
    var stream := Instrument("A", OneMin, StockBars);
    var key := CoverageKeyFor(stream, RegularScope, variant);
    Request("r", "p", "u", "c", stream, key, RegularScope, variant, CatchUp, TimeRange(0, 390 * 60_000),
            StoredCheckpoint(key, "A", OneMin, RegularScope, variant, Some(0), Complete, [], None, None, None, None,
                             Some(universe), 0, None),
            100, 0)
  }

  lemma OneDaySessions(variant: string, universe: string)
    ensures SessionsFor(OneDayRequest(variant, universe), OneDayCalendar()) == Ok(OneDayCalendar().sessions)
  {
    var sessions := OneDayCalendar().sessions;
    assert sessions[1..] == [] && OfScope(sessions, RegularScope) == sessions;
    SortOne(OpensNoLater, sessions[0]);
  }

  lemma OneDayPlans(variant: string, universe: string)
    requires variant != ""
    ensures PlanNext(OneDayRequest(variant, universe), OneDayCalendar()).Ok?
    ensures forall e :: e in PendingOf(OneDayRequest(variant, universe), OneDayCalendar()) ==> e.bar.start >= 0
  {
    var request, calendar := OneDayRequest(variant, universe), OneDayCalendar();
    OneDaySessions(variant, universe);
    assert Refusal(request).None?;
    AcceptedPlans(request, calendar);
    var j := PendingIsSuffix(BarsFor(request, calendar), 0);
  }

  /** `day` is that session of that calendar, and `request` that request. */
  ghost predicate OneDay(request: Request, calendar: Calendar, day: Session, variant: string, universe: string) {
    && request == OneDayRequest(variant, universe) && calendar == OneDayCalendar() && calendar.sessions == [day]
    && variant != ""
  }

  lemma OneDayNotRefused(request: Request, calendar: Calendar, day: Session, variant: string, universe: string)
    requires OneDay(request, calendar, day, variant, universe)
    ensures Refused("r", request, calendar, day).None?
  {
    assert day == calendar.sessions[0];
  }

  lemma OneDayInOrder(request: Request, calendar: Calendar, day: Session, variant: string, universe: string)
    requires OneDay(request, calendar, day, variant, universe)
    ensures request.instrument.route == StockBars && day in calendar.sessions && WellFormedSessions(calendar.sessions)
    ensures day.opensAt == 0
  {
    assert day == calendar.sessions[0];
  }

  lemma OneDayAccepted(request: Request, calendar: Calendar, day: Session, variant: string, universe: string)
    requires OneDay(request, calendar, day, variant, universe)
    ensures Refused("r", request, calendar, day).None? && PlanNext(request, calendar).Ok?
    ensures request.instrument.route == StockBars && day in calendar.sessions && WellFormedSessions(calendar.sessions)
    ensures forall e :: e in PendingOf(request, calendar) ==> e.bar.start >= day.opensAt
  {
    OneDayPlans(variant, universe);
    OneDayNotRefused(request, calendar, day, variant, universe);
    OneDayInOrder(request, calendar, day, variant, universe);
  }

  /** Everything about the campaign is in order and the chunk is fully served; still the runner accepts the committed
      row exactly when feed and universe revision happen to be the frozen ones. */
  lemma IdentityDecides(request: Request, calendar: Calendar, day: Session, variant: string, universe: string,
                        options: Options, have: set<Instant>)
    returns (job: Job, chunk: FrozenChunk)
    requires OneDay(request, calendar, day, variant, universe)
    requires forall b :: b in Expected(request.Grid(calendar), TimeRange(0, 100 * 60_000)) ==> b.start in have
    ensures Frozen("r", request, calendar, day).Ok? && |Frozen("r", request, calendar, day).value.chunks| == 4
    ensures chunk == Frozen("r", request, calendar, day).value.chunks[0]
    ensures var before := request.checkpointBefore;
            var proposal := Proposal(job, request.Grid(calendar), options, Some(before), have);
            var committed := Returned(Some(before), Update(job.expectation.expectedVersion, proposal));
            && Exact(before, before, chunk.before) && ValidProposal(proposal) && committed.Some?
            && (Exact(committed.value, before, chunk.after)
                <==> PageVariant(StockBars, options.feed) == variant && universe == "u")
  {
    OneDayAccepted(request, calendar, day, variant, universe);
    FullSessionFreezes("r", request, calendar, day);
    FrozenTilesSession("r", request, calendar, day);
    chunk := Frozen("r", request, calendar, day).value.chunks[0];
    job := ServedChunkPasses("r", request, calendar, day, 0, options, request.checkpointBefore, have);
  }
}
