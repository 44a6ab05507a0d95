/** Running a frozen campaign over ports that may answer anything. */
module CampaignRun {
  import opened Market
  import opened Checkpoint
  import opened Schedule
  import opened Recovery
  import opened Campaign

  datatype Invocation = Invocation(recoveryId: string, jobId: JobId, checkpointVersion: int, completeThrough: Instant)

  datatype ResponseSummary = ResponseSummary(jobId: JobId, succeeded: bool, pages: int, inserted: int, matched: int,
                                             conflicts: int, rejected: int, missing: int)

  datatype ReportedCheckpoint = ReportedCheckpoint(completeThrough: Option<Instant>, state: CheckpointState,
                                                   missingRanges: seq<TimeRange>, version: int)

  datatype Budget = Budget(externalSubrequests: int, d1Queries: int)

  datatype Response = Response(accepted: bool, recoveryId: string, expectedJobId: JobId, before: Mark,
                               requestedRange: TimeRange,
                               expectedBarCount: int, succeeded: bool, summary: ResponseSummary,
                               after: Option<ReportedCheckpoint>, budget: Budget, stoppedAfterOneChunk: bool)

  datatype Inspection = Inspection(jobId: JobId, successfulAttempts: int, receiptCount: int, canonicalBarCount: int,
                                   conflicts: int, rejected: int, missing: int)

  datatype Record = Record(campaignId: string, recoveryId: string, calendarRevision: string, opensAt: Instant,
                           closesAt: Instant,
                           ordinal: nat, jobId: JobId, requestedRange: TimeRange, expectedBarCount: int, before: Mark,
                           after: Mark,
                           pages: int, inserted: int, matched: int, receiptCount: int, canonicalBarCount: int,
                           budget: Budget)

  /** The outside world: any answer, or a failure, to the n-th call of each port. */
  datatype Ports = Ports(readCheckpoint: nat -> Result<Option<StoredCheckpoint>>,
                         invokeNextChunk: (nat, Invocation) -> Result<Response>,
                         inspectChunk: (nat, JobId, TimeRange) -> Result<Inspection>,
                         persistEvidence: (nat, Record) -> Result<()>)

  /** What `verifyResponse` lets through. */
  predicate ResponseFits(r: Response, c: FrozenCampaign, chunk: FrozenChunk) {
    var s := r.summary;
    && r.accepted && r.recoveryId == c.request.recoveryId && r.expectedJobId == chunk.jobId && r.succeeded
    && s.succeeded && s.jobId == chunk.jobId && r.before == chunk.before && r.requestedRange == chunk.requestedRange
    && r.expectedBarCount == chunk.expectedBarCount && s.inserted + s.matched == chunk.expectedBarCount
    && s.conflicts == 0 && s.rejected == 0 && s.missing == 0 && 1 <= s.pages <= 10
    && r.after.Some? && r.after.value.completeThrough == Some(chunk.after.completeThrough)
    && r.after.value.version == chunk.after.version && r.after.value.state == Complete
    && r.after.value.missingRanges == []
    && r.budget.externalSubrequests <= 40 && r.budget.d1Queries <= 40 && r.stoppedAfterOneChunk
  }

  predicate InspectionFits(p: Inspection, chunk: FrozenChunk) {
    && p.jobId == chunk.jobId && p.successfulAttempts == 1
    && p.receiptCount == chunk.expectedBarCount && p.canonicalBarCount == chunk.expectedBarCount
    && p.conflicts == 0 && p.rejected == 0 && p.missing == 0
  }

  /** The answer that reports exactly this chunk: accepted, of this recovery and job, from the mark before to the mark
      after, every bar inserted or matched and nothing else, and stopped. */
  function ExactResponse(c: FrozenCampaign, chunk: FrozenChunk, pages: int, inserted: int, budget: Budget): Response {
    Response(true, c.request.recoveryId, chunk.jobId, chunk.before, chunk.requestedRange, chunk.expectedBarCount, true,
             ResponseSummary(chunk.jobId, true, pages, inserted, chunk.expectedBarCount - inserted, 0, 0, 0),
             Some(ReportedCheckpoint(Some(chunk.after.completeThrough), Complete, [], chunk.after.version)), budget,
             true)
  }

  predicate InBudget(budget: Budget) { budget.externalSubrequests <= 40 && budget.d1Queries <= 40 }

  /** Only that answer passes, whatever its page count within the limit, its split, and its spending in the budget. */
  lemma ResponseFitsExactly(r: Response, c: FrozenCampaign, chunk: FrozenChunk)
    ensures ResponseFits(r, c, chunk)
       <==> r == ExactResponse(c, chunk, r.summary.pages, r.summary.inserted, r.budget)
            && 1 <= r.summary.pages <= 10 && InBudget(r.budget)
  {
  }

  /** One successful attempt, a receipt and a canonical bar for each bar of the chunk, and nothing else. */
  lemma InspectionFitsExactly(p: Inspection, chunk: FrozenChunk)
    ensures InspectionFits(p, chunk)
       <==> p == Inspection(chunk.jobId, 1, chunk.expectedBarCount, chunk.expectedBarCount, 0, 0, 0)
  {
  }

  function InvocationFor(c: FrozenCampaign, chunk: FrozenChunk): Invocation {
    Invocation(c.request.recoveryId, chunk.jobId, chunk.before.version, chunk.before.completeThrough)
  }

  function RecordFor(c: FrozenCampaign, chunk: FrozenChunk, r: Response, p: Inspection): Record {
    Record(c.campaignId, c.request.recoveryId, c.calendar.revision, c.session.opensAt, c.session.closesAt,
           chunk.ordinal,
           chunk.jobId, chunk.requestedRange, chunk.expectedBarCount, chunk.before, chunk.after,
           r.summary.pages, r.summary.inserted, r.summary.matched, p.receiptCount, p.canonicalBarCount, r.budget)
  }

  /** The record tells of exactly this frozen chunk, with every bar accounted for. */
  predicate RecordFits(record: Record, c: FrozenCampaign, chunk: FrozenChunk) {
    && record.campaignId == c.campaignId && record.recoveryId == c.request.recoveryId && record.ordinal == chunk.ordinal
    && record.jobId == chunk.jobId && record.requestedRange == chunk.requestedRange
    && record.expectedBarCount == chunk.expectedBarCount && record.before == chunk.before && record.after == chunk.after
    && record.inserted + record.matched == chunk.expectedBarCount && 1 <= record.pages <= 10
    && record.receiptCount == record.canonicalBarCount == chunk.expectedBarCount
    && record.budget.externalSubrequests <= 40 && record.budget.d1Queries <= 40
  }

  /** The record tells of the frozen chunk what was frozen, and of the run what the answer and the inspection said. */
  predicate RecordTells(record: Record, c: FrozenCampaign, chunk: FrozenChunk, r: Response, p: Inspection) {
    && record.campaignId == c.campaignId && record.recoveryId == c.request.recoveryId
    && record.calendarRevision == c.calendar.revision
    && record.opensAt == c.session.opensAt && record.closesAt == c.session.closesAt
    && record.ordinal == chunk.ordinal && record.jobId == chunk.jobId
    && record.requestedRange == chunk.requestedRange && record.expectedBarCount == chunk.expectedBarCount
    && record.before == chunk.before && record.after == chunk.after
    && record.pages == r.summary.pages && record.inserted == r.summary.inserted
    && record.matched == r.summary.matched && record.budget == r.budget
    && record.receiptCount == p.receiptCount && record.canonicalBarCount == p.canonicalBarCount
  }

  function AtMark(c: StoredCheckpoint, m: Mark): bool {
    c.completeThrough == Some(m.completeThrough) && c.version == m.version
  }

  /** `findIndex`: the first chunk that starts from the checkpoint. */
  function Resume(chunks: seq<FrozenChunk>, current: StoredCheckpoint): Option<nat> {
    if chunks == [] then None
    else if AtMark(current, chunks[0].before) then Some(0)
    else
      var rest := Resume(chunks[1..], current);
      if rest.Some? then Some(rest.value + 1) else None
  }

  lemma {:induction false} ResumeSpec(chunks: seq<FrozenChunk>, current: StoredCheckpoint)
    ensures var r := Resume(chunks, current);
            && (r.Some? ==> r.value < |chunks| && AtMark(current, chunks[r.value].before)
                            && forall i :: 0 <= i < r.value ==> !AtMark(current, chunks[i].before))
            && (r.None? ==> forall i :: 0 <= i < |chunks| ==> !AtMark(current, chunks[i].before))
  {
    if chunks != [] { ResumeSpec(chunks[1..], current); }
  }

  /** Where a run starts: behind the last chunk when the campaign is already complete. */
  function StartOf(c: FrozenCampaign, current: StoredCheckpoint): Option<nat>
    requires c.chunks != []
  {
    var last := c.chunks[|c.chunks| - 1];
    if current.completeThrough == Some(c.session.closesAt) && current.version == last.after.version
    then Some(|c.chunks|)
    else Resume(c.chunks, current)
  }

  function Invocations(c: FrozenCampaign, chunks: seq<FrozenChunk>): (r: seq<Invocation>)
    ensures |r| == |chunks|
  {
    seq(|chunks|, i requires 0 <= i < |chunks| => InvocationFor(c, chunks[i]))
  }

  ghost predicate RecordsFit(records: seq<Record>, c: FrozenCampaign, start: nat) {
    start + |records| <= |c.chunks|
    && forall i :: 0 <= i < |records| ==> RecordFits(records[i], c, c.chunks[start + i])
  }

  /** What the n-th read returned. */
  predicate ReadExact(ports: Ports, n: nat, identity: StoredCheckpoint, mark: Mark) {
    var r := ports.readCheckpoint(n);
    r.Ok? && r.value.Some? && Exact(r.value.value, identity, mark)
  }

  datatype Completed = Completed(resumedAtOrdinal: nat, records: seq<Record>)

  /** The answer to the one invocation of a chunk. */
  function Answer(c: FrozenCampaign, chunk: FrozenChunk, ports: Ports, n: nat): Result<Response> {
    ports.invokeNextChunk(n, Invocation(c.request.recoveryId, chunk.jobId, chunk.before.version,
                                        chunk.before.completeThrough))
  }

  /** Everything a chunk needs: exact readings before and after, an answer and an inspection of exactly this chunk, and
      the record of both persisted. */
  predicate Performed(c: FrozenCampaign, chunk: FrozenChunk, ports: Ports, n: nat, record: Record) {
    var identity, answer := c.request.checkpointBefore, Answer(c, chunk, ports, n);
    var inspection := ports.inspectChunk(n, chunk.jobId, chunk.requestedRange);
    && ReadExact(ports, 2 * n + 1, identity, chunk.before)
    && answer.Ok? && answer.value == ExactResponse(c, chunk, record.pages, record.inserted, record.budget)
    && 1 <= record.pages <= 10 && InBudget(record.budget)
    && ReadExact(ports, 2 * n + 2, identity, chunk.after)
    && inspection == Ok(Inspection(chunk.jobId, 1, chunk.expectedBarCount, chunk.expectedBarCount, 0, 0, 0))
    && RecordTells(record, c, chunk, answer.value, inspection.value)
    && ports.persistEvidence(n, record).Ok?
  }

  ghost predicate Performs(c: FrozenCampaign, chunk: FrozenChunk, ports: Ports, n: nat) {
    exists record :: Performed(c, chunk, ports, n, record)
  }

  /** Why a reading is not exact. */
  function ReadFault(ports: Ports, n: nat, identity: StoredCheckpoint, mark: Mark): Option<Fault> {
    var r := ports.readCheckpoint(n);
    if r.Err? then Some(r.error)
    else if r.value.None? then Some(CheckpointMissing)
    else if !Exact(r.value.value, identity, mark) then Some(CheckpointMismatch)
    else None
  }

  /** What is wrong with a chunk that cannot be performed: the first that applies. */
  function WrongWith(c: FrozenCampaign, chunk: FrozenChunk, ports: Ports, n: nat): Option<Fault> {
    var identity, answer := c.request.checkpointBefore, Answer(c, chunk, ports, n);
    var inspection := ports.inspectChunk(n, chunk.jobId, chunk.requestedRange);
    if ReadFault(ports, 2 * n + 1, identity, chunk.before).Some? then
      ReadFault(ports, 2 * n + 1, identity, chunk.before)
    else if answer.Err? then Some(answer.error)
    else if !ResponseFits(answer.value, c, chunk) then Some(ResponseMismatch)
    else if ReadFault(ports, 2 * n + 2, identity, chunk.after).Some? then
      ReadFault(ports, 2 * n + 2, identity, chunk.after)
    else if inspection.Err? then Some(inspection.error)
    else if !InspectionFits(inspection.value, chunk) then Some(PersistedMismatch)
    else
      var saved := ports.persistEvidence(n, RecordFor(c, chunk, answer.value, inspection.value));
      if saved.Err? then Some(saved.error) else None
  }

  /** One chunk: check, invoke once, check the answer and the checkpoint, inspect, persist.  It succeeds exactly when
      all of that does, with the record that was persisted, and it invokes exactly after an exact reading. */
  method RunChunk(c: FrozenCampaign, chunk: FrozenChunk, ports: Ports, done: nat)
    returns (result: Result<Record>, invoked: bool)
    ensures result.Ok? ==> invoked && RecordFits(result.value, c, chunk)
    ensures result.Ok? ==> Performed(c, chunk, ports, done, result.value)
    ensures result.Err? ==> !Performs(c, chunk, ports, done) && WrongWith(c, chunk, ports, done) == Some(result.error)
    ensures invoked <==> ReadExact(ports, 2 * done + 1, c.request.checkpointBefore, chunk.before)
  {
    invoked := false;
    ghost var answer := Answer(c, chunk, ports, done);
    if answer.Ok? { ResponseFitsExactly(answer.value, c, chunk); }
    ghost var inspected := ports.inspectChunk(done, chunk.jobId, chunk.requestedRange);
    if inspected.Ok? { InspectionFitsExactly(inspected.value, chunk); }
    var identity := c.request.checkpointBefore;
    var before := ports.readCheckpoint(2 * done + 1);
    if before.Err? { return Err(before.error), invoked; }
    if before.value.None? { return Err(CheckpointMissing), invoked; }
    if !Exact(before.value.value, identity, chunk.before) { return Err(CheckpointMismatch), invoked; }
    invoked := true;
    var response := ports.invokeNextChunk(done, InvocationFor(c, chunk));
    if response.Err? { return Err(response.error), invoked; }
    if !ResponseFits(response.value, c, chunk) { return Err(ResponseMismatch), invoked; }
    var after := ports.readCheckpoint(2 * done + 2);
    if after.Err? { return Err(after.error), invoked; }
    if after.value.None? { return Err(CheckpointMissing), invoked; }
    if !Exact(after.value.value, identity, chunk.after) { return Err(CheckpointMismatch), invoked; }
    var inspection := ports.inspectChunk(done, chunk.jobId, chunk.requestedRange);
    if inspection.Err? { return Err(inspection.error), invoked; }
    if !InspectionFits(inspection.value, chunk) { return Err(PersistedMismatch), invoked; }
    var record := RecordFor(c, chunk, response.value, inspection.value);
    var saved := ports.persistEvidence(done, record);
    if saved.Err? { return Err(saved.error), invoked; }
    result := Ok(record);
  }

  /** Where the first reading lets the run begin: at the chunk it is exactly before, or behind the last one. */
  function BeginsAt(c: FrozenCampaign, ports: Ports): Option<nat>
    requires c.chunks != []
  {
    var r := ports.readCheckpoint(0);
    if r.Err? || r.value.None? || !Clean(r.value.value) || StartOf(c, r.value.value).None? then None
    else
      var start := StartOf(c, r.value.value).value;
      if start <= |c.chunks|
         && ReadExact(ports, 0, c.request.checkpointBefore,
                      if start == |c.chunks| then c.chunks[|c.chunks| - 1].after else c.chunks[start].before)
      then Some(start) else None
  }

  /** Find the resume point from the checkpoint read first. */
  method ReadStart(c: FrozenCampaign, ports: Ports) returns (result: Result<nat>)
    requires c.chunks != []
    ensures result.Ok? <==>
              var r := ports.readCheckpoint(0);
              && r.Ok? && r.value.Some? && Clean(r.value.value)
              && SameIdentity(r.value.value, c.request.checkpointBefore)
              && StartOf(c, r.value.value).Some?
              && (StartOf(c, r.value.value).value == |c.chunks|
                  ==> AtMark(r.value.value, c.chunks[|c.chunks| - 1].after))
    ensures BeginsAt(c, ports) == if result.Ok? then Some(result.value) else None
    ensures result.Ok? ==>
              && result.value <= |c.chunks|
              && StartOf(c, ports.readCheckpoint(0).value.value) == Some(result.value)
              && ReadExact(ports, 0, c.request.checkpointBefore,
                           if result.value == |c.chunks| then c.chunks[|c.chunks| - 1].after
                           else c.chunks[result.value].before)
  {
    var read := ports.readCheckpoint(0);
    if read.Err? { return Err(read.error); }
    if read.value.None? { return Err(CheckpointMissing); }
    var current := read.value.value;
    if !Clean(current) { return Err(UncleanCheckpoint); }
    ResumeSpec(c.chunks, current);
    var start := StartOf(c, current);
    if start.None? { return Err(NotResumable); }
    var mark := if start.value == |c.chunks| then c.chunks[|c.chunks| - 1].after else c.chunks[start.value].before;
    if !Exact(current, c.request.checkpointBefore, mark) { return Err(CheckpointMismatch); }
    result := Ok(start.value);
  }

  /** Each record is that of its chunk, performed and persisted. */
  ghost predicate AllPerformed(c: FrozenCampaign, ports: Ports, start: nat, records: seq<Record>) {
    start + |records| <= |c.chunks|
    && forall i :: 0 <= i < |records| ==> Performed(c, c.chunks[start + i], ports, i, records[i])
  }

  /** One more chunk performed. */
  lemma OneMorePerformed(c: FrozenCampaign, ports: Ports, start: nat, records: seq<Record>, record: Record)
    requires AllPerformed(c, ports, start, records) && RecordsFit(records, c, start)
    requires start + |records| < |c.chunks|
    requires Performed(c, c.chunks[start + |records|], ports, |records|, record)
    requires RecordFits(record, c, c.chunks[start + |records|])
    ensures AllPerformed(c, ports, start, records + [record]) && RecordsFit(records + [record], c, start)
  {
    var more := records + [record];
    assert forall i :: 0 <= i < |more| ==> more[i] == if i < |records| then records[i] else record;
  }

  lemma OneMoreInvoked(c: FrozenCampaign, start: nat, n: nat)
    requires start + n < |c.chunks|
    ensures Invocations(c, c.chunks[start..start + (n + 1)])
         == Invocations(c, c.chunks[start..start + n]) + [InvocationFor(c, c.chunks[start + n])]
  {
  }

  /** The loop over the chunks from `start` on: it stops at the first one that cannot be performed. */
  method RunChunks(c: FrozenCampaign, ports: Ports, start: nat)
    returns (result: Result<()>, invocations: seq<Invocation>, persisted: seq<Record>)
    requires start <= |c.chunks|
    ensures AllPerformed(c, ports, start, persisted) && RecordsFit(persisted, c, start)
    ensures |persisted| <= |invocations| <= |persisted| + 1 && start + |invocations| <= |c.chunks|
    ensures invocations == Invocations(c, c.chunks[start..start + |invocations|])
    ensures result.Ok? <==> start + |persisted| == |c.chunks|
    ensures result.Err? ==>
              var next := c.chunks[start + |persisted|];
              && !Performs(c, next, ports, |persisted|)
              && (|invocations| > |persisted|
                  <==> ReadExact(ports, 2 * |persisted| + 1, c.request.checkpointBefore, next.before))
  {
    invocations, persisted := [], [];
    while start + |persisted| < |c.chunks|
      invariant AllPerformed(c, ports, start, persisted) && RecordsFit(persisted, c, start)
      invariant |invocations| == |persisted|
      invariant invocations == Invocations(c, c.chunks[start..start + |invocations|])
      decreases |c.chunks| - |persisted|
    {
      var chunk := c.chunks[start + |persisted|];
      var record, invoked := RunChunk(c, chunk, ports, |persisted|);
      OneMoreInvoked(c, start, |persisted|);
      if invoked { invocations := invocations + [InvocationFor(c, chunk)]; }
      if record.Err? { return Err(record.error), invocations, persisted; }
      OneMorePerformed(c, ports, start, persisted, record.value);
      persisted := persisted + [record.value];
    }
    result := Ok(());
  }

  /** Every chunk from `start` on can be performed, in order. */
  ghost predicate AllPerform(c: FrozenCampaign, ports: Ports, start: nat) {
    forall i :: start <= i < |c.chunks| ==> Performs(c, c.chunks[i], ports, i - start)
  }

  /** With a record for every chunk, all could be performed, and the last reading was at the last mark. */
  lemma PerformedAll(c: FrozenCampaign, ports: Ports, start: nat, records: seq<Record>)
    requires AllPerformed(c, ports, start, records) && start + |records| == |c.chunks|
    ensures AllPerform(c, ports, start)
    ensures records != [] ==>
              ReadExact(ports, 2 * |records|, c.request.checkpointBefore, c.chunks[|c.chunks| - 1].after)
  {
    forall i | start <= i < |c.chunks| ensures Performs(c, c.chunks[i], ports, i - start) {
      assert Performed(c, c.chunks[start + (i - start)], ports, i - start, records[i - start]);
    }
    if records != [] {
      var n := |records| - 1;
      assert Performed(c, c.chunks[start + n], ports, n, records[n]);
    }
  }

  /** Run the rest of the campaign and stop at the first error.  Whatever the ports answer:
      the invocations are one contiguous run of frozen chunks from the resume point, each invoked once;
      each persisted record is that of its chunk, told by the answer and the inspection that passed, and at most one
      invocation is not backed by one; and the run completes exactly when it can begin and every remaining chunk can be
      performed, with a record for each and the checkpoint at the campaign's last mark. */
  method Run(c: FrozenCampaign, ports: Ports)
    returns (result: Result<Completed>, invocations: seq<Invocation>, persisted: seq<Record>)
    requires c.chunks != []
    ensures |persisted| <= |invocations| <= |persisted| + 1
    ensures result.Ok? <==> BeginsAt(c, ports).Some? && AllPerform(c, ports, BeginsAt(c, ports).value)
    ensures BeginsAt(c, ports).None? ==> invocations == [] && persisted == []
    ensures BeginsAt(c, ports).Some? ==>
              var start := BeginsAt(c, ports).value;
              && AllPerformed(c, ports, start, persisted) && RecordsFit(persisted, c, start)
              && start + |invocations| <= |c.chunks|
              && invocations == Invocations(c, c.chunks[start..start + |invocations|])
              && (result.Ok? ==>
                    && result.value == Completed(start + 1, persisted)
                    && start + |persisted| == |c.chunks| && |invocations| == |persisted|
                    && ReadExact(ports, 2 * |persisted|, c.request.checkpointBefore, c.chunks[|c.chunks| - 1].after))
  {
    invocations, persisted := [], [];
    var begun := ReadStart(c, ports);
    if begun.Err? { return Err(begun.error), invocations, persisted; }
    var start := begun.value;
    var ran: Result<()>;
    ran, invocations, persisted := RunChunks(c, ports, start);
    if ran.Err? { return Err(ran.error), invocations, persisted; }
    PerformedAll(c, ports, start, persisted);
    result := Ok(Completed(start + 1, persisted));
  }

  // What the run's contract means for a campaign that was frozen.

  /** The checkpoint before chunk `i` and the checkpoint after the last chunk, by version. */
  lemma FrozenMarks(campaignId: string, request: Request, calendar: Calendar, session: Session, i: nat)
    requires Frozen(campaignId, request, calendar, session).Ok? && i < 4
    ensures var chunks := Frozen(campaignId, request, calendar, session).value.chunks;
            && |chunks| == 4 && chunks[i].before.version == request.checkpointBefore.version + i
            && chunks[3].after == Mark(session.closesAt, request.checkpointBefore.version + 4)
  {
    FrozenTilesSession(campaignId, request, calendar, session);
    var chunks := Frozen(campaignId, request, calendar, session).value.chunks;
    var from := Mark(request.checkpointBefore.completeThrough.value, request.checkpointBefore.version);
    LinkedVersions(chunks, from, session.closesAt, i);
    LinkedVersions(chunks, from, session.closesAt, 3);
  }

  /** No two frozen chunks are invoked alike, so a run never invokes a chunk twice. */
  lemma NoChunkInvokedTwice(campaignId: string, request: Request, calendar: Calendar, session: Session, i: nat, j: nat)
    requires Frozen(campaignId, request, calendar, session).Ok? && i < j < 4
    ensures var c := Frozen(campaignId, request, calendar, session).value;
            |c.chunks| == 4 && InvocationFor(c, c.chunks[i]) != InvocationFor(c, c.chunks[j])
  {
    FrozenMarks(campaignId, request, calendar, session, i);
    FrozenMarks(campaignId, request, calendar, session, j);
  }

  /** A checkpoint fits at most one resume point: chunk `i` only at version `i` past the frozen one, and the
      completed campaign only at version four past it. */
  lemma ResumePointIsUnique(campaignId: string, request: Request, calendar: Calendar, session: Session,
                            current: StoredCheckpoint, i: nat)
    requires Frozen(campaignId, request, calendar, session).Ok? && i < 4
    requires |Frozen(campaignId, request, calendar, session).value.chunks| == 4
    requires AtMark(current, Frozen(campaignId, request, calendar, session).value.chunks[i].before)
    ensures StartOf(Frozen(campaignId, request, calendar, session).value, current) == Some(i)
  {
    var chunks := Frozen(campaignId, request, calendar, session).value.chunks;
    FrozenMarks(campaignId, request, calendar, session, i);
    ResumeSpec(chunks, current);
    var r := Resume(chunks, current);
    if r.Some? { FrozenMarks(campaignId, request, calendar, session, r.value); }
  }

  function Accounted(records: seq<Record>): int {
    if records == [] then 0 else records[0].inserted + records[0].matched + Accounted(records[1..])
  }

  /** The records of a completed run account for exactly the bars of the chunks from the resume point on. */
  lemma {:induction false} RecordsAccountForBars(records: seq<Record>, c: FrozenCampaign, start: nat)
    requires RecordsFit(records, c, start) && start + |records| == |c.chunks|
    ensures Accounted(records) == TotalBars(c.chunks[start..])
  {
    if records != [] {
      assert RecordFits(records[0], c, c.chunks[start + 0]);
      forall i | 0 <= i < |records[1..]| ensures RecordFits(records[1..][i], c, c.chunks[start + 1 + i]) {
        assert RecordFits(records[i + 1], c, c.chunks[start + (i + 1)]);
      }
      RecordsAccountForBars(records[1..], c, start + 1);
      assert c.chunks[start..][1..] == c.chunks[start + 1..];
    }
  }
}
