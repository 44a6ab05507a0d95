/** The coverage protocol as a state machine: any number of workers plan or recover from checkpoints, accept bars,
    read and compare-and-set, in any interleaving, and may crash between any two steps.  There is no lease. */
module CoverageProtocol {
  import opened Market
  import opened SessionGrid
  import opened MissingRanges
  import opened Checkpoint
  import opened Schedule
  import opened Planner
  import opened Execution
  import Recovery
  import RecoveryChunks

  /** What has really happened to a stream: bars in the canonical store, absences acknowledged by a
      committed job, and the highest retention floor of a committed job. */
  datatype History = History(stored: set<Instant>, acked: set<Instant>, floor: Option<Instant>)

  datatype Worker =
    | Idle
    | Fetching(job: Job, floor: Option<Instant>, absences: set<Instant>, starts: set<Instant>)
    | Deciding(job: Job, floor: Option<Instant>, absences: set<Instant>, starts: set<Instant>,
               existing: Option<StoredCheckpoint>)

  datatype State = State(table: Table, history: map<string, History>, workers: map<nat, Worker>) {
    function WorkerAt(w: nat): Worker { if w in workers then workers[w] else Idle }

    function HistoryAt(key: string): History { if key in history then history[key] else History({}, {}, None) }
  }

  /** The session grid of every coverage key: one fixed calendar. */
  type Grids = map<string, Grid>

  ghost predicate GridsWf(grids: Grids) {
    forall key :: key in grids ==> grids[key].Wf()
  }

  datatype Action =
    | Plan(w: nat, policy: Policy, universe: Universe, calendar: Calendar, now: Instant, instrument: Instrument,
           absences: set<Instant>)
    | Recover(w: nat, request: Recovery.Request, calendar: Calendar, absences: set<Instant>)
    | Accept(w: nat, accepted: set<Instant>)
    | ReadCheckpoint(w: nat)
    | Commit(w: nat, options: Options)
    | Crash(w: nat)

  /** The planner may run: its configuration is valid and it knows the stream's grid. */
  predicate PlanReady(grids: Grids, policy: Policy, calendar: Calendar, instrument: Instrument) {
    && ValidConfig(policy.config) && instrument.symbol != "" && policy.ScopeOf(instrument).Ok?
    && var scope := policy.ScopeOf(instrument).value;
       var key := CoverageKeyFor(instrument, scope, policy.logicalDataVariant(instrument));
       key in grids && grids[key] == GridFor(instrument, scope, calendar)
  }

  /** Recovery may plan: it was given the current checkpoint, and it knows the stream's grid. */
  predicate RecoverReady(grids: Grids, table: Table, request: Recovery.Request, calendar: Calendar) {
    && request.instrument.symbol != "" && request.coverageKey in grids
    && grids[request.coverageKey] == request.Grid(calendar)
    && Row(table, request.coverageKey) == Some(request.checkpointBefore)
  }

  /** Historical recovery works below no floor. */
  function RecoveryWorker(request: Recovery.Request, calendar: Calendar, absences: set<Instant>): Worker {
    var planned := Recovery.PlanNext(request, calendar);
    if planned.Ok? && planned.value.Some? then Fetching(planned.value.value, None, absences, {}) else Idle
  }

  function Later(floor: Option<Instant>, at: Option<Instant>): Option<Instant> {
    if at.None? || (floor.Some? && floor.value >= at.value) then floor else at
  }

  /** A retention floor lets the bar expire. */
  predicate Below(floor: Option<Instant>, b: Bar) { floor.Some? && b.start < floor.value }

  /** The row a commit writes, `None` when it throws or is refused. */
  function Committed(grids: Grids, table: Table, d: Worker, options: Options): Option<StoredCheckpoint>
    requires d.Deciding?
  {
    var key := d.job.expectation.coverageKey;
    if key !in grids || !AbsencesFit(Expected(grids[key], d.job.requestedRange), d.absences, d.starts) then None
    else
      var proposal := Proposal(d.job, grids[key], options, d.existing, d.starts + d.absences);
      if ValidProposal(proposal) then Returned(Row(table, key), Update(d.job.expectation.expectedVersion, proposal))
      else None
  }

  function Next(grids: Grids, s: State, a: Action): State {
    var worker := s.WorkerAt(a.w);
    match a
    case Plan(w, policy, universe, calendar, now, instrument, absences) =>
      if worker.Idle? && PlanReady(grids, policy, calendar, instrument) then
        var jobs := InstrumentJobs(policy, universe, calendar, s.table, now, instrument);
        if jobs == [] then s
        else s.(workers := s.workers[w := Fetching(jobs[0], Some(policy.config.retentionFloor), absences, {})])
      else s
    case Recover(w, request, calendar, absences) =>
      if worker.Idle? && RecoverReady(grids, s.table, request, calendar) then
        s.(workers := s.workers[w := RecoveryWorker(request, calendar, absences)])
      else s
    case Accept(w, accepted) =>
      if worker.Fetching? then
        var key := worker.job.expectation.coverageKey;
        var h := s.HistoryAt(key);
        s.(history := s.history[key := h.(stored := h.stored + accepted)],
           workers := s.workers[w := Fetching(worker.job, worker.floor, worker.absences, worker.starts + accepted)])
      else s
    case ReadCheckpoint(w) =>
      if worker.Fetching? then
        s.(workers := s.workers[w := Deciding(worker.job, worker.floor, worker.absences, worker.starts,
                                              Row(s.table, worker.job.expectation.coverageKey))])
      else s
    case Commit(w, options) =>
      if worker.Deciding? then
        var row := Committed(grids, s.table, worker, options);
        if row.None? then s.(workers := s.workers[w := Idle])
        else
          var key := worker.job.expectation.coverageKey;
          var h := s.HistoryAt(key);
          State(s.table[key := row.value],
                s.history[key := h.(acked := h.acked + worker.absences, floor := Later(h.floor, worker.floor))],
                s.workers[w := Idle])
      else s
    case Crash(w) => s.(workers := s.workers[w := Idle])
  }

  function Run(grids: Grids, s: State, actions: seq<Action>): State {
    if actions == [] then s else Next(grids, Run(grids, s, actions[..|actions| - 1]), actions[|actions| - 1])
  }

  const INITIAL := State(map[], map[], map[])

  // The invariant.

  /** Nothing is left to do for `b`: it is stored, acknowledged absent, or older than a committed floor. */
  predicate Done(h: History, b: Bar) {
    b.start in h.stored || b.start in h.acked || Below(h.floor, b)
  }

  /** Checkpoints have their boundary on a bar completion and gaps made of whole eligible bars ahead of it. */
  ghost predicate Shaped(g: Grid, c: StoredCheckpoint) {
    && Normal(c.missingRanges)
    && (c.completeThrough.Some? ==>
          && (exists b :: g.Eligible(b) && b.completes == c.completeThrough.value)
          && forall i :: 0 <= i < |c.missingRanges| ==> c.completeThrough.value <= c.missingRanges[i].start)
    && (forall x :: Covers(c.missingRanges, x) ==> exists b :: GapBar(g, c, b) && b.start <= x < b.completes)
  }

  /** An eligible bar recorded as missing. */
  ghost predicate GapBar(g: Grid, c: StoredCheckpoint, b: Bar) {
    g.Eligible(b) && forall x :: b.start <= x < b.completes ==> Covers(c.missingRanges, x)
  }

  /** The source was observed past the bar, and the ledger does not call it missing. */
  ghost predicate Observed(c: StoredCheckpoint, b: Bar) {
    c.sourceObservedThrough.Some? && b.completes <= c.sourceObservedThrough.value && !Covers(c.missingRanges, b.start)
  }

  /** Everything a checkpoint claims is done, and whatever it observed and does not call missing, really is. */
  ghost predicate ClaimsDone(g: Grid, h: History, c: StoredCheckpoint) {
    forall b :: g.Eligible(b) && (Claims(c, b) || Observed(c, b)) ==> Done(h, b)
  }

  ghost predicate StreamOk(g: Grid, h: History, row: Option<StoredCheckpoint>) {
    row.Some? ==> Shaped(g, row.value) && ClaimsDone(g, h, row.value) && row.value.version >= 0
  }

  /** An eligible bar that a job over `range` neither requests nor leaves for later. */
  ghost predicate Passed(g: Grid, range: TimeRange, b: Bar) {
    g.Eligible(b) && b.completes <= range.end && !g.Requested(b, range)
  }

  /** The range in flight leaves no hole behind it, and the worker's readings are older states of the row. */
  ghost predicate WorkerOk(grids: Grids, table: Table, h: History, d: Worker) {
    !d.Idle? ==>
      var key := d.job.expectation.coverageKey;
      var expected := d.job.expectation.expectedVersion;
      && key in grids && key != "" && d.job.instrument.symbol != ""
      && d.starts <= h.stored
      && (forall b :: Passed(grids[key], d.job.requestedRange, b) ==> Done(h, b) || Below(d.floor, b))
      && (expected.Some? ==> key in table && 0 <= expected.value <= table[key].version)
      && (d.Deciding? ==> ReadingOk(grids[key], Row(table, key), d.existing, expected))
  }

  ghost predicate ReadingOk(g: Grid, row: Option<StoredCheckpoint>, existing: Option<StoredCheckpoint>,
                            expected: Option<int>) {
    && (existing.Some? ==> row.Some? && Shaped(g, existing.value) && 0 <= existing.value.version <= row.value.version
                           && (existing.value.version == row.value.version ==> existing == row))
    && (expected.Some? ==> existing.Some? && expected.value <= existing.value.version)
  }

  ghost predicate Inv(grids: Grids, s: State) {
    && (forall key :: key in s.table ==> key in grids)
    && (forall key :: key in grids ==> StreamOk(grids[key], s.HistoryAt(key), Row(s.table, key)))
    && (forall w :: WorkerOk(grids, s.table, HistoryOf(s, s.WorkerAt(w)), s.WorkerAt(w)))
  }

  function HistoryOf(s: State, d: Worker): History {
    if d.Idle? then History({}, {}, None) else s.HistoryAt(d.job.expectation.coverageKey)
  }

  ghost predicate Grows(a: History, b: History) {
    a.stored <= b.stored && a.acked <= b.acked
    && (a.floor.Some? ==> b.floor.Some? && a.floor.value <= b.floor.value)
  }

  lemma WorkerOkStable(grids: Grids, a: Table, b: Table, g: History, h: History, d: Worker)
    requires WorkerOk(grids, a, g, d) && Grows(g, h)
    requires !d.Idle? ==> var key := d.job.expectation.coverageKey;
                          Row(b, key) == Row(a, key)
                          || (key in b && (key in a ==> a[key].version < b[key].version) && 0 <= b[key].version)
    ensures WorkerOk(grids, b, h, d)
  {
  }

  lemma StreamOkStable(g: Grid, a: History, b: History, row: Option<StoredCheckpoint>)
    requires StreamOk(g, a, row) && Grows(a, b)
    ensures StreamOk(g, b, row)
  {
  }

  lemma PlanStep(grids: Grids, s: State, a: Action)
    requires GridsWf(grids) && Inv(grids, s) && a.Plan?
    ensures Inv(grids, Next(grids, s, a))
  {
    var t := Next(grids, s, a);
    if t != s {
      var scope := a.policy.ScopeOf(a.instrument).value;
      var key := CoverageKeyFor(a.instrument, scope, a.policy.logicalDataVariant(a.instrument));
      var g := grids[key];
      var d := t.WorkerAt(a.w);
      assert |key| > 0;
      assert StreamOk(g, s.HistoryAt(key), Row(s.table, key));
      forall b | Passed(g, d.job.requestedRange, b) ensures Done(s.HistoryAt(key), b) || Below(d.floor, b) {
        PlanLeavesNoHole(a.policy.config, g, Row(s.table, key), a.now, b);
      }
      assert WorkerOk(grids, t.table, HistoryOf(t, d), d);
      forall w ensures WorkerOk(grids, t.table, HistoryOf(t, t.WorkerAt(w)), t.WorkerAt(w)) {
        if w != a.w { assert WorkerOk(grids, s.table, HistoryOf(s, s.WorkerAt(w)), s.WorkerAt(w)); }
      }
      forall k | k in grids ensures StreamOk(grids[k], t.HistoryAt(k), Row(t.table, k)) {
        assert StreamOk(grids[k], s.HistoryAt(k), Row(s.table, k));
      }
    }
  }

  /** What a recovery job passes over is done: it is behind the checkpoint recovery was given. */
  lemma RecoveryPasses(g: Grid, h: History, request: Recovery.Request, calendar: Calendar, job: Job, b: Bar)
    requires g.Wf() && g == request.Grid(calendar) && StreamOk(g, h, Some(request.checkpointBefore))
    requires Recovery.PlanNext(request, calendar) == Ok(Some(job)) && Passed(g, job.requestedRange, b)
    ensures Done(h, b)
  {
    RecoveryChunks.AcceptedBounds(request, calendar);
    var e :| g.Eligible(e) && e.completes == request.checkpointBefore.completeThrough.value;
    RecoveryChunks.RecoveryLeavesNoHole(request, calendar, job, e, b);
    assert Claims(request.checkpointBefore, b);
  }

  lemma RecoveryWorkerOk(grids: Grids, s: State, a: Action)
    requires GridsWf(grids) && Inv(grids, s) && a.Recover? && RecoverReady(grids, s.table, a.request, a.calendar)
    ensures var d := RecoveryWorker(a.request, a.calendar, a.absences);
            WorkerOk(grids, s.table, HistoryOf(s, d), d)
  {
    var d, key := RecoveryWorker(a.request, a.calendar, a.absences), a.request.coverageKey;
    if d.Fetching? {
      RecoveryChunks.JobCarriesRequest(a.request, a.calendar, d.job);
      RecoveryChunks.AcceptedBounds(a.request, a.calendar);
      assert StreamOk(grids[key], s.HistoryAt(key), Row(s.table, key));
      forall b | Passed(grids[key], d.job.requestedRange, b) ensures Done(s.HistoryAt(key), b) {
        RecoveryPasses(grids[key], s.HistoryAt(key), a.request, a.calendar, d.job, b);
      }
    }
  }

  lemma RecoverStep(grids: Grids, s: State, a: Action)
    requires GridsWf(grids) && Inv(grids, s) && a.Recover?
    ensures Inv(grids, Next(grids, s, a))
  {
    var t := Next(grids, s, a);
    if t != s {
      RecoveryWorkerOk(grids, s, a);
      forall w ensures WorkerOk(grids, t.table, HistoryOf(t, t.WorkerAt(w)), t.WorkerAt(w)) {
        if w != a.w { assert WorkerOk(grids, s.table, HistoryOf(s, s.WorkerAt(w)), s.WorkerAt(w)); }
      }
      forall k | k in grids ensures StreamOk(grids[k], t.HistoryAt(k), Row(t.table, k)) {
        assert StreamOk(grids[k], s.HistoryAt(k), Row(s.table, k));
      }
    }
  }

  lemma AcceptStep(grids: Grids, s: State, a: Action)
    requires GridsWf(grids) && Inv(grids, s) && a.Accept?
    ensures Inv(grids, Next(grids, s, a))
  {
    var t := Next(grids, s, a);
    forall k | k in grids ensures StreamOk(grids[k], t.HistoryAt(k), Row(t.table, k)) {
      StreamOkStable(grids[k], s.HistoryAt(k), t.HistoryAt(k), Row(s.table, k));
    }
    forall w ensures WorkerOk(grids, t.table, HistoryOf(t, t.WorkerAt(w)), t.WorkerAt(w)) {
      AcceptKeepsWorker(grids, s, a, w);
    }
  }

  lemma AcceptKeepsWorker(grids: Grids, s: State, a: Action, w: nat)
    requires Inv(grids, s) && a.Accept?
    ensures var t := Next(grids, s, a);
            WorkerOk(grids, t.table, HistoryOf(t, t.WorkerAt(w)), t.WorkerAt(w))
  {
    var t, d := Next(grids, s, a), s.WorkerAt(w);
    assert WorkerOk(grids, s.table, HistoryOf(s, d), d);
    WorkerOkStable(grids, s.table, t.table, HistoryOf(s, d), HistoryOf(t, d), d);
  }

  lemma ReadStep(grids: Grids, s: State, a: Action)
    requires GridsWf(grids) && Inv(grids, s) && a.ReadCheckpoint?
    ensures Inv(grids, Next(grids, s, a))
  {
    var t := Next(grids, s, a);
    forall k | k in grids ensures StreamOk(grids[k], t.HistoryAt(k), Row(t.table, k)) {
      assert StreamOk(grids[k], s.HistoryAt(k), Row(s.table, k));
    }
    forall w ensures WorkerOk(grids, t.table, HistoryOf(t, t.WorkerAt(w)), t.WorkerAt(w)) {
      ReadKeepsWorker(grids, s, a, w);
    }
  }

  lemma ReadKeepsWorker(grids: Grids, s: State, a: Action, w: nat)
    requires Inv(grids, s) && a.ReadCheckpoint?
    ensures var t := Next(grids, s, a);
            WorkerOk(grids, t.table, HistoryOf(t, t.WorkerAt(w)), t.WorkerAt(w))
  {
    assert WorkerOk(grids, s.table, HistoryOf(s, s.WorkerAt(w)), s.WorkerAt(w));
    if w == a.w && s.WorkerAt(w).Fetching? {
      var key := s.WorkerAt(w).job.expectation.coverageKey;
      assert StreamOk(grids[key], s.HistoryAt(key), Row(s.table, key));
    }
  }

  /** A commit that succeeds was computed from the row it replaces. */
  lemma CommitReadCurrentRow(grids: Grids, s: State, w: nat, options: Options)
    requires Inv(grids, s) && s.WorkerAt(w).Deciding?
    requires Committed(grids, s.table, s.WorkerAt(w), options).Some?
    ensures s.WorkerAt(w).existing == Row(s.table, s.WorkerAt(w).job.expectation.coverageKey)
  {
    assert WorkerOk(grids, s.table, HistoryOf(s, s.WorkerAt(w)), s.WorkerAt(w));
  }

  /** The heart of the protocol: a commit computed from the current row keeps every claim true, although it
      replaces the whole gap ledger and may chase a later gap after an earlier one expired. */
  lemma ProposalClaimsDone(g: Grid, h: History, d: Worker, options: Options, after: History, b: Bar)
    requires g.Wf() && d.Deciding? && StreamOk(g, h, d.existing)
    requires d.starts <= h.stored
    requires forall x :: Passed(g, d.job.requestedRange, x) ==> Done(h, x) || Below(d.floor, x)
    requires after == h.(acked := h.acked + d.absences, floor := Later(h.floor, d.floor))
    requires g.Eligible(b)
    requires var p := Proposal(d.job, g, options, d.existing, d.starts + d.absences); Claims(p, b) || Observed(p, b)
    ensures Done(after, b)
  {
    var range := d.job.requestedRange;
    var expected, through, have := Expected(g, range), ThroughOf(d.existing), d.starts + d.absences;
    var p := Proposal(d.job, g, options, d.existing, have);
    ExpectedSpec(g, range);
    AdvanceSpec(through, expected, have);
    UnservedSpec(through, expected, have);
    LedgerSpec(d.job, g, options, d.existing, have);
    if through.Some? && b.completes <= through.value {
      assert Claims(d.existing.value, b);
    } else if b in expected {
      EligibleNonEmpty(g, b);
      assert b.start in have;
    } else {
      if p.completeThrough.Some? && b.completes <= p.completeThrough.value {
        var e :| e in expected && p.completeThrough == Some(e.completes);
        assert g.Requested(e, range);
      } else if Observed(p, b) {
        assert g.Requested(expected[|expected| - 1], range);
      } else {
        var gap :| gap in p.missingRanges && b.start < gap.end;
        GapEndsInRange(g, range, Unserved(through, expected, have), p.missingRanges, gap, b);
      }
      assert Passed(g, range, b);
    }
  }

  /** An eligible bar that starts before the end of a recorded gap completes within the requested range. */
  lemma GapEndsInRange(g: Grid, range: TimeRange, missing: seq<Bar>, ledger: seq<TimeRange>, gap: TimeRange, b: Bar)
    requires g.Wf() && Normal(ledger) && gap in ledger && g.Eligible(b) && b.start < gap.end
    requires forall m :: m in missing ==> g.Eligible(m) && g.Requested(m, range)
    requires forall x :: Covers(ledger, x) <==> exists m :: m in missing && m.start <= x < m.completes
    ensures b.completes <= range.end
  {
    var i :| 0 <= i < |ledger| && ledger[i] == gap;
    assert Covers(ledger, gap.end - 1);
    var m :| m in missing && m.start <= gap.end - 1 < m.completes;
    EligibleDisjoint(g, b, m);
    EligibleNonEmpty(g, m);
  }

  lemma ProposalShaped(g: Grid, d: Worker, options: Options, have: set<Instant>)
    requires g.Wf() && d.Deciding? && (d.existing.Some? ==> Shaped(g, d.existing.value))
    requires ValidProposal(Proposal(d.job, g, options, d.existing, have))
    ensures Shaped(g, Proposal(d.job, g, options, d.existing, have))
  {
    var expected, through := Expected(g, d.job.requestedRange), ThroughOf(d.existing);
    var p := Proposal(d.job, g, options, d.existing, have);
    ExpectedSpec(g, d.job.requestedRange);
    AdvanceSpec(through, expected, have);
    UnservedSpec(through, expected, have);
    LedgerSpec(d.job, g, options, d.existing, have);
    forall x | Covers(p.missingRanges, x) ensures exists b :: GapBar(g, p, b) && b.start <= x < b.completes {
      var b :| b in Unserved(through, expected, have) && b.start <= x < b.completes;
      assert GapBar(g, p, b);
    }
  }

  /** The row a commit writes is sound for the history it leaves, and newer than the row it replaces. */
  lemma CommitWritesSoundRow(grids: Grids, s: State, a: Action)
    requires GridsWf(grids) && Inv(grids, s) && a.Commit? && s.WorkerAt(a.w).Deciding?
    requires Committed(grids, s.table, s.WorkerAt(a.w), a.options).Some?
    ensures var key := s.WorkerAt(a.w).job.expectation.coverageKey;
            var t := Next(grids, s, a);
            && key in grids && StreamOk(grids[key], t.HistoryAt(key), Row(t.table, key))
            && (key in s.table ==> s.table[key].version < t.table[key].version)
  {
    var t, d := Next(grids, s, a), s.WorkerAt(a.w);
    var key := d.job.expectation.coverageKey;
    var g, h, after := grids[key], s.HistoryAt(key), t.HistoryAt(key);
    CommitReadCurrentRow(grids, s, a.w, a.options);
    assert WorkerOk(grids, s.table, HistoryOf(s, d), d) && StreamOk(g, h, Row(s.table, key));
    ProposalShaped(g, d, a.options, d.starts + d.absences);
    var p := Proposal(d.job, g, a.options, d.existing, d.starts + d.absences);
    var row := t.table[key];
    forall b | g.Eligible(b) && (Claims(row, b) || Observed(row, b)) ensures Done(after, b) {
      assert Claims(p, b) || Observed(p, b);
      ProposalClaimsDone(g, h, d, a.options, after, b);
    }
    assert Shaped(g, row) by { assert forall b :: GapBar(g, p, b) <==> GapBar(g, row, b); }
  }

  lemma CommitKeepsStreams(grids: Grids, s: State, a: Action, k: string)
    requires GridsWf(grids) && Inv(grids, s) && a.Commit? && k in grids
    ensures StreamOk(grids[k], Next(grids, s, a).HistoryAt(k), Row(Next(grids, s, a).table, k))
  {
    var t, d := Next(grids, s, a), s.WorkerAt(a.w);
    assert StreamOk(grids[k], s.HistoryAt(k), Row(s.table, k));
    if d.Deciding? && Committed(grids, s.table, d, a.options).Some? {
      if k == d.job.expectation.coverageKey { CommitWritesSoundRow(grids, s, a); }
    }
  }

  /** What a commit does to the stream of any worker: nothing, or a sound row with a later version. */
  lemma CommitMovesOn(grids: Grids, s: State, a: Action, other: Worker)
    requires GridsWf(grids) && Inv(grids, s) && a.Commit? && !other.Idle?
    ensures var t, key := Next(grids, s, a), other.job.expectation.coverageKey;
            && Grows(s.HistoryAt(key), t.HistoryAt(key))
            && (Row(t.table, key) == Row(s.table, key)
                || (key in t.table && (key in s.table ==> s.table[key].version < t.table[key].version)
                    && 0 <= t.table[key].version))
  {
    var d := s.WorkerAt(a.w);
    if d.Deciding? && Committed(grids, s.table, d, a.options).Some? {
      CommitWritesSoundRow(grids, s, a);
    }
  }

  lemma CommitKeepsWorkers(grids: Grids, s: State, a: Action, w: nat)
    requires GridsWf(grids) && Inv(grids, s) && a.Commit? && w != a.w
    ensures var t := Next(grids, s, a);
            WorkerOk(grids, t.table, HistoryOf(t, t.WorkerAt(w)), t.WorkerAt(w))
  {
    var t, other := Next(grids, s, a), s.WorkerAt(w);
    assert t.WorkerAt(w) == other;
    assert WorkerOk(grids, s.table, HistoryOf(s, other), other);
    if !other.Idle? {
      CommitMovesOn(grids, s, a, other);
      WorkerOkStable(grids, s.table, t.table, HistoryOf(s, other), HistoryOf(t, other), other);
    }
  }

  lemma CommitStep(grids: Grids, s: State, a: Action)
    requires GridsWf(grids) && Inv(grids, s) && a.Commit?
    ensures Inv(grids, Next(grids, s, a))
  {
    var t := Next(grids, s, a);
    forall k | k in grids ensures StreamOk(grids[k], t.HistoryAt(k), Row(t.table, k)) {
      CommitKeepsStreams(grids, s, a, k);
    }
    forall w ensures WorkerOk(grids, t.table, HistoryOf(t, t.WorkerAt(w)), t.WorkerAt(w)) {
      if w != a.w {
        CommitKeepsWorkers(grids, s, a, w);
      } else {
        assert WorkerOk(grids, s.table, HistoryOf(s, s.WorkerAt(w)), s.WorkerAt(w));
      }
    }
    forall k | k in t.table ensures k in grids {
      if k !in s.table { assert WorkerOk(grids, s.table, HistoryOf(s, s.WorkerAt(a.w)), s.WorkerAt(a.w)); }
    }
  }

  lemma StepKeepsInvariant(grids: Grids, s: State, a: Action)
    requires GridsWf(grids) && Inv(grids, s)
    ensures Inv(grids, Next(grids, s, a))
  {
    match a
    case Plan(_, _, _, _, _, _, _) => PlanStep(grids, s, a);
    case Recover(_, _, _, _) => RecoverStep(grids, s, a);
    case Accept(_, _) => AcceptStep(grids, s, a);
    case ReadCheckpoint(_) => ReadStep(grids, s, a);
    case Commit(_, _) => CommitStep(grids, s, a);
    case Crash(_) => CrashStep(grids, s, a);
  }

  lemma CrashStep(grids: Grids, s: State, a: Action)
    requires Inv(grids, s) && a.Crash?
    ensures Inv(grids, Next(grids, s, a))
  {
    var t := Next(grids, s, a);
    forall k | k in grids ensures StreamOk(grids[k], t.HistoryAt(k), Row(t.table, k)) {
      assert StreamOk(grids[k], s.HistoryAt(k), Row(s.table, k));
    }
    forall w ensures WorkerOk(grids, t.table, HistoryOf(t, t.WorkerAt(w)), t.WorkerAt(w)) {
      if w != a.w { assert WorkerOk(grids, s.table, HistoryOf(s, s.WorkerAt(w)), s.WorkerAt(w)); }
    }
  }

  lemma {:induction false} RunInvariant(grids: Grids, actions: seq<Action>)
    requires GridsWf(grids)
    ensures Inv(grids, Run(grids, INITIAL, actions))
    decreases |actions|
  {
    if actions != [] {
      var prefix := actions[..|actions| - 1];
      RunInvariant(grids, prefix);
      StepKeepsInvariant(grids, Run(grids, INITIAL, prefix), actions[|actions| - 1]);
    }
  }

  /** Coverage soundness: in every run, `completeThrough` never certifies an eligible bar that nobody
      stored, acknowledged absent, or let fall below a committed retention floor. */
  lemma CoverageIsSound(grids: Grids, actions: seq<Action>, key: string, b: Bar)
    requires GridsWf(grids)
    requires var s := Run(grids, INITIAL, actions);
             && key in s.table && key in grids && grids[key].Eligible(b)
             && s.table[key].completeThrough.Some? && b.completes <= s.table[key].completeThrough.value
    ensures Done(Run(grids, INITIAL, actions).HistoryAt(key), b)
  {
    RunInvariant(grids, actions);
    var s := Run(grids, INITIAL, actions);
    assert StreamOk(grids[key], s.HistoryAt(key), Row(s.table, key));
    assert Claims(s.table[key], b);
  }

  /** Gap ledger: in every run, an eligible bar that starts before the end of a recorded gap and lies
      outside all recorded gaps is done, so no unobtained bar is ever forgotten between the boundary and
      the last gap. */
  lemma GapLedgerIsComplete(grids: Grids, actions: seq<Action>, key: string, b: Bar, gap: TimeRange)
    requires GridsWf(grids)
    requires var s := Run(grids, INITIAL, actions);
             && key in s.table && key in grids && grids[key].Eligible(b)
             && gap in s.table[key].missingRanges && b.start < gap.end && !Covers(s.table[key].missingRanges, b.start)
    ensures Done(Run(grids, INITIAL, actions).HistoryAt(key), b)
  {
    RunInvariant(grids, actions);
    var s := Run(grids, INITIAL, actions);
    assert StreamOk(grids[key], s.HistoryAt(key), Row(s.table, key));
    assert Claims(s.table[key], b);
  }

  /** No gap is forgotten: in every run, an eligible bar up to `sourceObservedThrough` that nobody stored, acknowledged
      absent, or let expire is in the gap ledger. */
  lemma NothingObservedIsForgotten(grids: Grids, actions: seq<Action>, key: string, b: Bar)
    requires GridsWf(grids)
    requires var s := Run(grids, INITIAL, actions);
             && key in s.table && key in grids && grids[key].Eligible(b)
             && s.table[key].sourceObservedThrough.Some? && b.completes <= s.table[key].sourceObservedThrough.value
    ensures var s := Run(grids, INITIAL, actions);
            Done(s.HistoryAt(key), b) || Covers(s.table[key].missingRanges, b.start)
  {
    RunInvariant(grids, actions);
    var s := Run(grids, INITIAL, actions);
    assert StreamOk(grids[key], s.HistoryAt(key), Row(s.table, key));
    if !Covers(s.table[key].missingRanges, b.start) { assert Observed(s.table[key], b); }
  }

  /** What a commit writes, whatever the state: the whole proposal under the version that follows the row, its ledger
      covering exactly the bars past the boundary that the worker neither served nor acknowledged; and no other row. */
  lemma CommitRecordsGaps(grids: Grids, s: State, a: Action)
    requires a.Commit? && s.WorkerAt(a.w).Deciding? && Committed(grids, s.table, s.WorkerAt(a.w), a.options).Some?
    requires GridsWf(grids)
    ensures var d, t := s.WorkerAt(a.w), Next(grids, s, a);
            var key := d.job.expectation.coverageKey;
            var have := d.starts + d.absences;
            && key in grids && key in t.table
            && Fits(Row(s.table, key), d.job.expectation.expectedVersion, t.table[key])
            && Follows(Row(s.table, key), Proposal(d.job, grids[key], a.options, d.existing, have), t.table[key])
            && LedgerOf(t.table[key], ThroughOf(d.existing), Expected(grids[key], d.job.requestedRange), have)
            && forall other :: other != key ==> Row(t.table, other) == Row(s.table, other)
  {
    var d := s.WorkerAt(a.w);
    ProposalRecordsGaps(d.job, grids[d.job.expectation.coverageKey], a.options, d.existing, d.starts + d.absences);
  }

  /** In a reachable state a commit whose absences fit never throws, and it is refused only when the
      version (or the existence) of the row changed since planning. */
  lemma CommitRefusedOnlyByVersion(grids: Grids, actions: seq<Action>, w: nat, options: Options)
    requires GridsWf(grids)
    requires var s := Run(grids, INITIAL, actions);
             var d := s.WorkerAt(w);
             d.Deciding? && d.job.expectation.coverageKey in grids
             && AbsencesFit(Expected(grids[d.job.expectation.coverageKey], d.job.requestedRange), d.absences, d.starts)
    ensures var s := Run(grids, INITIAL, actions);
            var d := s.WorkerAt(w);
            var row := Row(s.table, d.job.expectation.coverageKey);
            Committed(grids, s.table, d, options).Some?
            <==> (match d.job.expectation.expectedVersion
                  case None => row.None?
                  case Some(v) => row.Some? && row.value.version == v)
  {
    RunInvariant(grids, actions);
    var s := Run(grids, INITIAL, actions);
    var d := s.WorkerAt(w);
    assert WorkerOk(grids, s.table, HistoryOf(s, d), d);
    var g, have := grids[d.job.expectation.coverageKey], d.starts + d.absences;
    ProposalAdmissible(d.job, g, options, d.existing, have);
    AlignedHasNoStraddlers(g, d.existing, d.job.requestedRange, have);
  }

  /** A boundary on a bar completion is straddled by no bar. */
  lemma AlignedHasNoStraddlers(g: Grid, existing: Option<StoredCheckpoint>, range: TimeRange, have: set<Instant>)
    requires g.Wf() && (existing.Some? ==> Shaped(g, existing.value))
    ensures StraddlersServed(ThroughOf(existing), Expected(g, range), have)
  {
    ExpectedSpec(g, range);
    if existing.Some? && existing.value.completeThrough.Some? {
      var e :| g.Eligible(e) && e.completes == existing.value.completeThrough.value;
      EligibleNonEmpty(g, e);
      forall b | b in Expected(g, range) ensures !(b.start < e.completes < b.completes) { EligibleDisjoint(g, b, e); }
    }
  }
}
