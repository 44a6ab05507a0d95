/** One tick of planning: a job for each instrument that is due. */
module Planner {
  import opened Market
  import opened Counting
  import opened Ordering
  import opened SessionGrid
  import opened Checkpoint
  import opened Schedule
  import opened PlannedWindows

  datatype Universe = Universe(revision: string, instruments: seq<Instrument>)

  /** The configuration with its two per-instrument choices. */
  datatype Policy = Policy(config: Config, logicalDataVariant: Instrument -> string,
                           sessionScopeFor: Instrument -> Option<SessionScope>)
  {
    function ScopeOf(instrument: Instrument): Result<SessionScope> {
      if instrument.route == CryptoBars then Ok(AllTrading)
      else
        var configured := sessionScopeFor(instrument);
        var scope := if configured.Some? then configured.value else RegularScope;
        if scope == AllTrading then Err(InvalidScope) else Ok(scope)
    }
  }

  /** The jobs one instrument contributes: none or one. */
  function InstrumentJobs(policy: Policy, universe: Universe, calendar: Calendar, checkpoints: Table, now: Instant,
                          instrument: Instrument): seq<Job>
    requires policy.ScopeOf(instrument).Ok?
  {
    var scope := policy.ScopeOf(instrument).value;
    var variant := policy.logicalDataVariant(instrument);
    var key := CoverageKeyFor(instrument, scope, variant);
    var checkpoint := Row(checkpoints, key);
    var window := PlanWindow(policy.config, GridFor(instrument, scope, calendar), checkpoint, now);
    if window.None? then []
    else
      var w := window.value;
      [Job(MarketBarsJob(universe.revision, calendar.revision, key, w.range, w.mode), now, universe.revision,
           calendar.revision, instrument, w.range, scope, w.mode, variant,
           Expectation(key, if checkpoint.Some? then Some(checkpoint.value.version) else None,
                       if checkpoint.Some? then checkpoint.value.completeThrough else None), w.dueReason)]
  }

  function PlannedJobs(policy: Policy, universe: Universe, calendar: Calendar, checkpoints: Table, now: Instant,
                       instruments: seq<Instrument>): seq<Job>
    requires forall i :: 0 <= i < |instruments| ==> policy.ScopeOf(instruments[i]).Ok?
  {
    if instruments == [] then []
    else PlannedJobs(policy, universe, calendar, checkpoints, now, instruments[..|instruments| - 1])
         + InstrumentJobs(policy, universe, calendar, checkpoints, now, instruments[|instruments| - 1])
  }

  // What the jobs of a tick are.

  /** The scope an instrument is acquired under: crypto trades all the time, an equity in the configured session kind,
      the Regular one by default. */
  predicate ScopeIs(policy: Policy, instrument: Instrument, scope: SessionScope) {
    if instrument.route == CryptoBars then scope == AllTrading
    else scope != AllTrading && (policy.sessionScopeFor(instrument) == Some(scope)
                                 || (policy.sessionScopeFor(instrument).None? && scope == RegularScope))
  }

  /** The job expects the row it was planned from: none, or its version and boundary. */
  predicate Expects(e: Expectation, key: string, row: Option<StoredCheckpoint>) {
    && e.coverageKey == key && e.observedCompleteThrough == ThroughOf(row)
    && (e.expectedVersion.None? <==> row.None?) && (row.Some? ==> e.expectedVersion == Some(row.value.version))
  }

  /** `job` is the job of an instrument that is due: it covers the window for the row under the instrument's key. */
  ghost predicate JobOf(policy: Policy, universe: Universe, calendar: Calendar, checkpoints: Table, now: Instant,
                        instrument: Instrument, job: Job) {
    var key := CoverageKeyFor(instrument, job.sessionScope, job.logicalDataVariant);
    var g := Grid(instrument.cadence, instrument.route, job.sessionScope, calendar.sessions);
    var boundary := LatestBoundary(g, now, policy.config.finalizationLagMs.Of(instrument.cadence));
    && job.instrument == instrument && ScopeIs(policy, instrument, job.sessionScope)
    && job.logicalDataVariant == policy.logicalDataVariant(instrument)
    && job.createdAt == now && job.universeRevision == universe.revision && job.calendarRevision == calendar.revision
    && job.jobId == MarketBarsJob(universe.revision, calendar.revision, key, job.requestedRange, job.mode)
    && Expects(job.expectation, key, Row(checkpoints, key))
    && boundary.Some? && policy.config.retentionFloor < boundary.value
    && WindowFor(policy.config, g, Row(checkpoints, key), boundary.value,
                 Window(job.requestedRange, job.mode, job.dueReason))
  }

  lemma ScopeIsConfigured(policy: Policy, instrument: Instrument)
    ensures forall scope :: policy.ScopeOf(instrument) == Ok(scope) <==> ScopeIs(policy, instrument, scope)
    ensures policy.ScopeOf(instrument).Err?
       <==> instrument.route == StockBars && policy.sessionScopeFor(instrument) == Some(AllTrading)
  {
  }

  /** An instrument contributes the job it is due for, and nothing else. */
  lemma InstrumentJobsAre(policy: Policy, universe: Universe, calendar: Calendar, checkpoints: Table, now: Instant,
                          instrument: Instrument)
    requires WellFormedSessions(calendar.sessions) && ValidConfig(policy.config) && policy.ScopeOf(instrument).Ok?
    ensures var jobs := InstrumentJobs(policy, universe, calendar, checkpoints, now, instrument);
            && |jobs| <= 1
            && forall job :: job in jobs <==> JobOf(policy, universe, calendar, checkpoints, now, instrument, job)
  {
    var scope := policy.ScopeOf(instrument).value;
    var g, key := GridFor(instrument, scope, calendar),
                  CoverageKeyFor(instrument, scope, policy.logicalDataVariant(instrument));
    ScopeIsConfigured(policy, instrument);
    forall w: Window { PlannedWindowIs(policy.config, g, Row(checkpoints, key), now, w); }
    forall job ensures job in InstrumentJobs(policy, universe, calendar, checkpoints, now, instrument)
                       <==> JobOf(policy, universe, calendar, checkpoints, now, instrument, job)
    {
      PlannedWindowIs(policy.config, g, Row(checkpoints, key), now,
                      Window(job.requestedRange, job.mode, job.dueReason));
    }
  }

  ghost predicate Due(policy: Policy, universe: Universe, calendar: Calendar, checkpoints: Table, now: Instant,
                      instrument: Instrument) {
    exists job :: JobOf(policy, universe, calendar, checkpoints, now, instrument, job)
  }

  ghost function IsDue(policy: Policy, universe: Universe, calendar: Calendar, checkpoints: Table,
                       now: Instant): Instrument -> bool {
    (instrument: Instrument) => Due(policy, universe, calendar, checkpoints, now, instrument)
  }

  ghost predicate JobOfSome(policy: Policy, universe: Universe, calendar: Calendar, checkpoints: Table, now: Instant,
                            instruments: seq<Instrument>, job: Job) {
    exists i :: 0 <= i < |instruments| && JobOf(policy, universe, calendar, checkpoints, now, instruments[i], job)
  }

  lemma JobOfSomeAppend(policy: Policy, universe: Universe, calendar: Calendar, checkpoints: Table, now: Instant,
                        instruments: seq<Instrument>, job: Job)
    requires instruments != []
    ensures var n := |instruments| - 1;
            JobOfSome(policy, universe, calendar, checkpoints, now, instruments, job)
            <==> JobOfSome(policy, universe, calendar, checkpoints, now, instruments[..n], job)
                 || JobOf(policy, universe, calendar, checkpoints, now, instruments[n], job)
  {
    var n := |instruments| - 1;
    var front := instruments[..n];
    if JobOfSome(policy, universe, calendar, checkpoints, now, front, job) {
      var i :| 0 <= i < n && JobOf(policy, universe, calendar, checkpoints, now, front[i], job);
      assert instruments[i] == front[i];
    }
    if JobOfSome(policy, universe, calendar, checkpoints, now, instruments, job) {
      var i :| 0 <= i <= n && JobOf(policy, universe, calendar, checkpoints, now, instruments[i], job);
      if i < n { assert front[i] == instruments[i]; }
    }
  }

  lemma {:induction false} PlannedJobsAre(policy: Policy, universe: Universe, calendar: Calendar, checkpoints: Table,
                                          now: Instant, instruments: seq<Instrument>)
    requires WellFormedSessions(calendar.sessions) && ValidConfig(policy.config)
    requires forall i :: 0 <= i < |instruments| ==> policy.ScopeOf(instruments[i]).Ok?
    ensures var jobs := PlannedJobs(policy, universe, calendar, checkpoints, now, instruments);
            forall job :: job in jobs
              <==> JobOfSome(policy, universe, calendar, checkpoints, now, instruments, job)
    decreases |instruments|
  {
    if instruments != [] {
      var n := |instruments| - 1;
      PlannedJobsAre(policy, universe, calendar, checkpoints, now, instruments[..n]);
      InstrumentJobsAre(policy, universe, calendar, checkpoints, now, instruments[n]);
      forall job { JobOfSomeAppend(policy, universe, calendar, checkpoints, now, instruments, job); }
    }
  }

  lemma {:induction false} PlannedJobsCount(policy: Policy, universe: Universe, calendar: Calendar, checkpoints: Table,
                                            now: Instant, instruments: seq<Instrument>)
    requires WellFormedSessions(calendar.sessions) && ValidConfig(policy.config)
    requires forall i :: 0 <= i < |instruments| ==> policy.ScopeOf(instruments[i]).Ok?
    ensures |PlannedJobs(policy, universe, calendar, checkpoints, now, instruments)|
         == Count(instruments, IsDue(policy, universe, calendar, checkpoints, now))
    decreases |instruments|
  {
    if instruments != [] {
      var n := |instruments| - 1;
      PlannedJobsCount(policy, universe, calendar, checkpoints, now, instruments[..n]);
      OneJobIfDue(policy, universe, calendar, checkpoints, now, instruments[n]);
    }
  }

  lemma OneJobIfDue(policy: Policy, universe: Universe, calendar: Calendar, checkpoints: Table, now: Instant,
                    instrument: Instrument)
    requires WellFormedSessions(calendar.sessions) && ValidConfig(policy.config) && policy.ScopeOf(instrument).Ok?
    ensures |InstrumentJobs(policy, universe, calendar, checkpoints, now, instrument)|
         == if Due(policy, universe, calendar, checkpoints, now, instrument) then 1 else 0
  {
    var jobs := InstrumentJobs(policy, universe, calendar, checkpoints, now, instrument);
    InstrumentJobsAre(policy, universe, calendar, checkpoints, now, instrument);
    if jobs != [] { assert jobs[0] in jobs; }
  }

  /** The guarantees every emitted job carries. */
  ghost predicate BoundedAndFinal(config: Config, calendar: Calendar, now: Instant, job: Job) {
    var g := GridFor(job.instrument, job.sessionScope, calendar);
    var range := job.requestedRange;
    && config.retentionFloor <= range.start < range.end
    && range.end <= now - config.finalizationLagMs.Of(g.cadence)
    && (g.IntradayEquity() ==> exists s :: s in g.sessions && InScope(s.kind, g.scope)
                                 && s.opensAt <= range.start && range.end <= s.closesAt)
    && (!g.DailyEquity() ==> |Expected(g, range)| <= config.maxBarsPerJob)
  }

  lemma InstrumentJobsBounded(policy: Policy, universe: Universe, calendar: Calendar, checkpoints: Table, now: Instant,
                              instrument: Instrument)
    requires WellFormedSessions(calendar.sessions) && ValidConfig(policy.config) && policy.ScopeOf(instrument).Ok?
    ensures forall job :: job in InstrumentJobs(policy, universe, calendar, checkpoints, now, instrument)
              ==> BoundedAndFinal(policy.config, calendar, now, job)
  {
    var g := GridFor(instrument, policy.ScopeOf(instrument).value, calendar);
    var key := CoverageKeyFor(instrument, policy.ScopeOf(instrument).value, policy.logicalDataVariant(instrument));
    if PlanWindow(policy.config, g, Row(checkpoints, key), now).Some? {
      PlannedWindowIsBoundedAndFinal(policy.config, g, Row(checkpoints, key), now);
    }
  }

  lemma {:induction false} PlannedJobsBounded(policy: Policy, universe: Universe, calendar: Calendar,
                                              checkpoints: Table,
                                              now: Instant, instruments: seq<Instrument>)
    requires WellFormedSessions(calendar.sessions) && ValidConfig(policy.config)
    requires forall i :: 0 <= i < |instruments| ==> policy.ScopeOf(instruments[i]).Ok?
    ensures forall job :: job in PlannedJobs(policy, universe, calendar, checkpoints, now, instruments)
              ==> BoundedAndFinal(policy.config, calendar, now, job)
    decreases |instruments|
  {
    if instruments != [] {
      var n := |instruments| - 1;
      PlannedJobsBounded(policy, universe, calendar, checkpoints, now, instruments[..n]);
      InstrumentJobsBounded(policy, universe, calendar, checkpoints, now, instruments[n]);
    }
  }

  lemma PlannedJobsStep(policy: Policy, universe: Universe, calendar: Calendar, checkpoints: Table,
                        now: Instant, instruments: seq<Instrument>, i: nat)
    requires i < |instruments| && forall k :: 0 <= k <= i ==> policy.ScopeOf(instruments[k]).Ok?
    ensures PlannedJobs(policy, universe, calendar, checkpoints, now, instruments[..i + 1])
         == PlannedJobs(policy, universe, calendar, checkpoints, now, instruments[..i])
            + InstrumentJobs(policy, universe, calendar, checkpoints, now, instruments[i])
  {
    assert instruments[..i + 1][..i] == instruments[..i];
  }

  /** The loop over the instruments. */
  method PlanInstruments(policy: Policy, universe: Universe, calendar: Calendar, checkpoints: Table, now: Instant)
    returns (result: Result<seq<Job>>)
    ensures result.Ok? <==> forall i :: 0 <= i < |universe.instruments| ==> policy.ScopeOf(universe.instruments[i]).Ok?
    ensures result.Ok? ==>
              result.value == PlannedJobs(policy, universe, calendar, checkpoints, now, universe.instruments)
    ensures result.Err? ==> result.error == InvalidScope
  {
    var jobs: seq<Job> := [];
    var instruments := universe.instruments;
    for i := 0 to |instruments|
      invariant forall k :: 0 <= k < i ==> policy.ScopeOf(instruments[k]).Ok?
      invariant jobs == PlannedJobs(policy, universe, calendar, checkpoints, now, instruments[..i])
    {
      var scope := policy.ScopeOf(instruments[i]);
      if scope.Err? { return Err(scope.error); }
      PlannedJobsStep(policy, universe, calendar, checkpoints, now, instruments, i);
      jobs := jobs + InstrumentJobs(policy, universe, calendar, checkpoints, now, instruments[i]);
    }
    assert instruments[..|instruments|] == instruments;
    result := Ok(jobs);
  }

  /** Jobs compared by the collation of their ids. */
  function ById(collation: (JobId, JobId) -> bool): (Job, Job) -> bool {
    (a: Job, b: Job) => collation(a.jobId, b.jobId)
  }

  lemma IdOrder(collation: (JobId, JobId) -> bool)
    requires TotalPreorder(collation)
    ensures TotalPreorder(ById(collation))
  {
    forall a, b ensures ById(collation)(a, b) || ById(collation)(b, a) {
      assert collation(a.jobId, b.jobId) || collation(b.jobId, a.jobId);
    }
    forall a, b, c | ById(collation)(a, b) && ById(collation)(b, c) ensures ById(collation)(a, c) {
      assert collation(a.jobId, b.jobId) && collation(b.jobId, c.jobId);
    }
  }

  /** What holds of every planned job holds of every job of the sorted plan. */
  lemma SortedPlan(config: Config, calendar: Calendar, now: Instant, collation: (JobId, JobId) -> bool, jobs: seq<Job>)
    requires TotalPreorder(collation) && forall job :: job in jobs ==> BoundedAndFinal(config, calendar, now, job)
    ensures SortedBy(ById(collation), SortBy(ById(collation), jobs))
    ensures multiset(SortBy(ById(collation), jobs)) == multiset(jobs)
    ensures forall job :: job in SortBy(ById(collation), jobs) ==> BoundedAndFinal(config, calendar, now, job)
  {
    IdOrder(collation);
    SortOrders(ById(collation), jobs);
    SortKeeps(ById(collation), jobs);
  }

  /** Planning one tick: validate, collect, and sort by job id. */
  method Plan(policy: Policy, universe: Universe, calendar: Calendar, checkpoints: Table, now: Instant,
              collation: (JobId, JobId) -> bool)
    returns (result: Result<seq<Job>>)
    requires WellFormedSessions(calendar.sessions) && TotalPreorder(collation)
    ensures result.Ok? <==>
              && ValidConfig(policy.config)
              && forall i :: 0 <= i < |universe.instruments| ==> policy.ScopeOf(universe.instruments[i]).Ok?
    ensures result.Ok? ==>
              && SortedBy(ById(collation), result.value)
              && multiset(result.value)
                 == multiset(PlannedJobs(policy, universe, calendar, checkpoints, now, universe.instruments))
    ensures result.Ok? ==> forall job :: job in result.value ==> BoundedAndFinal(policy.config, calendar, now, job)
    ensures result.Ok? ==>
              && |result.value| == Count(universe.instruments, IsDue(policy, universe, calendar, checkpoints, now))
              && forall job :: job in result.value
                   <==> JobOfSome(policy, universe, calendar, checkpoints, now, universe.instruments, job)
    ensures result.Err? ==> result.error == if ValidConfig(policy.config) then InvalidScope else InvalidPolicy
  {
    if !ValidConfig(policy.config) { return Err(InvalidPolicy); }
    var planned := PlanInstruments(policy, universe, calendar, checkpoints, now);
    if planned.Err? { return planned; }
    PlannedJobsBounded(policy, universe, calendar, checkpoints, now, universe.instruments);
    PlannedJobsAre(policy, universe, calendar, checkpoints, now, universe.instruments);
    PlannedJobsCount(policy, universe, calendar, checkpoints, now, universe.instruments);
    SortedPlan(policy.config, calendar, now, collation, planned.value);
    SortKeeps(ById(collation), planned.value);
    assert |SortBy(ById(collation), planned.value)| == |multiset(planned.value)|;
    result := Ok(SortBy(ById(collation), planned.value));
  }
}
