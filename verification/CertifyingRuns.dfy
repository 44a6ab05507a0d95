/** Runs that certify something: one worker, one crypto stream, its first minute. */
module CertifyingRuns {
  import opened Market
  import opened SessionGrid
  import opened Checkpoint
  import opened Schedule
  import opened Planner
  import opened BarNormalization
  import opened BarStore
  import opened Execution
  import opened Tallies
  import opened Executor
  import Protocol = CoverageProtocol
  import Store = BarStoreSafety
  import StoredCoverage

  function Coin(): Instrument { Instrument("B", OneMin, CryptoBars) }

  function CoinGrid(): Grid { Grid(OneMin, CryptoBars, AllTrading, []) }

  function CoinPolicy(): Policy {
    Policy(Config(0, PerCadence(60_000, 900_000, 86_400_000), PerCadence(0, 0, 0), 2),
           (instrument: Instrument) => "v", (instrument: Instrument) => None)
  }

  /** The job of the first minute of the stream `key`. */
  ghost predicate FirstMinute(job: Job, key: string) {
    && job.requestedRange == TimeRange(0, 60_000) && job.instrument == Coin() && key != ""
    && job.expectation.coverageKey == key && job.expectation.expectedVersion == None
  }

  lemma CoinJob(universe: Universe, calendar: Calendar, key: string) returns (job: Job)
    requires calendar.sessions == [] && key == CoverageKeyFor(Coin(), AllTrading, "v")
    ensures InstrumentJobs(CoinPolicy(), universe, calendar, map[], 60_000, Coin()) == [job] && FirstMinute(job, key)
    ensures GridFor(Coin(), AllTrading, calendar) == CoinGrid()
  {
    assert LatestBoundary(CoinGrid(), 60_000, 0) == Some(60_000);
    assert |key| > 0;
    job := InstrumentJobs(CoinPolicy(), universe, calendar, map[], 60_000, Coin())[0];
  }

  lemma CoinExpected(g: Grid)
    requires g == CoinGrid()
    ensures Expected(g, TimeRange(0, 60_000)) == [Bar(0, 60_000)] && g.Eligible(Bar(0, 60_000))
  {
    assert Steps(60_000, 60_000, 60_000) == [];
  }

  /** With one expected bar, served, everything is complete up to its end. */
  lemma OneBarServed(bars: seq<Bar>, bar: Bar, have: set<Instant>)
    requires bars == [bar] && bar.start in have && bar.start < bar.completes
    ensures Unserved(None, bars, have) == [] && Advance(None, bars, have) == Some(bar.completes)
  {
    AllServed(None, bars, have);
  }

  /** So the proposal certifies it. */
  lemma OneBarProposal(job: Job, g: Grid, options: Options, have: set<Instant>, bar: Bar)
    requires g.Wf() && job.expectation.coverageKey != "" && job.instrument.symbol != ""
    requires Expected(g, job.requestedRange) == [bar] && bar.start in have && bar.start < bar.completes
    ensures var p := Proposal(job, g, options, None, have);
            ValidProposal(p) && p.completeThrough == Some(bar.completes)
  {
    OneBarServed(Expected(g, job.requestedRange), bar, have);
    NothingUnserved(job, g, options, None, have);
    ProposalAdmissible(job, g, options, None, have);
  }

  lemma ReadsNothing(grids: Protocol.Grids, s: Protocol.State, job: Job, key: string)
    requires s.table == map[] && FirstMinute(job, key)
    requires s.WorkerAt(0) == Protocol.Fetching(job, Some(0), {}, {0})
    ensures var read := Protocol.Next(grids, s, Protocol.ReadCheckpoint(0));
            read.WorkerAt(0) == Protocol.Deciding(job, Some(0), {}, {0}, None) && read.table == map[]
  {
  }

  lemma DecidedCommits(grids: Protocol.Grids, s: Protocol.State, job: Job, key: string, options: Options)
    requires key in grids && s.table == map[] && FirstMinute(job, key)
    requires s.WorkerAt(0) == Protocol.Deciding(job, Some(0), {}, {0}, None)
    requires var p := Proposal(job, grids[key], options, None, {0} + {});
             ValidProposal(p) && p.completeThrough == Some(60_000)
    ensures var t := Protocol.Next(grids, s, Protocol.Commit(0, options));
            key in t.table && t.table[key].completeThrough == Some(60_000)
  {
    assert AbsencesFit(Expected(grids[key], job.requestedRange), {}, {0});
  }

  /** A worker that has served its only bar reads and commits: the row is certified. */
  lemma CommitCertifies(grids: Protocol.Grids, s: Protocol.State, job: Job, key: string, options: Options, bar: Bar)
    requires key in grids && grids[key].Wf() && s.table == map[] && FirstMinute(job, key)
    requires Expected(grids[key], job.requestedRange) == [bar] && bar == Bar(0, 60_000)
    requires s.WorkerAt(0) == Protocol.Fetching(job, Some(0), {}, {0})
    ensures var read := Protocol.Next(grids, s, Protocol.ReadCheckpoint(0));
            var t := Protocol.Next(grids, read, Protocol.Commit(0, options));
            key in t.table && t.table[key].completeThrough == Some(60_000)
  {
    ReadsNothing(grids, s, job, key);
    OneBarProposal(job, grids[key], options, {0} + {}, bar);
    DecidedCommits(grids, Protocol.Next(grids, s, Protocol.ReadCheckpoint(0)), job, key, options);
  }

  lemma RunSnoc(grids: Protocol.Grids, actions: seq<Protocol.Action>, a: Protocol.Action)
    ensures Protocol.Run(grids, Protocol.INITIAL, actions + [a])
         == Protocol.Next(grids, Protocol.Run(grids, Protocol.INITIAL, actions), a)
  {
    assert (actions + [a])[..|actions|] == actions;
  }

  lemma PlanStarts(grids: Protocol.Grids, universe: Universe, calendar: Calendar, key: string) returns (job: Job)
    requires calendar.sessions == [] && key == CoverageKeyFor(Coin(), AllTrading, "v")
    requires key in grids && grids[key] == CoinGrid()
    ensures FirstMinute(job, key)
    ensures Protocol.Next(grids, Protocol.INITIAL,
                          Protocol.Plan(0, CoinPolicy(), universe, calendar, 60_000, Coin(), {}))
         == Protocol.INITIAL.(workers := map[0 := Protocol.Fetching(job, Some(0), {}, {})])
  {
    job := CoinJob(universe, calendar, key);
  }

  /** Planning, accepting, reading and committing take the empty protocol to a certified row. */
  lemma CertifyingRun(universe: Universe, calendar: Calendar, options: Options, grids: Protocol.Grids, key: string)
    returns (actions: seq<Protocol.Action>)
    requires calendar.sessions == [] && key == CoverageKeyFor(Coin(), AllTrading, "v")
    requires grids == map[key := CoinGrid()]
    ensures Protocol.GridsWf(grids) && grids[key].Eligible(Bar(0, 60_000))
    ensures var s := Protocol.Run(grids, Protocol.INITIAL, actions);
            key in s.table && s.table[key].completeThrough == Some(60_000)
  {
    var plan := Protocol.Plan(0, CoinPolicy(), universe, calendar, 60_000, Coin(), {});
    var job := PlanStarts(grids, universe, calendar, key);
    CoinExpected(CoinGrid());
    RunSnoc(grids, [], plan);
    actions := [] + [plan];
    RunSnoc(grids, actions, Protocol.Accept(0, {0}));
    actions := actions + [Protocol.Accept(0, {0})];
    var s := Protocol.Run(grids, Protocol.INITIAL, actions);
    assert {} + {0} == {0};
    assert s.WorkerAt(0) == Protocol.Fetching(job, Some(0), {}, {0}) && s.table == map[];
    CommitCertifies(grids, s, job, key, options, Bar(0, 60_000));
    RunSnoc(grids, actions, Protocol.ReadCheckpoint(0));
    actions := actions + [Protocol.ReadCheckpoint(0)];
    RunSnoc(grids, actions, Protocol.Commit(0, options));
    actions := actions + [Protocol.Commit(0, options)];
  }

  // The same over the tables.

  /** The one bar of the page, and the row it becomes. */
  function CoinBar(): SourceBar { SourceBar("B", Some(0), "1", None, "crypto:us") }

  ghost predicate CoinRow(row: Row) {
    && row.candidate.Normalized? && row.candidate.bar.barStart == 0
    && row.Identity() == Some(IdentityFor(row.candidate.bar))
  }

  lemma CoinPage(job: Job, g: Grid, options: Options, key: string) returns (row: Row)
    requires FirstMinute(job, key) && g == CoinGrid() && options.attemptId != ""
    ensures PageRows(job, g, options, 1, [CoinBar()]) == [row] && CoinRow(row)
  {
    row := PageRows(job, g, options, 1, [CoinBar()])[0];
    assert row.candidate == Normalize(CoinBar(), job.instrument.symbol, g, options.dates);
  }

  /** The statements of a batch of one new bar, one after the other. */
  lemma OneRowReserved(row: Row)
    ensures var s := Store.Next(Store.INITIAL, Store.Begin(0, [row]));
            && s.At(0) == Store.Reserved([row]) && s.db.canonical == map[] && s.db.conflicts == map[]
            && row.key in s.db.receipts && s.db.receipts[row.key] == FreshReceipt(row)
  {
    assert ReserveAll(map[], []) == map[] && [row][..0] == [];
  }

  /** The row is reserved and its bar, inserted by this batch, is the only one in the table. */
  ghost predicate OneRowInserted(s: Store.State, row: Row) {
    && CoinRow(row) && row.key in s.db.receipts && s.db.receipts[row.key] == FreshReceipt(row)
    && var identity := IdentityFor(row.candidate.bar);
       && s.db.canonical == map[identity := Canonical(row.candidate.bar, row.Fingerprint(), 1, row.retrievedAt)]
       && (s.At(0).BarsInserted? || s.At(0).StoredRead? || s.At(0).ConflictsRecorded?)
       && s.At(0).rows == [row] && s.At(0).mine == {identity}
       && (!s.At(0).BarsInserted? ==> s.At(0).stored == s.db.canonical)
  }

  lemma OneRowChecks(s: Store.State, row: Row)
    requires s.At(0) == Store.Reserved([row]) && s.db.canonical == map[]
    requires row.key in s.db.receipts && s.db.receipts[row.key] == FreshReceipt(row)
    ensures NoMismatch(s.db, [row])
    ensures var t := Store.Next(s, Store.Check(0)); t.At(0) == Store.Checked([row]) && t.db == s.db
  {
  }

  lemma OneRowInserts(s: Store.State, row: Row)
    requires CoinRow(row) && s.At(0) == Store.Checked([row]) && s.db.canonical == map[]
    requires row.key in s.db.receipts && s.db.receipts[row.key] == FreshReceipt(row)
    ensures OneRowInserted(Store.Next(s, Store.InsertBars(0)), row)
    ensures Store.Next(s, Store.InsertBars(0)).At(0).BarsInserted?
  {
    var identity := IdentityFor(row.candidate.bar);
    assert [row][..0] == [] && CanonicalAfter(map[], []) == map[];
    assert CanonicalAfter(s.db.canonical, [row]).Keys == {identity};
  }

  lemma OneRowReads(s: Store.State, row: Row)
    requires OneRowInserted(s, row) && s.At(0).BarsInserted?
    ensures OneRowInserted(Store.Next(s, Store.ReadStored(0)), row)
    ensures Store.Next(s, Store.ReadStored(0)).At(0).StoredRead?
  {
    assert [row][0] == row;
    assert Store.ReadFor(s.db.canonical, [row]) == s.db.canonical;
  }

  lemma OneRowConflicts(s: Store.State, row: Row)
    requires OneRowInserted(s, row) && s.At(0).StoredRead?
    ensures OneRowInserted(Store.Next(s, Store.RecordConflicts(0)), row)
    ensures Store.Next(s, Store.RecordConflicts(0)).At(0).ConflictsRecorded?
  {
  }

  lemma OneRowFinishes(s: Store.State, row: Row)
    requires OneRowInserted(s, row) && s.At(0).ConflictsRecorded?
    ensures var t := Store.Next(s, Store.Finish(0)); t.At(0).Idle? && ServedStarts(t.db, [row]) == {0}
  {
    var t := Store.Next(s, Store.Finish(0));
    var phase := s.At(0);
    Store.FinishAllAt(s.db, [row], phase.mine, phase.stored, 1, 0);
    assert [row][0] == row && Store.OutcomeOf([row], phase.mine, phase.stored, 0) == Inserted;
    assert Served(t.db, [row][0]);
  }

  lemma ExtendRun(m: StoredCoverage.Setting, actions: seq<StoredCoverage.Action>, a: StoredCoverage.Action)
    ensures StoredCoverage.Run(m, actions + [a]) == StoredCoverage.Next(m, StoredCoverage.Run(m, actions), a)
  {
    assert (actions + [a])[..|actions|] == actions;
  }

  /** One more statement of worker 0. */
  lemma Execute(m: StoredCoverage.Setting, before: seq<StoredCoverage.Action>, a: Store.Action)
    returns (actions: seq<StoredCoverage.Action>)
    requires var s := StoredCoverage.Run(m, before);
             && !a.Begin? && !a.Crash? && a.w == 0 && 0 in s.batches
             && (a.Check? && s.store.At(0).Reserved? ==> NoMismatch(s.store.db, s.store.At(0).rows))
    ensures var s := StoredCoverage.Run(m, before);
            StoredCoverage.Run(m, actions) == s.(store := Store.Next(s.store, a))
  {
    ExtendRun(m, before, StoredCoverage.Statement(a));
    actions := before + [StoredCoverage.Statement(a)];
  }

  /** The five statements after the reservation, on any run that has come so far. */
  lemma StatementsServe(m: StoredCoverage.Setting, before: seq<StoredCoverage.Action>, row: Row)
    returns (actions: seq<StoredCoverage.Action>)
    requires CoinRow(row)
    requires var s := StoredCoverage.Run(m, before);
             && s.store == Store.Next(Store.INITIAL, Store.Begin(0, [row]))
             && 0 in s.batches && s.batches[0] == [row]
    ensures var s, t := StoredCoverage.Run(m, before), StoredCoverage.Run(m, actions);
            && t == s.(store := t.store) && t.store.At(0).Idle? && ServedStarts(t.store.db, [row]) == {0}
  {
    OneRowReserved(row);
    OneRowChecks(StoredCoverage.Run(m, before).store, row);
    actions := Execute(m, before, Store.Check(0));
    OneRowInserts(StoredCoverage.Run(m, actions).store, row);
    actions := Execute(m, actions, Store.InsertBars(0));
    OneRowReads(StoredCoverage.Run(m, actions).store, row);
    actions := Execute(m, actions, Store.ReadStored(0));
    OneRowConflicts(StoredCoverage.Run(m, actions).store, row);
    actions := Execute(m, actions, Store.RecordConflicts(0));
    OneRowFinishes(StoredCoverage.Run(m, actions).store, row);
    actions := Execute(m, actions, Store.Finish(0));
  }

  /** The setting of the one stream: its key names the symbol, its pages carry one variant. */
  function CoinSetting(key: string): StoredCoverage.Setting {
    StoredCoverage.Setting(map[key := CoinGrid()], (k: string) => "B",
                           (k: string, variant: string) => variant == "crypto:us")
  }

  /** Planned, and the page has arrived. */
  lemma PageArrives(m: StoredCoverage.Setting, universe: Universe, calendar: Calendar, options: Options, key: string)
    returns (actions: seq<StoredCoverage.Action>, job: Job, row: Row)
    requires calendar.sessions == [] && key == CoverageKeyFor(Coin(), AllTrading, "v") && m == CoinSetting(key)
    requires options.attemptId != ""
    ensures FirstMinute(job, key) && CoinRow(row)
    ensures var s := StoredCoverage.Run(m, actions);
            && s.cov == Protocol.INITIAL.(workers := map[0 := Protocol.Fetching(job, Some(0), {}, {})])
            && s.store == Store.Next(Store.INITIAL, Store.Begin(0, [row]))
            && s.batches == map[0 := [row]]
  {
    var plan := Protocol.Plan(0, CoinPolicy(), universe, calendar, 60_000, Coin(), {});
    var begin := StoredCoverage.Begin(0, options, 1, [CoinBar()]);
    job := PlanStarts(m.grids, universe, calendar, key);
    row := CoinPage(job, m.grids[key], options, key);
    ExtendRun(m, [], StoredCoverage.Cover(plan));
    actions := [] + [StoredCoverage.Cover(plan)];
    ExtendRun(m, actions, begin);
    actions := actions + [begin];
  }

  /** The page is accepted, statement by statement, and its outcome read back. */
  lemma PageServed(m: StoredCoverage.Setting, before: seq<StoredCoverage.Action>, job: Job, row: Row)
    returns (actions: seq<StoredCoverage.Action>)
    requires CoinRow(row)
    requires var s := StoredCoverage.Run(m, before);
             && s.cov == Protocol.INITIAL.(workers := map[0 := Protocol.Fetching(job, Some(0), {}, {})])
             && s.store == Store.Next(Store.INITIAL, Store.Begin(0, [row])) && s.batches == map[0 := [row]]
    ensures var s := StoredCoverage.Run(m, actions);
            && s.cov.WorkerAt(0) == Protocol.Fetching(job, Some(0), {}, {0}) && s.cov.table == map[]
            && 0 !in s.batches
  {
    actions := StatementsServe(m, before, row);
    ExtendRun(m, actions, StoredCoverage.ReadBack(0));
    assert {} + {0} == {0};
    actions := actions + [StoredCoverage.ReadBack(0)];
  }

  /** Outside a batch reading the checkpoint and committing are the steps of the protocol. */
  lemma ReadsAndCommits(m: StoredCoverage.Setting, before: seq<StoredCoverage.Action>, options: Options)
    returns (actions: seq<StoredCoverage.Action>)
    requires 0 !in StoredCoverage.Run(m, before).batches
    ensures var read := Protocol.Next(m.grids, StoredCoverage.Run(m, before).cov, Protocol.ReadCheckpoint(0));
            StoredCoverage.Run(m, actions).cov == Protocol.Next(m.grids, read, Protocol.Commit(0, options))
  {
    ExtendRun(m, before, StoredCoverage.Cover(Protocol.ReadCheckpoint(0)));
    actions := before + [StoredCoverage.Cover(Protocol.ReadCheckpoint(0))];
    ExtendRun(m, actions, StoredCoverage.Cover(Protocol.Commit(0, options)));
    actions := actions + [StoredCoverage.Cover(Protocol.Commit(0, options))];
  }

  /** Planning, the six statements, reading back, reading the checkpoint and committing take the empty tables to a
      certified row and the bar it certifies into the canonical table. */
  lemma StoredCertifyingRun(m: StoredCoverage.Setting, universe: Universe, calendar: Calendar, options: Options,
                            key: string)
    returns (actions: seq<StoredCoverage.Action>)
    requires calendar.sessions == [] && key == CoverageKeyFor(Coin(), AllTrading, "v") && m == CoinSetting(key)
    requires options.attemptId != ""
    ensures Protocol.GridsWf(m.grids) && m.grids[key].Eligible(Bar(0, 60_000))
    ensures var s := StoredCoverage.Run(m, actions);
            key in s.cov.table && s.cov.table[key].completeThrough == Some(60_000)
  {
    var job: Job, row: Row;
    CoinExpected(CoinGrid());
    actions, job, row := PageArrives(m, universe, calendar, options, key);
    actions := PageServed(m, actions, job, row);
    CommitCertifies(m.grids, StoredCoverage.Run(m, actions).cov, job, key, options, Bar(0, 60_000));
    actions := ReadsAndCommits(m, actions, options);
  }
}
