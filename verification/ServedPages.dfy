/** What the page loop serves when the provider and the store agree on one content for each bar, and that a fully
    served round of catch-up is what the executor then commits. */
module ServedPages {
  import opened Market
  import opened SessionGrid
  import opened Checkpoint
  import opened Schedule
  import opened BarNormalization
  import opened BarStore
  import opened Execution
  import opened Tallies
  import opened Executor
  import opened CatchUp

  /** The one content each identity has. */
  type Contents = Identity -> Fingerprint

  ghost predicate Agrees(content: Contents, canonical: map<Identity, Canonical>) {
    forall identity :: identity in canonical ==> canonical[identity].fingerprint == content(identity)
  }

  ghost predicate RowAgrees(content: Contents, row: Row) {
    row.Identity().Some? ==> row.Fingerprint() == content(row.Identity().value)
  }

  ghost predicate BarAgrees(content: Contents, job: Job, g: Grid, options: Options, bar: SourceBar) {
    var c := Normalize(bar, job.instrument.symbol, g, options.dates);
    c.Normalized? ==> ContentFingerprint(c.bar) == content(IdentityFor(c.bar))
  }

  lemma {:induction false} SettledAgrees(content: Contents, db: Db, rows: seq<Row>)
    requires Agrees(content, db.canonical) && forall i :: 0 <= i < |rows| ==> RowAgrees(content, rows[i])
    ensures Agrees(content, Settled(db, rows).canonical)
    decreases |rows|
  {
    if rows != [] {
      SettledAgrees(content, db, rows[..|rows| - 1]);
      assert RowAgrees(content, rows[|rows| - 1]);
    }
  }

  /** A normalised row of a batch without conflicts is inserted or matched. */
  lemma AgreeingRowIsServed(content: Contents, db: Db, rows: seq<Row>, i: nat)
    requires Sound(db) && DistinctRows(rows) && NoMismatch(db, rows) && Agrees(content, db.canonical)
    requires i < |rows| && rows[i].candidate.Normalized? && forall j :: 0 <= j < |rows| ==> RowAgrees(content, rows[j])
    ensures Served(Settled(db, rows), rows[i])
  {
    SettledReceiptAt(db, rows, i);
    SettledAgrees(content, db, rows[..i]);
    assert SameObservation(db.receipts, rows[i]) && RowAgrees(content, rows[i]);
    if rows[i].key in db.receipts { assert ReceiptSound(db, rows[i].key); }
  }

  lemma PageRowsAgree(content: Contents, job: Job, g: Grid, options: Options, page: nat, bars: seq<SourceBar>)
    requires options.attemptId != "" && forall i :: 0 <= i < |bars| ==> BarAgrees(content, job, g, options, bars[i])
    ensures forall i :: 0 <= i < |bars| ==> RowAgrees(content, PageRows(job, g, options, page, bars)[i])
  {
    var rows := PageRows(job, g, options, page, bars);
    forall i | 0 <= i < |bars| ensures RowAgrees(content, rows[i]) {
      assert BarAgrees(content, job, g, options, bars[i]);
      assert rows[i].candidate == Normalize(bars[i], job.instrument.symbol, g, options.dates);
    }
  }

  /** The starts of the bars that normalise. */
  function StartsIn(job: Job, g: Grid, options: Options, bars: seq<SourceBar>): set<Instant> {
    set i | 0 <= i < |bars| && Normalize(bars[i], job.instrument.symbol, g, options.dates).Normalized?
      :: Normalize(bars[i], job.instrument.symbol, g, options.dates).bar.barStart
  }

  /** A page serves exactly its normalised bars. */
  lemma AgreeingPage(content: Contents, job: Job, g: Grid, options: Options, p: Progress, bars: seq<SourceBar>)
    requires options.attemptId != "" && Sound(p.db) && Agrees(content, p.db.canonical)
    requires NoMismatch(p.db, PageRows(job, g, options, p.counts.pages, bars))
    requires forall i :: 0 <= i < |bars| ==> BarAgrees(content, job, g, options, bars[i])
    ensures var r := AfterPage(job, g, options, p, bars);
            Sound(r.db) && Agrees(content, r.db.canonical) && r.starts == p.starts + StartsIn(job, g, options, bars)
  {
    var rows := PageRows(job, g, options, p.counts.pages, bars);
    PageKeysDiffer(job, g, options, p.counts.pages, bars);
    PageRowsAgree(content, job, g, options, p.counts.pages, bars);
    SettledSound(p.db, rows);
    SettledAgrees(content, p.db, rows);
    PageStarts(content, job, g, options, p, bars);
  }

  lemma PageStarts(content: Contents, job: Job, g: Grid, options: Options, p: Progress, bars: seq<SourceBar>)
    requires options.attemptId != "" && Sound(p.db) && Agrees(content, p.db.canonical)
    requires NoMismatch(p.db, PageRows(job, g, options, p.counts.pages, bars))
    requires DistinctRows(PageRows(job, g, options, p.counts.pages, bars))
    requires forall i :: 0 <= i < |bars| ==> RowAgrees(content, PageRows(job, g, options, p.counts.pages, bars)[i])
    ensures var rows := PageRows(job, g, options, p.counts.pages, bars);
            ServedStarts(Settled(p.db, rows), rows) == StartsIn(job, g, options, bars)
  {
    var rows := PageRows(job, g, options, p.counts.pages, bars);
    var after := Settled(p.db, rows);
    assert forall i :: 0 <= i < |rows|
             ==> rows[i].candidate == Normalize(bars[i], job.instrument.symbol, g, options.dates);
    forall i | 0 <= i < |rows| && rows[i].candidate.Normalized? ensures Served(after, rows[i]) {
      AgreeingRowIsServed(content, p.db, rows, i);
    }
  }

  /** Everything the provider delivers on the way to the end of the loop. */
  function AllDelivered(job: Job, g: Grid, options: Options, provider: Provider, p: Progress, token: Option<string>,
                        seen: set<string>): seq<SourceBar>
    requires options.attemptId != "" && Collect(job, g, options, provider, p, token, seen).Ok?
  {
    Delivered(provider, p.counts.pages, token, Collect(job, g, options, provider, p, token, seen).value.counts.pages)
  }

  lemma StartsConcat(job: Job, g: Grid, options: Options, x: seq<SourceBar>, y: seq<SourceBar>)
    ensures StartsIn(job, g, options, x + y) == StartsIn(job, g, options, x) + StartsIn(job, g, options, y)
  {
    var xy := x + y;
    forall at | at in StartsIn(job, g, options, xy)
      ensures at in StartsIn(job, g, options, x) + StartsIn(job, g, options, y)
    {
      var i :| 0 <= i < |xy| && Normalize(xy[i], job.instrument.symbol, g, options.dates).Normalized?
               && Normalize(xy[i], job.instrument.symbol, g, options.dates).bar.barStart == at;
      if i < |x| { assert x[i] == xy[i]; } else { assert y[i - |x|] == xy[i]; }
    }
    forall at | at in StartsIn(job, g, options, x) ensures at in StartsIn(job, g, options, xy) {
      var i :| 0 <= i < |x| && Normalize(x[i], job.instrument.symbol, g, options.dates).Normalized?
               && Normalize(x[i], job.instrument.symbol, g, options.dates).bar.barStart == at;
      assert xy[i] == x[i];
    }
    forall at | at in StartsIn(job, g, options, y) ensures at in StartsIn(job, g, options, xy) {
      var i :| 0 <= i < |y| && Normalize(y[i], job.instrument.symbol, g, options.dates).Normalized?
               && Normalize(y[i], job.instrument.symbol, g, options.dates).bar.barStart == at;
      assert xy[|x| + i] == y[i];
    }
  }

  /** The first page, and everything behind it. */
  lemma FirstPageDelivered(job: Job, g: Grid, options: Options, provider: Provider, p: Progress, q: Progress,
                           token: Option<string>, seen: set<string>, page: Executor.Page)
    requires options.attemptId != "" && Sound(p.db) && Collect(job, g, options, provider, p, token, seen).Ok?
    requires q == p.(counts := p.counts.(pages := p.counts.pages + 1)) && provider(p.counts.pages, token) == Ok(page)
    ensures NoMismatch(q.db, PageRows(job, g, options, q.counts.pages, page.bars))
    ensures var all, r := AllDelivered(job, g, options, provider, p, token, seen),
            AfterPage(job, g, options, q, page.bars);
            if Truthy(page.nextPageToken)
            then var later := seen + {page.nextPageToken.value};
                 && Collect(job, g, options, provider, p, token, seen)
                    == Collect(job, g, options, provider, r, page.nextPageToken, later)
                 && all == page.bars + AllDelivered(job, g, options, provider, r, page.nextPageToken, later)
            else Collect(job, g, options, provider, p, token, seen) == Ok(r) && all == page.bars
  {
    CollectTold(job, g, options, provider, p, token, seen);
    if !Truthy(page.nextPageToken) {
      assert Delivered(provider, q.counts.pages, page.nextPageToken, q.counts.pages) == [];
      assert page.bars + [] == page.bars;
    }
  }

  /** A run of the loop that meets no conflict serves exactly the delivered bars that normalise. */
  lemma {:induction false} CollectServes(content: Contents, job: Job, g: Grid, options: Options, provider: Provider,
                                         p: Progress, token: Option<string>, seen: set<string>)
    requires options.attemptId != "" && Sound(p.db) && Agrees(content, p.db.canonical)
    requires Collect(job, g, options, provider, p, token, seen).Ok?
    requires forall bar :: bar in AllDelivered(job, g, options, provider, p, token, seen)
               ==> BarAgrees(content, job, g, options, bar)
    ensures Collect(job, g, options, provider, p, token, seen).value.starts
         == p.starts + StartsIn(job, g, options, AllDelivered(job, g, options, provider, p, token, seen))
    decreases options.maxPages - p.counts.pages
  {
    var page := provider(p.counts.pages, token).value;
    var q := p.(counts := p.counts.(pages := p.counts.pages + 1));
    var r := AfterPage(job, g, options, q, page.bars);
    FirstPageDelivered(job, g, options, provider, p, q, token, seen, page);
    AgreeingPage(content, job, g, options, q, page.bars);
    if Truthy(page.nextPageToken) {
      var later := seen + {page.nextPageToken.value};
      CollectServes(content, job, g, options, provider, r, page.nextPageToken, later);
      StartsConcat(job, g, options, page.bars,
                   AllDelivered(job, g, options, provider, r, page.nextPageToken, later));
    }
  }

  // The executor commits what a fully served round commits.

  /** Every expected bar was delivered, as a bar that normalises to it. */
  ghost predicate GridServed(job: Job, g: Grid, options: Options, bars: seq<SourceBar>) {
    forall b :: b in Expected(g, job.requestedRange) ==> b.start in StartsIn(job, g, options, bars)
  }

  /** Only which of the bars are served counts. */
  lemma {:induction false} OnlyExpectedCount(through: Option<Instant>, bars: seq<Bar>, x: set<Instant>, y: set<Instant>)
    requires forall i :: 0 <= i < |bars| ==> (bars[i].start in x <==> bars[i].start in y)
    ensures Unserved(through, bars, x) == Unserved(through, bars, y)
    ensures Advance(through, bars, x) == Advance(through, bars, y)
    decreases bars
  {
    if bars != [] {
      OnlyExpectedCount(through, bars[1..], x, y);
      OnlyExpectedCount(Some(bars[0].completes), bars[1..], x, y);
    }
  }

  lemma ServedProposalIsFull(job: Job, g: Grid, options: Options, row: Option<StoredCheckpoint>, have: set<Instant>)
    requires forall b :: b in Expected(g, job.requestedRange) ==> b.start in have
    ensures Proposal(job, g, options, row, have)
         == Proposal(job, g, options, row, StartsOf(Expected(g, job.requestedRange)))
  {
    var expected := Expected(g, job.requestedRange);
    forall i | 0 <= i < |expected| ensures expected[i].start in have && expected[i].start in StartsOf(expected) {
      assert expected[i] in expected;
    }
    OnlyExpectedCount(ThroughOf(row), expected, have, StartsOf(expected));
  }

  /** When the provider delivers the planned grid and meets no conflicting bar, the row the executor commits is the row
      of a fully served round. */
  lemma ServedRoundIsExecuted(s: Stream, job: Job, options: Options, row: Option<StoredCheckpoint>, content: Contents,
                              provider: Provider, db: Db)
    requires s.Plan(row).Some? && job.requestedRange == s.Plan(row).value.range
    requires job.expectation.expectedVersion == if row.Some? then Some(row.value.version) else None
    requires options.attemptId != "" && Sound(db) && Agrees(content, db.canonical)
    requires var start := Progress(db, Counts(0, 0, 0, 0, 0), {});
             && Collect(job, s.g, options, provider, start, None, {}).Ok?
             && var delivered := AllDelivered(job, s.g, options, provider, start, None, {});
                && (forall bar :: bar in delivered ==> BarAgrees(content, job, s.g, options, bar))
                && GridServed(job, s.g, options, delivered)
    ensures var collected := Collect(job, s.g, options, provider, Progress(db, Counts(0, 0, 0, 0, 0), {}), None,
                                     {}).value;
            var proposal := Proposal(job, s.g, options, row, collected.starts);
            && After(row, Update(job.expectation.expectedVersion, proposal)) == Round(s, job, options, row)
            && (s.g.Wf() && job.expectation.coverageKey != "" && job.instrument.symbol != ""
                ==> ValidProposal(proposal))
  {
    var start := Progress(db, Counts(0, 0, 0, 0, 0), {});
    CollectServes(content, job, s.g, options, provider, start, None, {});
    var starts := Collect(job, s.g, options, provider, start, None, {}).value.starts;
    ServedProposalIsFull(job, s.g, options, row, starts);
    assert job.(requestedRange := s.Plan(row).value.range) == job;
    if s.g.Wf() && job.expectation.coverageKey != "" && job.instrument.symbol != "" {
      ProposalAdmissible(job, s.g, options, row, starts);
    }
  }

  // A provider that returns the whole grid in one page.

  /** A valid provider bar for each bar of the grid. */
  function GridBars(symbol: string, expected: seq<Bar>, values: Instant -> string,
                    variant: string): (bars: seq<SourceBar>)
    ensures |bars| == |expected|
  {
    seq(|expected|, i requires 0 <= i < |expected| =>
      SourceBar(symbol, Some(expected[i].start), values(expected[i].start), None, variant))
  }

  /** Within the limits, on unused receipt keys, one page of the whole grid is collected and serves the grid. */
  lemma GridPageIsServed(job: Job, g: Grid, options: Options, db: Db, values: Instant -> string, variant: string,
                         provider: Provider)
    requires g.Wf() && !g.DailyEquity() && (g.route == CryptoBars <==> g.scope == AllTrading)
    requires options.attemptId != "" && options.maxPages >= 1 && |Expected(g, job.requestedRange)| <= options.maxBars
    requires var bars := GridBars(job.instrument.symbol, Expected(g, job.requestedRange), values, variant);
             && provider(0, None) == Ok(Executor.Page(bars, None))
             && forall i :: 0 <= i < |bars| ==> ReceiptKey(options.attemptId, 1, i) !in db.receipts
    ensures var start := Progress(db, Counts(0, 0, 0, 0, 0), {});
            && Collect(job, g, options, provider, start, None, {}).Ok?
            && GridServed(job, g, options, AllDelivered(job, g, options, provider, start, None, {}))
  {
    var bars := GridBars(job.instrument.symbol, Expected(g, job.requestedRange), values, variant);
    SinglePageCollected(job, g, options, provider, bars, db);
    GridBarsServeGrid(job, g, options, values, variant);
  }

  /** A single page within the limits, on unused receipt keys, is what the loop collects. */
  lemma SinglePageCollected(job: Job, g: Grid, options: Options, provider: Provider, bars: seq<SourceBar>, db: Db)
    requires options.attemptId != "" && options.maxPages >= 1 && |bars| <= options.maxBars
    requires provider(0, None) == Ok(Executor.Page(bars, None))
    requires forall i :: 0 <= i < |bars| ==>
               bars[i].symbol == job.instrument.symbol && ReceiptKey(options.attemptId, 1, i) !in db.receipts
    ensures var start := Progress(db, Counts(0, 0, 0, 0, 0), {});
            && Collect(job, g, options, provider, start, None, {})
               == Ok(AfterPage(job, g, options, Progress(db, Counts(1, 0, 0, 0, 0), {}), bars))
            && AllDelivered(job, g, options, provider, start, None, {}) == bars
  {
    UnusedKeysMatch(job, g, options, 1, bars, db);
    LastPageCollected(job, g, options, provider, Progress(db, Counts(0, 0, 0, 0, 0), {}),
                      Progress(db, Counts(1, 0, 0, 0, 0), {}), None, {}, bars);
  }

  /** The last page: nothing refuses it and no token follows. */
  lemma LastPageCollected(job: Job, g: Grid, options: Options, provider: Provider, p: Progress, q: Progress,
                          token: Option<string>, seen: set<string>, bars: seq<SourceBar>)
    requires options.attemptId != "" && p.counts.pages < options.maxPages
    requires q == p.(counts := p.counts.(pages := p.counts.pages + 1))
    requires provider(p.counts.pages, token) == Ok(Executor.Page(bars, None))
    requires q.counts.Bars() + |bars| <= options.maxBars
    requires forall i :: 0 <= i < |bars| ==> bars[i].symbol == job.instrument.symbol
    requires NoMismatch(q.db, PageRows(job, g, options, q.counts.pages, bars))
    ensures Collect(job, g, options, provider, p, token, seen) == Ok(AfterPage(job, g, options, q, bars))
    ensures AllDelivered(job, g, options, provider, p, token, seen) == bars
  {
    assert Delivered(provider, q.counts.pages, None, q.counts.pages) == [] && bars + [] == bars;
  }

  lemma UnusedKeysMatch(job: Job, g: Grid, options: Options, page: nat, bars: seq<SourceBar>, db: Db)
    requires options.attemptId != ""
    requires forall i :: 0 <= i < |bars| ==> ReceiptKey(options.attemptId, page, i) !in db.receipts
    ensures NoMismatch(db, PageRows(job, g, options, page, bars))
  {
    var rows := PageRows(job, g, options, page, bars);
    assert forall i :: 0 <= i < |rows| ==> rows[i].key == ReceiptKey(options.attemptId, page, i);
  }

  /** The provider's bars of the grid normalise to the grid. */
  lemma GridBarsServeGrid(job: Job, g: Grid, options: Options, values: Instant -> string, variant: string)
    requires g.Wf() && !g.DailyEquity() && (g.route == CryptoBars <==> g.scope == AllTrading)
    ensures GridServed(job, g, options,
                       GridBars(job.instrument.symbol, Expected(g, job.requestedRange), values, variant))
  {
    var expected := Expected(g, job.requestedRange);
    var bars := GridBars(job.instrument.symbol, expected, values, variant);
    ExpectedSpec(g, job.requestedRange);
    forall b | b in expected ensures b.start in StartsIn(job, g, options, bars) {
      var i :| 0 <= i < |expected| && expected[i] == b;
      NormalizesIffExpected(bars[i], job.instrument.symbol, g, options.dates, job.requestedRange);
    }
  }
}
