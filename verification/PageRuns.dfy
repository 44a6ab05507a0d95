/** Exactly when the page loop of the executor succeeds, told by the provider's replies and the receipts before it. */
module PageRuns {
  import opened Market
  import opened SessionGrid
  import opened Schedule
  import opened BarNormalization
  import opened BarStore
  import opened Tallies
  import opened Execution
  import opened Executor

  /** The token sent with request `k`: none at first, then the one on the page before. */
  function TokenAt(provider: Provider, k: nat): Option<string> {
    if k == 0 then None
    else
      var before := provider(k - 1, TokenAt(provider, k - 1));
      if before.Err? then None else before.value.nextPageToken
  }

  function ReplyAt(provider: Provider, k: nat): Result<Page> { provider(k, TokenAt(provider, k)) }

  /** A token that leads to another page: there is one, and it is not empty. */
  predicate Leads(token: Option<string>) { token != None && token != Some("") }

  /** Page `j` carries such a token exactly when it is not the last. */
  predicate Links(provider: Provider, j: nat, n: nat) { Leads(TokenAt(provider, j + 1)) <==> j + 1 < n }

  /** The token was sent with one of the requests up to `k`. */
  ghost predicate Sent(provider: Provider, k: nat, token: string) {
    exists j :: 1 <= j <= k && TokenAt(provider, j) == Some(token)
  }

  /** The token sent with request `j` was not sent before. */
  ghost predicate Fresh(provider: Provider, j: nat) {
    forall i :: 1 <= i < j ==> TokenAt(provider, i) != TokenAt(provider, j)
  }

  /** How many bars the first `n` pages hold. */
  function BarsWithin(provider: Provider, n: nat): nat {
    if n == 0 then 0
    else BarsWithin(provider, n - 1) + (if ReplyAt(provider, n - 1).Ok? then |ReplyAt(provider, n - 1).value.bars|
                                        else 0)
  }

  /** The page was fetched, holds bars of the requested symbol only, and no receipt key of it is taken by another
      observation. */
  ghost predicate Acceptable(job: Job, g: Grid, options: Options, provider: Provider, db: Db, k: nat)
    requires options.attemptId != ""
  {
    ReplyAt(provider, k).Ok?
    && var bars := ReplyAt(provider, k).value.bars;
       && (forall i :: 0 <= i < |bars| ==> bars[i].symbol == job.instrument.symbol)
       && NoMismatch(db, PageRows(job, g, options, k + 1, bars))
  }

  /** From page `k` on the chain ends with page `n`: acceptable pages, a new token on each but the last. */
  ghost predicate RunsTo(job: Job, g: Grid, options: Options, provider: Provider, db: Db, k: nat, n: nat)
    requires options.attemptId != ""
  {
    && k < n <= options.maxPages && BarsWithin(provider, n) <= options.maxBars
    && (forall j :: k <= j < n ==> Acceptable(job, g, options, provider, db, j))
    && (forall j :: k <= j < n ==> Links(provider, j, n))
    && (forall j :: k < j < n ==> Fresh(provider, j))
  }

  /** The tokens sent so far. */
  ghost predicate SeenAre(provider: Provider, seen: set<string>, k: nat) {
    && (forall j :: 1 <= j <= k ==> Leads(TokenAt(provider, j)))
    && (forall token :: token in seen <==> Sent(provider, k, token))
  }

  /** The receipts of later pages are as they were. */
  ghost predicate LaterAsBefore(options: Options, a: Db, b: Db, k: nat) {
    forall page: nat, i: nat :: page > k ==> SameReceipt(a, b, ReceiptKey(options.attemptId, page, i))
  }

  /** The loop before page `k`: the bars of the pages so far are counted and their tokens seen. */
  ghost predicate AtPage(options: Options, provider: Provider, db: Db, p: Progress, seen: set<string>, k: nat) {
    && Sound(p.db) && p.counts.pages == k && p.counts.Bars() == BarsWithin(provider, k)
    && SeenAre(provider, seen, k) && LaterAsBefore(options, p.db, db, k)
  }

  predicate SameReceipt(a: Db, b: Db, key: string) {
    (key in a.receipts <==> key in b.receipts) && (key in a.receipts ==> a.receipts[key] == b.receipts[key])
  }

  lemma {:induction false} BarsGrow(provider: Provider, k: nat, n: nat)
    requires k <= n
    ensures BarsWithin(provider, k) <= BarsWithin(provider, n)
    decreases n
  {
    if k < n { BarsGrow(provider, k, n - 1); }
  }

  /** Every row of a settled page is counted. */
  lemma {:induction false} AllTallied(counts: Counts, db: Db, rows: seq<Row>)
    requires forall i :: 0 <= i < |rows| ==> OutcomeIn(db, rows[i]).Some?
    ensures TallyAll(counts, db, rows).Bars() == counts.Bars() + |rows|
    decreases |rows|
  {
    if rows != [] { AllTallied(counts, db, rows[..|rows| - 1]); }
  }

  lemma SameMismatch(job: Job, g: Grid, options: Options, a: Db, b: Db, page: nat, bars: seq<SourceBar>)
    requires options.attemptId != "" && forall i: nat :: SameReceipt(a, b, ReceiptKey(options.attemptId, page, i))
    ensures var rows := PageRows(job, g, options, page, bars); NoMismatch(a, rows) <==> NoMismatch(b, rows)
  {
    var rows := PageRows(job, g, options, page, bars);
    forall i | 0 <= i < |rows|
      ensures SameObservation(a.receipts, rows[i]) <==> SameObservation(b.receipts, rows[i])
    {
      assert rows[i].key == ReceiptKey(options.attemptId, page, i);
    }
  }

  lemma SentStep(provider: Provider, k: nat, token: string)
    ensures Sent(provider, k + 1, token) <==> Sent(provider, k, token) || TokenAt(provider, k + 1) == Some(token)
  {
  }

  lemma PageCounted(job: Job, g: Grid, options: Options, q: Progress, bars: seq<SourceBar>)
    requires options.attemptId != "" && Sound(q.db)
    requires NoMismatch(q.db, PageRows(job, g, options, q.counts.pages, bars))
    ensures var r := AfterPage(job, g, options, q, bars);
            Sound(r.db) && r.counts.pages == q.counts.pages && r.counts.Bars() == q.counts.Bars() + |bars|
  {
    var rows := PageRows(job, g, options, q.counts.pages, bars);
    PageKeysDiffer(job, g, options, q.counts.pages, bars);
    SettledSound(q.db, rows);
    AllTallied(q.counts, Settled(q.db, rows), rows);
  }

  lemma SeenGrow(provider: Provider, seen: set<string>, k: nat, more: set<string>)
    requires SeenAre(provider, seen, k) && Leads(TokenAt(provider, k + 1))
    requires more == seen + {TokenAt(provider, k + 1).value}
    ensures SeenAre(provider, more, k + 1)
  {
    forall token: string ensures token in more <==> Sent(provider, k + 1, token) { SentStep(provider, k, token); }
  }

  lemma LaterKept(job: Job, g: Grid, options: Options, q: Progress, bars: seq<SourceBar>, db: Db, k: nat)
    requires options.attemptId != "" && LaterAsBefore(options, q.db, db, k) && q.counts.pages == k + 1
    ensures LaterAsBefore(options, AfterPage(job, g, options, q, bars).db, db, k + 1)
  {
    forall page: nat, i: nat | page > k + 1
      ensures SameReceipt(AfterPage(job, g, options, q, bars).db, db, ReceiptKey(options.attemptId, page, i))
    {
      LaterReceipt(job, g, options, q.db, k + 1, bars, page, i);
      assert SameReceipt(q.db, db, ReceiptKey(options.attemptId, page, i));
    }
  }

  lemma PageFits(job: Job, g: Grid, options: Options, provider: Provider, db: Db, p: Progress, q: Progress,
                 seen: set<string>, k: nat, bars: seq<SourceBar>)
    requires options.attemptId != "" && AtPage(options, provider, db, p, seen, k)
    requires Acceptable(job, g, options, provider, db, k) && bars == ReplyAt(provider, k).value.bars
    requires q == p.(counts := p.counts.(pages := k + 1))
    ensures NoMismatch(q.db, PageRows(job, g, options, q.counts.pages, bars))
    ensures q.counts.Bars() + |bars| == BarsWithin(provider, k + 1)
  {
    SameMismatch(job, g, options, p.db, db, k + 1, bars);
  }

  /** Accepting page `k` brings the loop before page `k + 1`. */
  lemma PageTurns(job: Job, g: Grid, options: Options, provider: Provider, db: Db, p: Progress, q: Progress,
                  seen: set<string>, k: nat, bars: seq<SourceBar>)
    requires options.attemptId != "" && AtPage(options, provider, db, p, seen, k)
    requires Acceptable(job, g, options, provider, db, k) && bars == ReplyAt(provider, k).value.bars
    requires q == p.(counts := p.counts.(pages := k + 1)) && Leads(TokenAt(provider, k + 1))
    ensures AtPage(options, provider, db, AfterPage(job, g, options, q, bars),
                   seen + {TokenAt(provider, k + 1).value}, k + 1)
  {
    PageFits(job, g, options, provider, db, p, q, seen, k, bars);
    PageCounted(job, g, options, q, bars);
    LaterKept(job, g, options, q, bars, db, k);
    SeenGrow(provider, seen, k, seen + {TokenAt(provider, k + 1).value});
  }

  lemma LaterReceipt(job: Job, g: Grid, options: Options, db: Db, page: nat, bars: seq<SourceBar>, later: nat, i: nat)
    requires options.attemptId != "" && later > page
    ensures SameReceipt(Settled(db, PageRows(job, g, options, page, bars)), db,
                        ReceiptKey(options.attemptId, later, i))
  {
    var rows := PageRows(job, g, options, page, bars);
    forall j | 0 <= j < |rows| ensures rows[j].key != ReceiptKey(options.attemptId, later, i) {
      assert rows[j].key == ReceiptKey(options.attemptId, page, j);
      if rows[j].key == ReceiptKey(options.attemptId, later, i) {
        ReceiptKeysUnique(options.attemptId, page, j, later, i);
      }
    }
    SettledFrame(db, rows, ReceiptKey(options.attemptId, later, i));
  }

  /** The pages from `k` on, one by one. */
  lemma RunsStep(job: Job, g: Grid, options: Options, provider: Provider, db: Db, k: nat, n: nat)
    requires options.attemptId != "" && k < n
    ensures RunsTo(job, g, options, provider, db, k, n)
       <==> && n <= options.maxPages && BarsWithin(provider, n) <= options.maxBars
            && Acceptable(job, g, options, provider, db, k) && Links(provider, k, n)
            && (k + 1 < n ==>
                  && Fresh(provider, k + 1) && RunsTo(job, g, options, provider, db, k + 1, n))
  {
  }

  /** The page is within the limits and acceptable. */
  ghost predicate Taken(job: Job, g: Grid, options: Options, provider: Provider, db: Db, k: nat)
    requires options.attemptId != ""
  {
    k < options.maxPages && Acceptable(job, g, options, provider, db, k)
    && BarsWithin(provider, k + 1) <= options.maxBars
  }

  lemma TakenMeansNotRefused(job: Job, g: Grid, options: Options, provider: Provider, db: Db, p: Progress, q: Progress,
                             seen: set<string>, k: nat)
    requires options.attemptId != "" && AtPage(options, provider, db, p, seen, k)
    requires q == p.(counts := p.counts.(pages := k + 1))
    ensures Taken(job, g, options, provider, db, k)
       <==> k < options.maxPages && ReplyAt(provider, k).Ok?
            && PageRefused(job, g, options, q, ReplyAt(provider, k).value.bars).None?
  {
    if ReplyAt(provider, k).Ok? { SameMismatch(job, g, options, p.db, db, k + 1, ReplyAt(provider, k).value.bars); }
  }

  // One turn of the loop, told by the chain.

  lemma TurnFails(job: Job, g: Grid, options: Options, provider: Provider, db: Db, p: Progress, q: Progress,
                  seen: set<string>, k: nat)
    requires options.attemptId != "" && AtPage(options, provider, db, p, seen, k)
    requires q == p.(counts := p.counts.(pages := k + 1)) && !Taken(job, g, options, provider, db, k)
    ensures Collect(job, g, options, provider, p, TokenAt(provider, k), seen).Err?
  {
    TakenMeansNotRefused(job, g, options, provider, db, p, q, seen, k);
  }

  lemma TurnEnds(job: Job, g: Grid, options: Options, provider: Provider, db: Db, p: Progress, q: Progress,
                 seen: set<string>, k: nat)
    requires options.attemptId != "" && AtPage(options, provider, db, p, seen, k)
    requires q == p.(counts := p.counts.(pages := k + 1)) && Taken(job, g, options, provider, db, k)
    requires !Leads(TokenAt(provider, k + 1))
    ensures var r := AfterPage(job, g, options, q, ReplyAt(provider, k).value.bars);
            Collect(job, g, options, provider, p, TokenAt(provider, k), seen) == Ok(r) && r.counts.pages == k + 1
  {
    TakenMeansNotRefused(job, g, options, provider, db, p, q, seen, k);
  }

  lemma TurnGoesOn(job: Job, g: Grid, options: Options, provider: Provider, db: Db, p: Progress, q: Progress,
                   seen: set<string>, k: nat)
    requires options.attemptId != "" && AtPage(options, provider, db, p, seen, k)
    requires q == p.(counts := p.counts.(pages := k + 1)) && Taken(job, g, options, provider, db, k)
    requires Leads(TokenAt(provider, k + 1))
    ensures Collect(job, g, options, provider, p, TokenAt(provider, k), seen)
         == if Fresh(provider, k + 1) then
              Collect(job, g, options, provider, AfterPage(job, g, options, q, ReplyAt(provider, k).value.bars),
                      TokenAt(provider, k + 1), seen + {TokenAt(provider, k + 1).value})
            else Err(RepeatedPageToken)
  {
    TakenMeansNotRefused(job, g, options, provider, db, p, q, seen, k);
    FreshMeansUnseen(provider, seen, k);
  }

  lemma FreshMeansUnseen(provider: Provider, seen: set<string>, k: nat)
    requires SeenAre(provider, seen, k) && TokenAt(provider, k + 1).Some?
    ensures Fresh(provider, k + 1) <==> TokenAt(provider, k + 1).value !in seen
  {
    assert TokenAt(provider, k + 1).value in seen <==> Sent(provider, k, TokenAt(provider, k + 1).value);
  }

  lemma {:induction false} CollectFrom(job: Job, g: Grid, options: Options, provider: Provider, db: Db, p: Progress,
                                       seen: set<string>, k: nat, n: nat)
    requires options.attemptId != "" && AtPage(options, provider, db, p, seen, k)
    ensures var spec := Collect(job, g, options, provider, p, TokenAt(provider, k), seen);
            RunsTo(job, g, options, provider, db, k, n) <==> spec.Ok? && spec.value.counts.pages == n
    decreases options.maxPages - k
  {
    var q := p.(counts := p.counts.(pages := k + 1));
    if k < n { RunsStep(job, g, options, provider, db, k, n); }
    if k + 1 <= n { BarsGrow(provider, k + 1, n); }
    if !Taken(job, g, options, provider, db, k) {
      TurnFails(job, g, options, provider, db, p, q, seen, k);
    } else if !Leads(TokenAt(provider, k + 1)) {
      TurnEnds(job, g, options, provider, db, p, q, seen, k);
    } else {
      TurnGoesOn(job, g, options, provider, db, p, q, seen, k);
      if Fresh(provider, k + 1) {
        PageTurns(job, g, options, provider, db, p, q, seen, k, ReplyAt(provider, k).value.bars);
        CollectFrom(job, g, options, provider, db, AfterPage(job, g, options, q, ReplyAt(provider, k).value.bars),
                    seen + {TokenAt(provider, k + 1).value}, k + 1, n);
      }
    }
  }

  /** Before anything is fetched or counted. */
  predicate AtStart(start: Progress) { start.counts.pages == start.counts.Bars() && start.counts.Bars() == 0 }

  lemma Begins(options: Options, provider: Provider, start: Progress, k: nat)
    requires Sound(start.db) && AtStart(start) && k == start.counts.pages
    ensures AtPage(options, provider, start.db, start, {}, k) && TokenAt(provider, k) == None
  {
  }

  /** The loop succeeds with `n` pages exactly when the chain ends with page `n` within both limits: every page fetched,
      of the requested symbol and under keys no other observation has taken, and no token sent twice. */
  lemma CollectIff(job: Job, g: Grid, options: Options, provider: Provider, start: Progress, n: nat)
    requires options.attemptId != "" && Sound(start.db) && AtStart(start)
    ensures var spec := Collect(job, g, options, provider, start, None, {});
            spec.Ok? && spec.value.counts.pages == n
            <==> RunsTo(job, g, options, provider, start.db, start.counts.pages, n)
  {
    Begins(options, provider, start, start.counts.pages);
    CollectFrom(job, g, options, provider, start.db, start, {}, start.counts.pages, n);
  }

  // Why it fails.

  /** What is wrong with page `k`: the first that applies. */
  ghost function WrongWith(job: Job, g: Grid, options: Options, provider: Provider, db: Db, k: nat): Option<Fault>
    requires options.attemptId != ""
  {
    if options.maxPages <= k then Some(PageLimitExceeded)
    else if ReplyAt(provider, k).Err? then Some(ReplyAt(provider, k).error)
    else if options.maxBars < BarsWithin(provider, k + 1) then Some(BarLimitExceeded)
    else if exists bar :: bar in ReplyAt(provider, k).value.bars && bar.symbol != job.instrument.symbol
    then Some(UnrequestedSymbol)
    else if !Acceptable(job, g, options, provider, db, k) then Some(IdempotencyMismatch)
    else if Leads(TokenAt(provider, k + 1)) && !Fresh(provider, k + 1) then Some(RepeatedPageToken)
    else None
  }

  /** Nothing is wrong with page `k`, and it leads to another. */
  ghost predicate GoesOn(job: Job, g: Grid, options: Options, provider: Provider, db: Db, k: nat)
    requires options.attemptId != ""
  {
    WrongWith(job, g, options, provider, db, k).None? && Leads(TokenAt(provider, k + 1))
  }

  /** From page `k` the pages go on up to page `n`, with which `fault` is wrong. */
  ghost predicate FailsAt(job: Job, g: Grid, options: Options, provider: Provider, db: Db, k: nat, n: nat, fault: Fault)
    requires options.attemptId != ""
  {
    && k <= n && (forall j :: k <= j < n ==> GoesOn(job, g, options, provider, db, j))
    && WrongWith(job, g, options, provider, db, n) == Some(fault)
  }

  lemma TurnFault(job: Job, g: Grid, options: Options, provider: Provider, db: Db, p: Progress, q: Progress,
                  seen: set<string>, k: nat)
    requires options.attemptId != "" && AtPage(options, provider, db, p, seen, k)
    requires q == p.(counts := p.counts.(pages := k + 1)) && !Taken(job, g, options, provider, db, k)
    ensures WrongWith(job, g, options, provider, db, k).Some?
    ensures Collect(job, g, options, provider, p, TokenAt(provider, k), seen)
         == Err(WrongWith(job, g, options, provider, db, k).value)
  {
    if k < options.maxPages && ReplyAt(provider, k).Ok? {
      var bars := ReplyAt(provider, k).value.bars;
      SameMismatch(job, g, options, p.db, db, k + 1, bars);
      assert (exists bar :: bar in bars && bar.symbol != job.instrument.symbol)
        <==> exists i :: 0 <= i < |bars| && bars[i].symbol != job.instrument.symbol;
    }
  }

  ghost predicate Fails(job: Job, g: Grid, options: Options, provider: Provider, db: Db, k: nat, fault: Fault)
    requires options.attemptId != ""
  {
    exists n :: FailsAt(job, g, options, provider, db, k, n, fault)
  }

  lemma FaultsJoin(job: Job, g: Grid, options: Options, provider: Provider, db: Db, k: nat, fault: Fault)
    requires options.attemptId != "" && GoesOn(job, g, options, provider, db, k)
    ensures Fails(job, g, options, provider, db, k, fault) <==> Fails(job, g, options, provider, db, k + 1, fault)
  {
    var next := k + 1;
    if Fails(job, g, options, provider, db, k, fault) {
      var n :| FailsAt(job, g, options, provider, db, k, n, fault);
      assert FailsAt(job, g, options, provider, db, next, n, fault);
    }
    if Fails(job, g, options, provider, db, next, fault) {
      var n :| FailsAt(job, g, options, provider, db, next, n, fault);
      assert FailsAt(job, g, options, provider, db, k, n, fault);
    }
  }

  lemma FailsHere(job: Job, g: Grid, options: Options, provider: Provider, db: Db, k: nat, fault: Fault)
    requires options.attemptId != "" && !GoesOn(job, g, options, provider, db, k)
    ensures Fails(job, g, options, provider, db, k, fault)
       <==> WrongWith(job, g, options, provider, db, k) == Some(fault)
  {
    if WrongWith(job, g, options, provider, db, k) == Some(fault) {
      assert FailsAt(job, g, options, provider, db, k, k, fault);
    }
  }

  /** A turn of the loop that does not go on. */
  lemma TurnStops(job: Job, g: Grid, options: Options, provider: Provider, db: Db, p: Progress, q: Progress,
                  seen: set<string>, k: nat)
    requires options.attemptId != "" && AtPage(options, provider, db, p, seen, k)
    requires q == p.(counts := p.counts.(pages := k + 1)) && !GoesOn(job, g, options, provider, db, k)
    ensures FaultIn(Collect(job, g, options, provider, p, TokenAt(provider, k), seen))
         == WrongWith(job, g, options, provider, db, k)
  {
    if !Taken(job, g, options, provider, db, k) {
      TurnFault(job, g, options, provider, db, p, q, seen, k);
    } else if Leads(TokenAt(provider, k + 1)) {
      TurnGoesOn(job, g, options, provider, db, p, q, seen, k);
    } else {
      TurnEnds(job, g, options, provider, db, p, q, seen, k);
    }
  }

  function FaultIn(r: Result<Progress>): Option<Fault> { if r.Err? then Some(r.error) else None }

  lemma {:induction false} CollectFailsFrom(job: Job, g: Grid, options: Options, provider: Provider, db: Db,
                                            p: Progress, seen: set<string>, k: nat, fault: Fault)
    requires options.attemptId != "" && AtPage(options, provider, db, p, seen, k)
    ensures FaultIn(Collect(job, g, options, provider, p, TokenAt(provider, k), seen)) == Some(fault)
       <==> Fails(job, g, options, provider, db, k, fault)
    decreases options.maxPages - k
  {
    var q := p.(counts := p.counts.(pages := k + 1));
    if GoesOn(job, g, options, provider, db, k) {
      var bars := ReplyAt(provider, k).value.bars;
      TurnGoesOn(job, g, options, provider, db, p, q, seen, k);
      PageTurns(job, g, options, provider, db, p, q, seen, k, bars);
      CollectFailsFrom(job, g, options, provider, db, AfterPage(job, g, options, q, bars),
                       seen + {TokenAt(provider, k + 1).value}, k + 1, fault);
      FaultsJoin(job, g, options, provider, db, k, fault);
    } else {
      TurnStops(job, g, options, provider, db, p, q, seen, k);
      FailsHere(job, g, options, provider, db, k, fault);
    }
  }

  /** The loop fails with a fault exactly when the pages go on to one with which that is wrong. */
  lemma CollectFailsIff(job: Job, g: Grid, options: Options, provider: Provider, start: Progress, fault: Fault)
    requires options.attemptId != "" && Sound(start.db) && AtStart(start)
    ensures Collect(job, g, options, provider, start, None, {}) == Err(fault)
       <==> Fails(job, g, options, provider, start.db, start.counts.pages, fault)
  {
    Begins(options, provider, start, start.counts.pages);
    CollectFailsFrom(job, g, options, provider, start.db, start, {}, start.counts.pages, fault);
  }
}
