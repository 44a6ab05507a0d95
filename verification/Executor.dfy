/** The executor itself: the page loop over an arbitrary provider, the bar store and the checkpoint table. */
module Executor {
  import opened Market
  import opened Counting
  import opened SessionGrid
  import opened MissingRanges
  import opened Checkpoint
  import opened Schedule
  import opened BarNormalization
  import opened BarStore
  import opened Tallies
  import opened Execution

  datatype Page = Page(bars: seq<SourceBar>, nextPageToken: Option<string>)

  /** The provider: any reply, or a failure, for any call number and page token. */
  type Provider = (nat, Option<string>) -> Result<Page>

  datatype Absence = Absence(symbol: string, identityStart: Instant, evidenceValid: bool)

  datatype Attempt = Succeeded | PartialAttempt

  datatype Summary = Summary(jobId: JobId, outcome: Attempt, counts: Counts, missing: nat, acknowledgedAbsent: nat)

  /** Decimal notation. */
  function Digits(n: nat): string {
    if n < 10 then ['0' + n as char] else Digits(n / 10) + ['0' + (n % 10) as char]
  }

  function ValueOf(digits: string): int {
    if digits == [] then 0 else ValueOf(digits[..|digits| - 1]) * 10 + (digits[|digits| - 1] as int - '0' as int)
  }

  lemma {:induction false} DigitsDenote(n: nat)
    ensures ValueOf(Digits(n)) == n
  {
    if n >= 10 {
      DigitsDenote(n / 10);
      assert Digits(n)[..|Digits(n)| - 1] == Digits(n / 10);
    } else {
      assert Digits(n)[..0] == [];
    }
  }

  function ReceiptKey(attemptId: string, page: nat, index: nat): string {
    attemptId + ":page:" + Digits(page) + ":bar:" + Digits(index)
  }

  lemma ReceiptKeysDiffer(attemptId: string, page: nat, i: nat, j: nat)
    requires i != j
    ensures ReceiptKey(attemptId, page, i) != ReceiptKey(attemptId, page, j)
  {
    var prefix := attemptId + ":page:" + Digits(page) + ":bar:";
    DigitsDenote(i);
    DigitsDenote(j);
    assert (prefix + Digits(i))[|prefix|..] == Digits(i) && (prefix + Digits(j))[|prefix|..] == Digits(j);
  }

  /** The decimal digits of a number contain no other character. */
  lemma {:induction false} DigitsOnly(n: nat)
    ensures Digits(n) != [] && forall i :: 0 <= i < |Digits(n)| ==> '0' <= Digits(n)[i] <= '9'
  {
    if n >= 10 { DigitsOnly(n / 10); }
  }

  /** Digits end where the text behind them begins. */
  lemma {:induction false} DigitsEnd(p: nat, x: string, q: nat, y: string)
    requires Digits(p) + ":bar:" + x == Digits(q) + ":bar:" + y
    ensures p == q
  {
    var a, b := Digits(p) + ":bar:" + x, Digits(q) + ":bar:" + y;
    DigitsOnly(p);
    DigitsOnly(q);
    assert a[|Digits(p)|] == ':' && b[|Digits(q)|] == ':';
    assert a[..|Digits(p)|] == Digits(p) && b[..|Digits(q)|] == Digits(q);
    DigitsDenote(p);
    DigitsDenote(q);
  }

  /** No two bars of one attempt share a receipt key, on whatever pages they came. */
  lemma {:induction false} ReceiptKeysUnique(attemptId: string, p: nat, i: nat, q: nat, j: nat)
    requires ReceiptKey(attemptId, p, i) == ReceiptKey(attemptId, q, j)
    ensures p == q && i == j
  {
    var head := attemptId + ":page:";
    var x, y := Digits(p) + ":bar:" + Digits(i), Digits(q) + ":bar:" + Digits(j);
    assert ReceiptKey(attemptId, p, i) == head + x && ReceiptKey(attemptId, q, j) == head + y;
    assert (head + x)[|head|..] == x && (head + y)[|head|..] == y;
    DigitsEnd(p, Digits(i), q, Digits(j));
    if i != j { ReceiptKeysDiffer(attemptId, p, i, j); }
  }

  /** A canonical bar of the instrument starts at `at`. */
  ghost predicate InStore(canonical: map<Identity, Canonical>, symbol: string, g: Grid, at: Instant) {
    exists identity :: identity in canonical && identity.instrumentId == symbol && identity.interval == g.cadence
                       && identity.barStart == at && identity.sessionKind == g.scope
  }

  function Inputs(job: Job, g: Grid, options: Options, page: nat, bars: seq<SourceBar>): (inputs: seq<Input>) {
    seq(|bars|, i requires 0 <= i < |bars| =>
      Input(Normalize(bars[i], job.instrument.symbol, g, options.dates),
            Provenance(ReceiptKey(options.attemptId, page, i), Some(job.jobId), Some(options.now))))
  }

  predicate Truthy(token: Option<string>) { token.Some? && token.value != "" }

  /** Canonical bars are only ever added. */
  ghost predicate Keeps(a: map<Identity, Canonical>, b: map<Identity, Canonical>) {
    forall identity :: identity in a ==> identity in b && b[identity] == a[identity]
  }

  ghost predicate AllInStore(canonical: map<Identity, Canonical>, symbol: string, g: Grid, starts: set<Instant>) {
    forall at :: at in starts ==> InStore(canonical, symbol, g, at)
  }

  // What a page does to the tables and to the running totals.

  datatype Progress = Progress(db: Db, counts: Counts, starts: set<Instant>)

  function PageRows(job: Job, g: Grid, options: Options, page: nat, bars: seq<SourceBar>): (rows: seq<Row>)
    requires options.attemptId != ""
  {
    RowsOf(Inputs(job, g, options, page, bars))
  }

  function AfterPage(job: Job, g: Grid, options: Options, p: Progress, bars: seq<SourceBar>): (r: Progress)
    requires options.attemptId != ""
    ensures r.counts.pages == p.counts.pages
  {
    var rows := PageRows(job, g, options, p.counts.pages, bars);
    var db := Settled(p.db, rows);
    Progress(db, TallyAll(p.counts, db, rows), p.starts + ServedStarts(db, rows))
  }

  /** Why a fetched page is not accepted. */
  function PageRefused(job: Job, g: Grid, options: Options, p: Progress, bars: seq<SourceBar>): Option<Fault>
    requires options.attemptId != ""
  {
    if p.counts.Bars() + |bars| > options.maxBars then Some(BarLimitExceeded)
    else if exists i :: 0 <= i < |bars| && bars[i].symbol != job.instrument.symbol then Some(UnrequestedSymbol)
    else if !NoMismatch(p.db, PageRows(job, g, options, p.counts.pages, bars)) then Some(IdempotencyMismatch)
    else None
  }

  /** The whole page loop, as a function of the provider's replies. */
  function Collect(job: Job, g: Grid, options: Options, provider: Provider, p: Progress, token: Option<string>,
                   seen: set<string>)
    : Result<Progress>
    requires options.attemptId != ""
    decreases options.maxPages - p.counts.pages
  {
    if p.counts.pages >= options.maxPages then Err(PageLimitExceeded)
    else
      var reply := provider(p.counts.pages, token);
      if reply.Err? then Err(reply.error)
      else
        var bars, next := reply.value.bars, reply.value.nextPageToken;
        var q := p.(counts := p.counts.(pages := p.counts.pages + 1));
        var refused := PageRefused(job, g, options, q, bars);
        if refused.Some? then Err(refused.value)
        else
          var r := AfterPage(job, g, options, q, bars);
          if !Truthy(next) then Ok(r)
          else if next.value in seen then Err(RepeatedPageToken)
          else Collect(job, g, options, provider, r, next, seen + {next.value})
  }

  /** What the provider delivers on the pages after `page` up to `last`, following its tokens. */
  function Delivered(provider: Provider, page: nat, token: Option<string>, last: nat): seq<SourceBar>
    decreases last - page
  {
    if page >= last || provider(page, token).Err? then []
    else
      var reply := provider(page, token).value;
      reply.bars + Delivered(provider, page + 1, reply.nextPageToken, last)
  }

  function CandidatesFor(job: Job, g: Grid, options: Options, bars: seq<SourceBar>): seq<Candidate> {
    Candidates(bars, job.instrument.symbol, g, options.dates)
  }

  lemma PageKeysDiffer(job: Job, g: Grid, options: Options, page: nat, bars: seq<SourceBar>)
    requires options.attemptId != ""
    ensures DistinctRows(PageRows(job, g, options, page, bars))
  {
    var rows := PageRows(job, g, options, page, bars);
    forall i, j | 0 <= i < j < |rows| ensures rows[i].key != rows[j].key {
      ReceiptKeysDiffer(options.attemptId, page, i, j);
    }
  }

  lemma PageCandidates(job: Job, g: Grid, options: Options, page: nat, bars: seq<SourceBar>)
    requires options.attemptId != ""
    ensures CandidatesOf(PageRows(job, g, options, page, bars)) == CandidatesFor(job, g, options, bars)
  {
  }

  /** One page, told by its bars. */
  lemma AcceptedPageTold(job: Job, g: Grid, options: Options, p: Progress, bars: seq<SourceBar>)
    requires options.attemptId != "" && Sound(p.db)
    requires NoMismatch(p.db, PageRows(job, g, options, p.counts.pages, bars))
    ensures var r, candidates := AfterPage(job, g, options, p, bars), CandidatesFor(job, g, options, bars);
            && Sound(r.db) && Keeps(p.db.canonical, r.db.canonical)
            && Told(r.db.canonical, candidates, p.counts, r.counts)
            && r.starts == p.starts + StartsHeld(r.db.canonical, candidates)
            && AllKept(r.db.canonical, candidates)
  {
    var rows := PageRows(job, g, options, p.counts.pages, bars);
    PageKeysDiffer(job, g, options, p.counts.pages, bars);
    PageCandidates(job, g, options, p.counts.pages, bars);
    SettledSound(p.db, rows);
    SettledKeeps(p.db, rows);
    PageTold(p.db, rows, p.counts);
    forall i | 0 <= i < |rows| && rows[i].candidate.Normalized?
      ensures IdentityFor(rows[i].candidate.bar) in Settled(p.db, rows).canonical
    {
      ReceivedIsStored(p.db, rows, i);
    }
  }

  /** Every one of these that normalises has a canonical bar. */
  ghost predicate AllKept(canonical: map<Identity, Canonical>, candidates: seq<Candidate>) {
    forall i :: 0 <= i < |candidates| && candidates[i].Normalized? ==> IdentityFor(candidates[i].bar) in canonical
  }

  /** What has been told of bars stays true while canonical bars are kept. */
  lemma ToldForGood(a: map<Identity, Canonical>, b: map<Identity, Canonical>, candidates: seq<Candidate>,
                    before: Counts, after: Counts)
    requires AllKept(a, candidates) && Keeps(a, b)
    ensures Told(a, candidates, before, after) <==> Told(b, candidates, before, after)
    ensures StartsHeld(a, candidates) == StartsHeld(b, candidates) && AllKept(b, candidates)
  {
    forall i | 0 <= i < |candidates|
      ensures Holds(a, candidates[i]) == Holds(b, candidates[i])
      ensures Contradicts(a, candidates[i]) == Contradicts(b, candidates[i])
    {
    }
    CountAlike(candidates, IsContradicted(a), candidates, IsContradicted(b));
    CountAlike(candidates, IsHeld(a), candidates, IsHeld(b));
  }

  lemma ToldConcat(canonical: map<Identity, Canonical>, x: seq<Candidate>, y: seq<Candidate>, a: Counts, b: Counts,
                   c: Counts)
    requires Told(canonical, x, a, b) && Told(canonical, y, b, c)
    ensures Told(canonical, x + y, a, c)
  {
    CountConcat(x, y, IsRejected());
    CountConcat(x, y, IsContradicted(canonical));
    CountConcat(x, y, IsHeld(canonical));
  }

  lemma StartsHeldConcat(canonical: map<Identity, Canonical>, x: seq<Candidate>, y: seq<Candidate>)
    ensures StartsHeld(canonical, x + y) == StartsHeld(canonical, x) + StartsHeld(canonical, y)
  {
    forall at | at in StartsHeld(canonical, x) ensures at in StartsHeld(canonical, x + y) {
      var i :| 0 <= i < |x| && Holds(canonical, x[i]) && x[i].bar.barStart == at;
      assert (x + y)[i] == x[i];
    }
    forall at | at in StartsHeld(canonical, y) ensures at in StartsHeld(canonical, x + y) {
      var i :| 0 <= i < |y| && Holds(canonical, y[i]) && y[i].bar.barStart == at;
      assert (x + y)[|x| + i] == y[i];
    }
  }

  /** The whole loop, told by the bars the provider delivered and the tables it left behind. */
  ghost predicate RunTold(job: Job, g: Grid, options: Options, a: Progress, b: Progress, bars: seq<SourceBar>) {
    var candidates := CandidatesFor(job, g, options, bars);
    && Sound(b.db) && Keeps(a.db.canonical, b.db.canonical) && AllKept(b.db.canonical, candidates)
    && Told(b.db.canonical, candidates, a.counts, b.counts)
    && b.starts == a.starts + StartsHeld(b.db.canonical, candidates)
  }

  lemma RunsJoin(job: Job, g: Grid, options: Options, a: Progress, b: Progress, c: Progress, x: seq<SourceBar>,
                 y: seq<SourceBar>)
    requires RunTold(job, g, options, a, b, x) && RunTold(job, g, options, b, c, y)
    ensures RunTold(job, g, options, a, c, x + y)
  {
    var front, back := CandidatesFor(job, g, options, x), CandidatesFor(job, g, options, y);
    CandidatesConcat(x, y, job.instrument.symbol, g, options.dates);
    ToldForGood(b.db.canonical, c.db.canonical, front, a.counts, b.counts);
    ToldConcat(c.db.canonical, front, back, a.counts, b.counts, c.counts);
    StartsHeldConcat(c.db.canonical, front, back);
  }

  lemma FirstPageTold(job: Job, g: Grid, options: Options, provider: Provider, p: Progress, q: Progress,
                      token: Option<string>, seen: set<string>, page: Page)
    requires options.attemptId != "" && Sound(p.db) && Collect(job, g, options, provider, p, token, seen).Ok?
    requires q == p.(counts := p.counts.(pages := p.counts.pages + 1)) && provider(p.counts.pages, token) == Ok(page)
    ensures var next := AfterPage(job, g, options, q, page.bars);
            && RunTold(job, g, options, p, next, page.bars) && next.counts.pages == q.counts.pages
            && Collect(job, g, options, provider, p, token, seen)
               == if Truthy(page.nextPageToken)
                  then Collect(job, g, options, provider, next, page.nextPageToken,
                               seen + {page.nextPageToken.value})
                  else Ok(next)
  {
    AcceptedPageTold(job, g, options, q, page.bars);
  }

  lemma RestTold(job: Job, g: Grid, options: Options, provider: Provider, a: Progress, b: Progress, c: Progress,
                 k: nat, token: Option<string>, page: Page)
    requires provider(k, token) == Ok(page) && k < c.counts.pages && RunTold(job, g, options, a, b, page.bars)
    requires RunTold(job, g, options, b, c, Delivered(provider, k + 1, page.nextPageToken, c.counts.pages))
    ensures RunTold(job, g, options, a, c, Delivered(provider, k, token, c.counts.pages))
  {
    RunsJoin(job, g, options, a, b, c, page.bars, Delivered(provider, k + 1, page.nextPageToken, c.counts.pages));
  }

  lemma LastTold(job: Job, g: Grid, options: Options, provider: Provider, a: Progress, b: Progress, k: nat,
                 token: Option<string>, page: Page)
    requires provider(k, token) == Ok(page) && b.counts.pages == k + 1 && RunTold(job, g, options, a, b, page.bars)
    ensures RunTold(job, g, options, a, b, Delivered(provider, k, token, b.counts.pages))
  {
    assert Delivered(provider, k + 1, page.nextPageToken, b.counts.pages) == [] && page.bars + [] == page.bars;
  }

  lemma {:induction false} CollectTold(job: Job, g: Grid, options: Options, provider: Provider, p: Progress,
                                       token: Option<string>, seen: set<string>)
    requires options.attemptId != "" && Sound(p.db) && Collect(job, g, options, provider, p, token, seen).Ok?
    ensures var r := Collect(job, g, options, provider, p, token, seen).value;
            && p.counts.pages < r.counts.pages
            && RunTold(job, g, options, p, r, Delivered(provider, p.counts.pages, token, r.counts.pages))
    decreases options.maxPages - p.counts.pages
  {
    var page := provider(p.counts.pages, token).value;
    var q := p.(counts := p.counts.(pages := p.counts.pages + 1));
    var next := AfterPage(job, g, options, q, page.bars);
    FirstPageTold(job, g, options, provider, p, q, token, seen, page);
    if Truthy(page.nextPageToken) {
      var later := seen + {page.nextPageToken.value};
      CollectTold(job, g, options, provider, next, page.nextPageToken, later);
      RestTold(job, g, options, provider, p, next,
               Collect(job, g, options, provider, next, page.nextPageToken, later).value, p.counts.pages, token, page);
    } else {
      LastTold(job, g, options, provider, p, next, p.counts.pages, token, page);
    }
  }

  /** No receipt of this attempt exists for a page after `page`. */
  ghost predicate Untried(db: Db, attemptId: string, page: nat) {
    forall p: nat, i: nat :: p > page ==> ReceiptKey(attemptId, p, i) !in db.receipts
  }

  lemma UntriedPage(job: Job, g: Grid, options: Options, p: Progress, bars: seq<SourceBar>)
    requires options.attemptId != "" && Sound(p.db)
    requires NoMismatch(p.db, PageRows(job, g, options, p.counts.pages, bars)) && p.counts.pages > 0
    requires Untried(p.db, options.attemptId, p.counts.pages - 1)
    ensures var r := AfterPage(job, g, options, p, bars);
            && r.counts.inserted + |p.db.canonical| == p.counts.inserted + |r.db.canonical|
            && Untried(r.db, options.attemptId, p.counts.pages)
  {
    var rows := PageRows(job, g, options, p.counts.pages, bars);
    PageKeysDiffer(job, g, options, p.counts.pages, bars);
    assert forall i :: 0 <= i < |rows| ==> rows[i].key == ReceiptKey(options.attemptId, p.counts.pages, i);
    InsertedTold(p.db, rows, p.counts);
    NoneCounted(rows, SaidInserted(p.db));
    forall n: nat, i: nat | n > p.counts.pages
      ensures ReceiptKey(options.attemptId, n, i) !in Settled(p.db, rows).receipts
    {
      forall j | 0 <= j < |rows| ensures rows[j].key != ReceiptKey(options.attemptId, n, i) {
        if rows[j].key == ReceiptKey(options.attemptId, n, i) {
          ReceiptKeysUnique(options.attemptId, p.counts.pages, j, n, i);
        }
      }
      SettledFrame(p.db, rows, ReceiptKey(options.attemptId, n, i));
    }
  }

  /** On an attempt that was never tried before, the inserted total is the number of canonical bars it added. */
  lemma {:induction false} InsertedAreAdded(job: Job, g: Grid, options: Options, provider: Provider, p: Progress,
                                            token: Option<string>, seen: set<string>)
    requires options.attemptId != "" && Sound(p.db) && Untried(p.db, options.attemptId, p.counts.pages)
    requires Collect(job, g, options, provider, p, token, seen).Ok?
    ensures var r := Collect(job, g, options, provider, p, token, seen).value;
            r.counts.inserted + |p.db.canonical| == p.counts.inserted + |r.db.canonical|
    decreases options.maxPages - p.counts.pages
  {
    var page := provider(p.counts.pages, token).value;
    var q := p.(counts := p.counts.(pages := p.counts.pages + 1));
    UntriedPage(job, g, options, q, page.bars);
    if Truthy(page.nextPageToken) {
      AcceptedPageTold(job, g, options, q, page.bars);
      InsertedAreAdded(job, g, options, provider, AfterPage(job, g, options, q, page.bars), page.nextPageToken,
                       seen + {page.nextPageToken.value});
    }
  }

  /** What the loop reports of the bars the provider delivered, in terms of the tables before and after. */
  ghost predicate Reported(job: Job, g: Grid, options: Options, provider: Provider, before: Db, r: Progress) {
    && RunTold(job, g, options, Progress(before, Counts(0, 0, 0, 0, 0), {}), r,
               Delivered(provider, 0, None, r.counts.pages))
    && (Untried(before, options.attemptId, 0) ==> r.counts.inserted == |r.db.canonical| - |before.canonical|)
  }

  lemma CollectReports(job: Job, g: Grid, options: Options, provider: Provider, db: Db)
    requires options.attemptId != "" && Sound(db)
    ensures var spec := Collect(job, g, options, provider, Progress(db, Counts(0, 0, 0, 0, 0), {}), None, {});
            spec.Ok? ==> Reported(job, g, options, provider, db, spec.value)
  {
    var start := Progress(db, Counts(0, 0, 0, 0, 0), {});
    if Collect(job, g, options, provider, start, None, {}).Ok? {
      CollectTold(job, g, options, provider, start, None, {});
      if Untried(db, options.attemptId, 0) { InsertedAreAdded(job, g, options, provider, start, None, {}); }
    }
  }

  /** The key has a completed receipt; if it is new, it names the job and the time of retrieval. */
  ghost predicate Receipted(job: Job, options: Options, key: string, before: map<string, Receipt>,
                            after: map<string, Receipt>) {
    && key in after && after[key].outcome.Some?
    && (key !in before ==> after[key].jobId == job.jobId && after[key].retrievedAt == options.now)
  }

  lemma RowReceipted(job: Job, g: Grid, options: Options, db: Db, page: nat, bars: seq<SourceBar>, i: nat)
    requires options.attemptId != "" && Sound(db) && NoMismatch(db, PageRows(job, g, options, page, bars)) && i < |bars|
    ensures Receipted(job, options, ReceiptKey(options.attemptId, page, i), db.receipts,
                      Settled(db, PageRows(job, g, options, page, bars)).receipts)
  {
    var rows := PageRows(job, g, options, page, bars);
    PageKeysDiffer(job, g, options, page, bars);
    SettledReceipt(db, rows, i);
    assert rows[i].key == ReceiptKey(options.attemptId, page, i) && rows[i].jobId == job.jobId;
  }

  lemma PageReceipted(job: Job, g: Grid, options: Options, db: Db, page: nat, bars: seq<SourceBar>)
    requires options.attemptId != "" && Sound(db) && NoMismatch(db, PageRows(job, g, options, page, bars))
    ensures forall i :: 0 <= i < |bars| ==>
              Receipted(job, options, ReceiptKey(options.attemptId, page, i), db.receipts,
                        Settled(db, PageRows(job, g, options, page, bars)).receipts)
  {
    forall i | 0 <= i < |bars|
      ensures Receipted(job, options, ReceiptKey(options.attemptId, page, i), db.receipts,
                        Settled(db, PageRows(job, g, options, page, bars)).receipts)
    {
      RowReceipted(job, g, options, db, page, bars, i);
    }
  }

  /** Accept one page into the store and count the outcomes. */
  method AcceptPage(job: Job, g: Grid, options: Options, store: D1NormalizedBarStore, bars: seq<SourceBar>,
                    counts0: Counts, starts0: set<Instant>)
    returns (result: Result<Counts>, starts: set<Instant>)
    requires Sound(store.State()) && options.attemptId != ""
    modifies store
    ensures Sound(store.State()) && Keeps(old(store.canonical), store.canonical)
    ensures result.Ok? <==> NoMismatch(old(store.State()), PageRows(job, g, options, counts0.pages, bars))
    ensures result.Ok? ==> Progress(store.State(), result.value, starts)
                           == AfterPage(job, g, options, Progress(old(store.State()), counts0, starts0), bars)
    ensures result.Ok? ==> Told(store.canonical, CandidatesFor(job, g, options, bars), counts0, result.value)
    ensures result.Ok? ==> starts == starts0 + StartsHeld(store.canonical, CandidatesFor(job, g, options, bars))
    ensures result.Ok? ==>
              result.value.inserted + |old(store.canonical)|
              == counts0.inserted + |store.canonical|
                 + Count(PageRows(job, g, options, counts0.pages, bars), SaidInserted(old(store.State())))
    ensures result.Ok? ==>
              forall i :: 0 <= i < |bars| ==>
                Receipted(job, options, ReceiptKey(options.attemptId, counts0.pages, i), old(store.receipts),
                          store.receipts)
    ensures result.Err? ==> result.error == IdempotencyMismatch
  {
    starts := starts0;
    var inputs := Inputs(job, g, options, counts0.pages, bars);
    forall i, j | 0 <= i < j < |inputs|
      ensures inputs[i].provenance.idempotencyKey != inputs[j].provenance.idempotencyKey
    {
      ReceiptKeysDiffer(options.attemptId, counts0.pages, i, j);
    }
    var rows := RowsOf(inputs);
    ghost var before := store.State();
    var receipts := store.AcceptBatch(inputs);
    if receipts.Err? { return Err(receipts.error), starts; }
    AcceptedPageTold(job, g, options, Progress(before, counts0, starts0), bars);
    PageKeysDiffer(job, g, options, counts0.pages, bars);
    InsertedTold(before, rows, counts0);
    PageReceipted(job, g, options, before, counts0.pages, bars);
    forall i | 0 <= i < |rows| ensures OutcomeIn(store.State(), rows[i]) == Some(receipts.value[i].outcome) {
      assert Some(receipts.value[i]) == ResultFor(before, store.State(), rows[i]);
    }
    var counts: Counts;
    counts, starts := CountReceipts(rows, receipts.value, counts0, starts0, store.State());
    result := Ok(counts);
  }

  /** A served row has its canonical bar. */
  lemma ServedIsStored(job: Job, g: Grid, options: Options, p: Progress, bars: seq<SourceBar>,
                       i: nat)
    requires options.attemptId != "" && i < |PageRows(job, g, options, p.counts.pages, bars)|
    requires var rows := PageRows(job, g, options, p.counts.pages, bars); Served(Settled(p.db, rows), rows[i])
    ensures var rows := PageRows(job, g, options, p.counts.pages, bars);
            InStore(Settled(p.db, rows).canonical, job.instrument.symbol, g, rows[i].candidate.bar.barStart)
  {
    var rows := PageRows(job, g, options, p.counts.pages, bars);
    ReceivedIsStored(p.db, rows, i);
    NormalizedIdentity(bars[i], job.instrument.symbol, g, options.dates);
    assert rows[i].candidate == Normalize(bars[i], job.instrument.symbol, g, options.dates);
    var identity := IdentityFor(rows[i].candidate.bar);
    assert identity in Settled(p.db, rows).canonical;
  }

  lemma NormalizedIdentity(source: SourceBar, symbol: string, g: Grid, dates: Dates)
    requires Normalize(source, symbol, g, dates).Normalized?
    ensures var identity := IdentityFor(Normalize(source, symbol, g, dates).bar);
            identity.instrumentId == symbol && identity.interval == g.cadence && identity.sessionKind == g.scope
  {
  }

  /** What a page adds to the served starts is in the canonical store. */
  lemma PageIsStored(job: Job, g: Grid, options: Options, p: Progress, bars: seq<SourceBar>)
    requires options.attemptId != "" && AllInStore(p.db.canonical, job.instrument.symbol, g, p.starts)
    ensures var r := AfterPage(job, g, options, p, bars);
            AllInStore(r.db.canonical, job.instrument.symbol, g, r.starts)
  {
    var r := AfterPage(job, g, options, p, bars);
    var rows := PageRows(job, g, options, p.counts.pages, bars);
    SettledKeeps(p.db, rows);
    forall at | at in r.starts ensures InStore(r.db.canonical, job.instrument.symbol, g, at) {
      if at !in p.starts {
        var i :| 0 <= i < |rows| && Served(r.db, rows[i]) && rows[i].candidate.bar.barStart == at;
        ServedIsStored(job, g, options, p, bars, i);
      } else {
        assert InStore(p.db.canonical, job.instrument.symbol, g, at);
      }
    }
  }

  lemma SettledKeeps(before: Db, rows: seq<Row>)
    ensures Keeps(before.canonical, Settled(before, rows).canonical)
  {
    assert rows[..0] == [];
    forall identity | identity in before.canonical
      ensures identity in Settled(before, rows).canonical
      ensures Settled(before, rows).canonical[identity] == before.canonical[identity]
    {
      CanonicalStable(before, rows, 0, identity);
    }
  }

  /** A normalised row of a settled batch has a canonical bar. */
  lemma ReceivedIsStored(before: Db, rows: seq<Row>, i: nat)
    requires i < |rows| && rows[i].Identity().Some?
    ensures rows[i].Identity().value in Settled(before, rows).canonical
  {
    PrefixStep(before, rows, i);
    CanonicalStable(before, rows, i + 1, rows[i].Identity().value);
  }

  /** One turn of the loop after the page was fetched. */
  method AcceptReply(job: Job, g: Grid, options: Options, store: D1NormalizedBarStore, bars: seq<SourceBar>,
                     counts0: Counts, starts0: set<Instant>)
    returns (result: Result<Counts>, starts: set<Instant>)
    requires Sound(store.State()) && options.attemptId != ""
    requires AllInStore(store.canonical, job.instrument.symbol, g, starts0)
    modifies store
    ensures Sound(store.State()) && Keeps(old(store.canonical), store.canonical)
    ensures var p := Progress(old(store.State()), counts0, starts0);
            && (result.Ok? ==> PageRefused(job, g, options, p, bars) == None)
            && (result.Ok? ==> Progress(store.State(), result.value, starts) == AfterPage(job, g, options, p, bars))
            && (result.Err? ==> PageRefused(job, g, options, p, bars) == Some(result.error))
    ensures result.Ok? ==> AllInStore(store.canonical, job.instrument.symbol, g, starts)
  {
    if counts0.Bars() + |bars| > options.maxBars { return Err(BarLimitExceeded), starts0; }
    if exists i :: 0 <= i < |bars| && bars[i].symbol != job.instrument.symbol {
      return Err(UnrequestedSymbol), starts0;
    }
    PageIsStored(job, g, options, Progress(store.State(), counts0, starts0), bars);
    result, starts := AcceptPage(job, g, options, store, bars, counts0, starts0);
  }

  /** The loop itself. */
  method FollowPages(job: Job, g: Grid, options: Options, provider: Provider, store: D1NormalizedBarStore)
    returns (result: Result<Counts>, starts: set<Instant>)
    requires Sound(store.State()) && options.attemptId != ""
    modifies store
    ensures Sound(store.State()) && Keeps(old(store.canonical), store.canonical)
    ensures var spec := Collect(job, g, options, provider, Progress(old(store.State()), Counts(0, 0, 0, 0, 0), {}),
                                None, {});
            && (result.Ok? ==> spec == Ok(Progress(store.State(), result.value, starts)))
            && (result.Err? ==> spec == Err(result.error))
    ensures result.Ok? ==> AllInStore(store.canonical, job.instrument.symbol, g, starts)
    ensures result.Ok? ==> 1 <= result.value.pages <= options.maxPages && result.value.Bars() <= options.maxBars
  {
    starts := {};
    var counts := Counts(0, 0, 0, 0, 0);
    var pageToken: Option<string> := None;
    var seenTokens: set<string> := {};
    ghost var spec := Collect(job, g, options, provider, Progress(store.State(), counts, {}), None, {});
    while true
      invariant Sound(store.State()) && Keeps(old(store.canonical), store.canonical)
      invariant AllInStore(store.canonical, job.instrument.symbol, g, starts)
      invariant spec == Collect(job, g, options, provider, Progress(store.State(), counts, starts), pageToken,
                                seenTokens)
      decreases options.maxPages - counts.pages
    {
      if counts.pages >= options.maxPages { return Err(PageLimitExceeded), starts; }
      var reply := provider(counts.pages, pageToken);
      if reply.Err? { return Err(reply.error), starts; }
      var page := reply.value;
      counts := counts.(pages := counts.pages + 1);
      var accepted: Result<Counts>;
      accepted, starts := AcceptReply(job, g, options, store, page.bars, counts, starts);
      if accepted.Err? { return Err(accepted.error), starts; }
      counts := accepted.value;
      pageToken := page.nextPageToken;
      if !Truthy(pageToken) { return Ok(counts), starts; }
      if pageToken.value in seenTokens { return Err(RepeatedPageToken), starts; }
      seenTokens := seenTokens + {pageToken.value};
    }
  }

  /** The page loop: bounded in pages and bars whatever the provider replies; every start it reports served is in the
      canonical store, and its totals are those of the bars the provider delivered. */
  method CollectPages(job: Job, g: Grid, options: Options, provider: Provider, store: D1NormalizedBarStore)
    returns (result: Result<Counts>, starts: set<Instant>)
    requires Sound(store.State()) && options.attemptId != ""
    modifies store
    ensures Sound(store.State()) && Keeps(old(store.canonical), store.canonical)
    ensures var spec := Collect(job, g, options, provider, Progress(old(store.State()), Counts(0, 0, 0, 0, 0), {}),
                                None, {});
            && (result.Ok? ==> spec == Ok(Progress(store.State(), result.value, starts)))
            && (result.Err? ==> spec == Err(result.error))
    ensures result.Ok? ==> AllInStore(store.canonical, job.instrument.symbol, g, starts)
    ensures result.Ok? ==> 1 <= result.value.pages <= options.maxPages && result.value.Bars() <= options.maxBars
    ensures result.Ok? ==>
              Reported(job, g, options, provider, old(store.State()), Progress(store.State(), result.value, starts))
  {
    CollectReports(job, g, options, provider, store.State());
    result, starts := FollowPages(job, g, options, provider, store);
  }

  /** The absence list names the requested symbol, carries evidence, and lies inside the requested range. */
  predicate AbsencesValid(job: Job, absences: seq<Absence>) {
    forall i :: 0 <= i < |absences| ==>
      absences[i].symbol == job.instrument.symbol && absences[i].evidenceValid
      && job.requestedRange.start <= absences[i].identityStart < job.requestedRange.end
  }

  function AbsenceStarts(absences: seq<Absence>): set<Instant> {
    set i | 0 <= i < |absences| :: absences[i].identityStart
  }

  /** The absence is evidenced, of the requested symbol and range, on the expected grid, and was not delivered after
      all. */
  ghost predicate CanBeAcknowledged(job: Job, expected: seq<Bar>, starts: set<Instant>, a: Absence) {
    && a.symbol == job.instrument.symbol && a.evidenceValid
    && job.requestedRange.start <= a.identityStart < job.requestedRange.end
    && a.identityStart !in starts && exists b :: b in expected && b.start == a.identityStart
  }

  lemma AcknowledgedIff(job: Job, absences: seq<Absence>, expected: seq<Bar>, starts: set<Instant>)
    ensures AbsencesValid(job, absences) && AbsencesFit(expected, AbsenceStarts(absences), starts)
       <==> forall i :: 0 <= i < |absences| ==> CanBeAcknowledged(job, expected, starts, absences[i])
  {
    var acked := AbsenceStarts(absences);
    if AbsencesFit(expected, acked, starts) {
      forall i | 0 <= i < |absences|
        ensures absences[i].identityStart !in starts
        ensures exists b :: b in expected && b.start == absences[i].identityStart
      {
        assert absences[i].identityStart in acked;
        var k :| 0 <= k < |expected| && expected[k].start == absences[i].identityStart;
        assert expected[k] in expected;
      }
    }
    if forall i :: 0 <= i < |absences| ==> CanBeAcknowledged(job, expected, starts, absences[i]) {
      forall at | at in acked ensures at !in starts && exists k :: 0 <= k < |expected| && expected[k].start == at {
        var i :| 0 <= i < |absences| && absences[i].identityStart == at;
        var b :| b in expected && b.start == absences[i].identityStart;
        var k :| 0 <= k < |expected| && expected[k] == b;
      }
    }
  }

  /** The contiguous-advance loop. */
  method AdvanceThrough(through: Option<Instant>, expected: seq<Bar>, have: set<Instant>)
    returns (completeThrough: Option<Instant>)
    ensures completeThrough == Advance(through, expected, have)
  {
    completeThrough := through;
    for i := 0 to |expected|
      invariant Advance(completeThrough, expected[i..], have) == Advance(through, expected, have)
    {
      var bar := expected[i];
      assert expected[i..][1..] == expected[i + 1..];
      if completeThrough.Some? && bar.completes <= completeThrough.value { continue; }
      if bar.start !in have { break; }
      completeThrough := Some(bar.completes);
    }
  }

  /** Gaps, contiguous advance and ledger of one proposal. */
  method Propose(job: Job, g: Grid, options: Options, existing: Option<StoredCheckpoint>, expected: seq<Bar>,
                 have: set<Instant>)
    returns (proposed: StoredCheckpoint, missingCount: nat)
    requires g.Wf() && expected == Expected(g, job.requestedRange)
    ensures proposed == Proposal(job, g, options, existing, have)
    ensures missingCount == |Unserved(ThroughOf(existing), expected, have)|
  {
    var missing := Unserved(ThroughOf(existing), expected, have);
    missingCount := |missing|;
    var completeThrough := AdvanceThrough(ThroughOf(existing), expected, have);
    var ranges := MergeMissing(RangesOf(missing));
    proposed := StoredCheckpoint(
      job.expectation.coverageKey, job.instrument.symbol, job.instrument.cadence, job.sessionScope,
      PageVariant(job.instrument.route, options.feed), completeThrough,
      if missing == [] then Complete else Partial, ranges,
      if missing == [] then Some(options.now) else if existing.Some? then existing.value.lastSuccessAt else None,
      Some(options.now),
      if missing != [] && options.gapRetryDelayMs.Some? then Some(options.now + options.gapRetryDelayMs.value)
      else None,
      if expected == [] then None else Some(expected[|expected| - 1].completes),
      Some(job.universeRevision), if existing.Some? then existing.value.version else 0, None);
  }

  /** Propose from what was served and commit: on success the row of the job, and no other, becomes the whole proposal
      under the next version, and its ledger covers exactly the bars past the boundary that are still unserved. */
  method CommitProposal(job: Job, g: Grid, options: Options, existing: Option<StoredCheckpoint>, expected: seq<Bar>,
                        have: set<Instant>, checkpoints: D1CoverageCheckpointPort)
    returns (result: Result<nat>)
    requires g.Wf() && expected == Expected(g, job.requestedRange)
    requires existing == Checkpoint.Row(checkpoints.table, job.expectation.coverageKey)
    modifies checkpoints
    ensures var proposal := Proposal(job, g, options, existing, have);
            var key, expectation := job.expectation.coverageKey, job.expectation.expectedVersion;
            && (result.Ok? <==> ValidProposal(proposal) && ValidVersion(expectation)
                                && Fits(existing, expectation, proposal))
            && (result.Err? ==> checkpoints.table == old(checkpoints.table))
            && (result.Ok? ==>
                  && result.value == |Unserved(ThroughOf(existing), expected, have)|
                  && key in checkpoints.table && Follows(existing, proposal, checkpoints.table[key])
                  && checkpoints.table == old(checkpoints.table)[key := checkpoints.table[key]]
                  && LedgerOf(checkpoints.table[key], ThroughOf(existing), expected, have))
  {
    var proposed, missing := Propose(job, g, options, existing, expected, have);
    ProposalRecordsGaps(job, g, options, existing, have);
    var updated := checkpoints.CompareAndSet(job.expectation.expectedVersion, proposed);
    if updated.Err? { return Err(updated.error); }
    if updated.value.VersionConflict? { return Err(CompareAndSetConflict); }
    result := Ok(missing);
  }

  /** Execute one single-instrument job.  On success exactly one row changed, by a compare-and-set on the
      planned version, to the proposal computed from the row it replaced and from bars that are in the
      store; on failure no checkpoint changed. */
  method ExecuteAcquisitionJob(job: Job, g: Grid, options: Options, absences: seq<Absence>, provider: Provider,
                               checkpoints: D1CoverageCheckpointPort, store: D1NormalizedBarStore)
    returns (result: Result<Summary>)
    requires g.Wf() && Sound(store.State()) && options.attemptId != ""
    modifies checkpoints, store
    ensures Sound(store.State()) && Keeps(old(store.canonical), store.canonical)
    ensures result.Err? ==> checkpoints.table == old(checkpoints.table)
    ensures var spec := Collect(job, g, options, provider, Progress(old(store.State()), Counts(0, 0, 0, 0, 0), {}),
                                None, {});
            var key := job.expectation.coverageKey;
            var existing := Checkpoint.Row(old(checkpoints.table), key);
            var expected := Expected(g, job.requestedRange);
            var acked := AbsenceStarts(absences);
            && (result.Ok? <==>
                  && spec.Ok?
                  && (forall i :: 0 <= i < |absences|
                        ==> CanBeAcknowledged(job, expected, spec.value.starts, absences[i]))
                  && var proposal := Proposal(job, g, options, existing, spec.value.starts + acked);
                     ValidProposal(proposal) && ValidVersion(job.expectation.expectedVersion)
                     && Fits(existing, job.expectation.expectedVersion, proposal))
            && (result.Ok? ==>
                  var p := spec.value;
                  var missing := Unserved(ThroughOf(existing), expected, p.starts + acked);
                  && store.State() == p.db && AllInStore(store.canonical, job.instrument.symbol, g, p.starts)
                  && result.value == Summary(job.jobId,
                       if missing != [] || p.counts.conflicts > 0 || p.counts.rejected > 0 then PartialAttempt
                       else Succeeded,
                       p.counts, |missing|, |acked|)
                  && p.counts.pages <= options.maxPages && p.counts.Bars() <= options.maxBars
                  && Reported(job, g, options, provider, old(store.State()), p)
                  && key in checkpoints.table
                  && Follows(existing, Proposal(job, g, options, existing, p.starts + acked), checkpoints.table[key])
                  && LedgerOf(checkpoints.table[key], ThroughOf(existing), expected, p.starts + acked)
                  && checkpoints.table == old(checkpoints.table)[key := checkpoints.table[key]])
  {
    if !AbsencesValid(job, absences) { return Err(InvalidAbsenceEvidence); }
    var absenceStarts := AbsenceStarts(absences);
    var collected, starts := CollectPages(job, g, options, provider, store);
    if collected.Err? { return Err(collected.error); }
    var counts := collected.value;

    var key := job.expectation.coverageKey;
    var existing := checkpoints.Get(key);
    var expected := ExpectedBars(g, job.requestedRange);
    AcknowledgedIff(job, absences, expected, starts);
    if !AbsencesFit(expected, absenceStarts, starts) { return Err(AbsenceOffGrid); }
    var committed := CommitProposal(job, g, options, existing, expected, starts + absenceStarts, checkpoints);
    if committed.Err? { return Err(committed.error); }
    var missing := committed.value;
    var outcome := if missing > 0 || counts.conflicts > 0 || counts.rejected > 0 then PartialAttempt else Succeeded;
    result := Ok(Summary(job.jobId, outcome, counts, missing, |absenceStarts|));
  }
}
