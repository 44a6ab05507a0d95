/** The coverage protocol over the real tables: the accept phase of every worker is the batch of SQL statements of the
    bar store, interleaved statement by statement with all other workers, and a bar counts as obtained only if it is
    in the canonical table. */
module StoredCoverage {
  import opened Market
  import opened Checkpoint
  import opened Schedule
  import opened Planner
  import opened BarNormalization
  import opened BarStore
  import opened Execution
  import opened Tallies
  import opened Executor
  import RecoveryChunks
  import Protocol = CoverageProtocol
  import Store = BarStoreSafety

  // A coverage key names its instrument.

  predicate Plain(symbol: string) { '|' !in symbol }

  /** What stands before the first separator. */
  function SymbolOf(key: string): string {
    if key == [] || key[0] == '|' then [] else [key[0]] + SymbolOf(key[1..])
  }

  lemma {:induction false} SymbolBefore(symbol: string, rest: string)
    requires Plain(symbol)
    ensures SymbolOf(symbol + "|" + rest) == symbol
  {
    if symbol == [] {
      assert (symbol + "|" + rest)[0] == '|';
    } else {
      assert (symbol + "|" + rest)[1..] == symbol[1..] + "|" + rest;
      SymbolBefore(symbol[1..], rest);
    }
  }

  lemma KeyNamesSymbol(instrument: Instrument, scope: SessionScope, variant: string)
    requires Plain(instrument.symbol)
    ensures SymbolOf(CoverageKeyFor(instrument, scope, variant)) == instrument.symbol
  {
    var rest := CadenceName(instrument.cadence) + "|" + ScopeName(scope) + "|" + variant;
    assert CoverageKeyFor(instrument, scope, variant) == instrument.symbol + "|" + rest;
    SymbolBefore(instrument.symbol, rest);
  }

  lemma PartsTell(a: string, x: string, b: string, y: string)
    requires Plain(a) && Plain(b) && a + "|" + x == b + "|" + y
    ensures a == b && x == y
  {
    SymbolBefore(a, x);
    SymbolBefore(b, y);
    assert (a + "|" + x)[|a| + 1..] == x && (b + "|" + y)[|a| + 1..] == y;
  }

  lemma KeyParts(instrument: Instrument, scope: SessionScope, variant: string)
    ensures var rest := ScopeName(scope) + "|" + variant;
            CoverageKeyFor(instrument, scope, variant)
            == instrument.symbol + "|" + (CadenceName(instrument.cadence) + "|" + rest)
  {
  }

  /** A key whose symbol has no separator tells symbol, cadence, scope and variant. */
  lemma KeysTell(a: Instrument, x: SessionScope, v: string, b: Instrument, y: SessionScope, w: string)
    requires Plain(a.symbol) && Plain(b.symbol)
    ensures CoverageKeyFor(a, x, v) == CoverageKeyFor(b, y, w)
       <==> a.symbol == b.symbol && a.cadence == b.cadence && x == y && v == w
  {
    var i, j := CadenceName(a.cadence), CadenceName(b.cadence);
    var p, q := ScopeName(x) + "|" + v, ScopeName(y) + "|" + w;
    KeyParts(a, x, v);
    KeyParts(b, y, w);
    if CoverageKeyFor(a, x, v) == CoverageKeyFor(b, y, w) {
      PartsTell(a.symbol, i + "|" + p, b.symbol, j + "|" + q);
      PartsTell(i, p, j, q);
      PartsTell(ScopeName(x), v, ScopeName(y), w);
      NamesTell(a.cadence, b.cadence, x, y);
    }
  }

  lemma NamesTell(a: Cadence, b: Cadence, x: SessionScope, y: SessionScope)
    ensures CadenceName(a) == CadenceName(b) ==> a == b
    ensures ScopeName(x) == ScopeName(y) ==> x == y
  {
    assert CadenceName(OneMin)[1] == 'M' && CadenceName(FifteenMin)[1] == '5' && CadenceName(OneDay)[1] == 'D';
    assert ScopeName(PremarketScope)[0] == 'P' && ScopeName(RegularScope)[0] == 'R' && ScopeName(AllTrading)[0] == 'A';
  }

  /** With a separator in it the symbol of one stream can make up the key of another. */
  lemma KeysCollide(scope: SessionScope, variant: string)
    ensures var tail := CadenceName(OneMin) + "|" + ScopeName(scope) + "|" + variant;
            CoverageKeyFor(Instrument("A", OneMin, StockBars), scope, "B|" + tail)
            == CoverageKeyFor(Instrument("A|" + CadenceName(OneMin) + "|" + ScopeName(scope) + "|B", OneMin, StockBars),
                              scope, variant)
  {
  }

  // The machine.

  /** What is fixed throughout: the grid of each coverage key, which symbol a key names, and which data variants the
      provider's pages carry for it. */
  datatype Setting = Setting(grids: Protocol.Grids, symbolOf: string -> string, carries: (string, string) -> bool)
  {
    /** The stream's key names its instrument. */
    predicate Names(instrument: Instrument, key: string) { symbolOf(key) == instrument.symbol }
  }

  /** `batches` holds the rows of a worker whose acceptance of a page is under way. */
  datatype State = State(cov: Protocol.State, store: Store.State, batches: map<nat, seq<Row>>)

  datatype Action =
    | Cover(a: Protocol.Action)
    | Begin(w: nat, options: Options, page: nat, bars: seq<SourceBar>)
    | Statement(s: Store.Action)
    | ReadBack(w: nat)

  const INITIAL := State(Protocol.INITIAL, Store.INITIAL, map[])

  /** The worker stops: its job throws, or it crashes. */
  function Stopped(m: Setting, s: State, w: nat): State {
    State(Protocol.Next(m.grids, s.cov, Protocol.Crash(w)), Store.Next(s.store, Store.Crash(w)), s.batches - {w})
  }

  predicate PlanNamed(m: Setting, policy: Policy, instrument: Instrument) {
    policy.ScopeOf(instrument).Ok? ==>
      m.Names(instrument, CoverageKeyFor(instrument, policy.ScopeOf(instrument).value,
                                         policy.logicalDataVariant(instrument)))
  }

  /** The protocol step is one that this machine takes. */
  predicate Taken(m: Setting, s: State, a: Protocol.Action) {
    match a
    case Plan(_, policy, _, _, _, instrument, _) => PlanNamed(m, policy, instrument)
    case Recover(_, request, _, _) => m.Names(request.instrument, request.coverageKey)
    case _ => a.w !in s.batches && !a.Accept? && !a.Crash?
  }

  /** Symbols without a separator are named by every key, so one setting serves a whole universe of them. */
  lemma PlainSymbolsAreNamed(m: Setting, policy: Policy, instrument: Instrument)
    requires Plain(instrument.symbol) && forall key :: m.symbolOf(key) == SymbolOf(key)
    ensures PlanNamed(m, policy, instrument)
  {
    if policy.ScopeOf(instrument).Ok? {
      KeyNamesSymbol(instrument, policy.ScopeOf(instrument).value, policy.logicalDataVariant(instrument));
    }
  }

  /** A step of planning, reading, committing or crashing; nothing is accepted but through the store. */
  function CoverStep(m: Setting, s: State, a: Protocol.Action): State {
    if a.Crash? then Stopped(m, s, a.w)
    else if Taken(m, s, a) then s.(cov := Protocol.Next(m.grids, s.cov, a))
    else s
  }

  /** A page has arrived: its rows are built from the job, and their receipts reserved. */
  function BeginStep(m: Setting, s: State, w: nat, options: Options, page: nat,
                     bars: seq<SourceBar>): State {
    var worker := s.cov.WorkerAt(w);
    if !worker.Fetching? || w in s.batches || options.attemptId == "" || worker.job.expectation.coverageKey !in m.grids
       || (exists i :: 0 <= i < |bars| && !m.carries(worker.job.expectation.coverageKey, bars[i].dataVariant))
    then s
    else
      var rows := PageRows(worker.job, m.grids[worker.job.expectation.coverageKey], options, page, bars);
      s.(store := Store.Next(s.store, Store.Begin(w, rows)), batches := s.batches[w := rows])
  }

  /** The next statement of a batch; a receipt of another observation makes the job throw. */
  function StatementStep(m: Setting, s: State, a: Store.Action): State {
    if a.Begin? || a.Crash? || a.w !in s.batches then s
    else if a.Check? && s.store.At(a.w).Reserved? && !NoMismatch(s.store.db, s.store.At(a.w).rows)
    then Stopped(m, s, a.w)
    else s.(store := Store.Next(s.store, a))
  }

  /** After the completion statement the worker reads its receipts and adds what was inserted or matched. */
  function ReadBackStep(m: Setting, s: State, w: nat): State {
    if w !in s.batches || !s.store.At(w).Idle? then s
    else
      s.(cov := Protocol.Next(m.grids, s.cov, Protocol.Accept(w, ServedStarts(s.store.db, s.batches[w]))),
         batches := s.batches - {w})
  }

  function Next(m: Setting, s: State, a: Action): State {
    match a
    case Cover(c) => CoverStep(m, s, c)
    case Begin(w, options, page, bars) => BeginStep(m, s, w, options, page, bars)
    case Statement(t) => StatementStep(m, s, t)
    case ReadBack(w) => ReadBackStep(m, s, w)
  }

  function Run(m: Setting, actions: seq<Action>): State {
    if actions == [] then INITIAL else Next(m, Run(m, actions[..|actions| - 1]), actions[|actions| - 1])
  }

  // The invariant.

  /** A bar of the stream, of a data variant it carries. */
  predicate OfStream(m: Setting, key: string, identity: Identity)
    requires key in m.grids
  {
    && identity.instrumentId == m.symbolOf(key) && identity.interval == m.grids[key].cadence
    && identity.sessionKind == m.grids[key].scope && m.carries(key, identity.logicalDataVariant)
  }

  /** The starts of a stream that have a canonical bar. */
  function StoredStarts(m: Setting, canonical: map<Identity, Canonical>, key: string): set<Instant>
    requires key in m.grids
  {
    set identity | identity in canonical && OfStream(m, key, identity) :: identity.barStart
  }

  /** What has happened to a stream, with the canonical table as the only witness of a stored bar. */
  function StreamHistory(m: Setting, s: State, key: string): Protocol.History
    requires key in m.grids
  {
    s.cov.HistoryAt(key).(stored := StoredStarts(m, s.store.db.canonical, key))
  }

  /** The state of the coverage protocol that the tables amount to. */
  function View(m: Setting, s: State): Protocol.State {
    s.cov.(history := map key | key in m.grids :: StreamHistory(m, s, key))
  }

  ghost predicate RowOfStream(m: Setting, key: string, row: Row)
    requires key in m.grids
  {
    row.Identity().Some? ==>
      OfStream(m, key, row.Identity().value) && row.Identity().value.barStart == row.candidate.bar.barStart
  }

  /** A job knows its symbol, and a batch is one of the job's stream: in progress in the store, or reserved there for
      exactly these rows. */
  ghost predicate WorkerFits(m: Setting, s: State, w: nat) {
    var worker := s.cov.WorkerAt(w);
    && (!worker.Idle? ==> worker.job.instrument.symbol == m.symbolOf(worker.job.expectation.coverageKey))
    && (w !in s.batches ==> s.store.At(w).Idle?)
    && (w in s.batches ==>
          && worker.Fetching? && worker.job.expectation.coverageKey in m.grids
          && (forall row :: row in s.batches[w] ==>
                RowOfStream(m, worker.job.expectation.coverageKey, row))
          && (!s.store.At(w).Idle? ==> s.store.At(w).rows == s.batches[w])
          && (s.store.At(w).Idle? ==> forall row :: row in s.batches[w] ==> Store.RowReserved(s.store.db, row)))
  }

  ghost predicate Inv(m: Setting, s: State) {
    && Store.Inv(s.store) && Protocol.Inv(m.grids, View(m, s))
    && forall w: nat :: WorkerFits(m, s, w)
  }

  // The store side.

  lemma StoredGrows(m: Setting, a: Db, b: Db, key: string)
    requires key in m.grids && Store.Extends(a, b)
    ensures StoredStarts(m, a.canonical, key) <= StoredStarts(m, b.canonical, key)
  {
  }

  /** When only the tables grow, what the protocol knows stays true. */
  lemma ViewStable(m: Setting, s: State, t: State)
    requires Protocol.Inv(m.grids, View(m, s)) && t.cov == s.cov && Store.Extends(s.store.db, t.store.db)
    ensures Protocol.Inv(m.grids, View(m, t))
  {
    var a, b := View(m, s), View(m, t);
    forall key | key in m.grids
      ensures Protocol.Grows(a.HistoryAt(key), b.HistoryAt(key))
      ensures Protocol.StreamOk(m.grids[key], b.HistoryAt(key), Checkpoint.Row(b.table, key))
    {
      StoredGrows(m, s.store.db, t.store.db, key);
      Protocol.StreamOkStable(m.grids[key], a.HistoryAt(key), b.HistoryAt(key), Checkpoint.Row(a.table, key));
    }
    forall w: nat ensures Protocol.WorkerOk(m.grids, b.table, Protocol.HistoryOf(b, b.WorkerAt(w)), b.WorkerAt(w)) {
      var d := a.WorkerAt(w);
      assert Protocol.WorkerOk(m.grids, a.table, Protocol.HistoryOf(a, d), d);
      Protocol.WorkerOkStable(m.grids, a.table, b.table, Protocol.HistoryOf(a, d), Protocol.HistoryOf(b, d), d);
    }
  }

  /** A served row has its canonical bar in the stream. */
  lemma ServedIsInTable(m: Setting, db: Db, key: string, rows: seq<Row>)
    requires Sound(db) && key in m.grids
    requires forall row :: row in rows ==> RowOfStream(m, key, row) && Store.RowReserved(db, row)
    ensures ServedStarts(db, rows) <= StoredStarts(m, db.canonical, key)
  {
    forall at | at in ServedStarts(db, rows) ensures at in StoredStarts(m, db.canonical, key) {
      var i :| 0 <= i < |rows| && Served(db, rows[i]) && rows[i].candidate.bar.barStart == at;
      assert rows[i] in rows;
      assert ReceiptSound(db, rows[i].key);
      assert rows[i].Identity().value in db.canonical;
    }
  }

  // The protocol side.

  lemma QuietCommutes(m: Setting, s: State, t: State, a: Protocol.Action)
    requires !a.Accept? && !a.Commit?
    requires t.cov == Protocol.Next(m.grids, s.cov, a) && t.store.db.canonical == s.store.db.canonical
    ensures View(m, t) == Protocol.Next(m.grids, View(m, s), a)
  {
    assert View(m, s).WorkerAt(a.w) == s.cov.WorkerAt(a.w);
    assert t.cov.history == s.cov.history;
    assert View(m, t).history == View(m, s).history;
  }

  lemma RefusedCommutes(m: Setting, s: State, t: State, a: Protocol.Action)
    requires a.Commit? && (s.cov.WorkerAt(a.w).Deciding? ==>
                             Protocol.Committed(m.grids, s.cov.table, s.cov.WorkerAt(a.w), a.options).None?)
    requires t.cov == Protocol.Next(m.grids, s.cov, a) && t.store.db.canonical == s.store.db.canonical
    ensures View(m, t) == Protocol.Next(m.grids, View(m, s), a)
  {
    assert View(m, s).WorkerAt(a.w) == s.cov.WorkerAt(a.w);
    assert View(m, t).history == View(m, s).history;
  }

  lemma CommitCommutes(m: Setting, s: State, t: State, a: Protocol.Action)
    requires a.Commit? && s.cov.WorkerAt(a.w).Deciding?
    requires Protocol.Committed(m.grids, s.cov.table, s.cov.WorkerAt(a.w), a.options).Some?
    requires t.cov == Protocol.Next(m.grids, s.cov, a) && t.store.db.canonical == s.store.db.canonical
    ensures View(m, t) == Protocol.Next(m.grids, View(m, s), a)
  {
    var x, y := View(m, t), Protocol.Next(m.grids, View(m, s), a);
    assert View(m, s).WorkerAt(a.w) == s.cov.WorkerAt(a.w);
    assert x.history.Keys == y.history.Keys == m.grids.Keys;
    forall key | key in m.grids ensures x.history[key] == y.history[key] {
      assert View(m, s).HistoryAt(key) == StreamHistory(m, s, key);
    }
  }

  /** Seen through the tables, a protocol step that accepts nothing is that step of the protocol. */
  lemma ViewCommutes(m: Setting, s: State, t: State, a: Protocol.Action)
    requires !a.Accept? && t.cov == Protocol.Next(m.grids, s.cov, a) && t.store.db.canonical == s.store.db.canonical
    ensures View(m, t) == Protocol.Next(m.grids, View(m, s), a)
  {
    if !a.Commit? {
      QuietCommutes(m, s, t, a);
    } else if s.cov.WorkerAt(a.w).Deciding?
              && Protocol.Committed(m.grids, s.cov.table, s.cov.WorkerAt(a.w), a.options).Some? {
      CommitCommutes(m, s, t, a);
    } else {
      RefusedCommutes(m, s, t, a);
    }
  }

  /** Reading back starts that are in the table is an acceptance that stores nothing new. */
  lemma ViewAccepts(m: Setting, s: State, t: State, w: nat, accepted: set<Instant>)
    requires s.cov.WorkerAt(w).Fetching? && s.cov.WorkerAt(w).job.expectation.coverageKey in m.grids
    requires t.cov == Protocol.Next(m.grids, s.cov, Protocol.Accept(w, accepted)) && t.store == s.store
    requires var key := s.cov.WorkerAt(w).job.expectation.coverageKey;
             accepted <= StoredStarts(m, s.store.db.canonical, key)
    ensures View(m, t) == Protocol.Next(m.grids, View(m, s), Protocol.Accept(w, accepted))
  {
    var x, y := View(m, t), Protocol.Next(m.grids, View(m, s), Protocol.Accept(w, accepted));
    var own := s.cov.WorkerAt(w).job.expectation.coverageKey;
    assert View(m, s).WorkerAt(w) == s.cov.WorkerAt(w);
    assert x.history.Keys == y.history.Keys == m.grids.Keys;
    forall key | key in m.grids ensures x.history[key] == y.history[key] {
      assert View(m, s).HistoryAt(key) == StreamHistory(m, s, key);
      if key == own {
        var stored := StoredStarts(m, s.store.db.canonical, key);
        assert stored + accepted == stored;
      }
    }
  }

  // Each step keeps the invariant.

  /** Nothing about worker `w` but its protocol phase moved, and nothing it knows of the store was lost. */
  lemma FitsStable(m: Setting, s: State, t: State, w: nat)
    requires WorkerFits(m, s, w) && Store.Extends(s.store.db, t.store.db)
    requires t.cov.WorkerAt(w) == s.cov.WorkerAt(w) && t.store.At(w) == s.store.At(w)
    requires (w in t.batches <==> w in s.batches) && (w in s.batches ==> t.batches[w] == s.batches[w])
    ensures WorkerFits(m, t, w)
  {
  }

  lemma ExtendsSelf(db: Db)
    ensures Store.Extends(db, db)
  {
  }

  lemma OthersFit(m: Setting, s: State, t: State, w: nat)
    requires Inv(m, s) && Store.Extends(s.store.db, t.store.db) && WorkerFits(m, t, w)
    requires forall v: nat :: v != w ==>
               && t.cov.WorkerAt(v) == s.cov.WorkerAt(v) && t.store.At(v) == s.store.At(v)
               && (v in t.batches <==> v in s.batches) && (v in s.batches ==> t.batches[v] == s.batches[v])
    ensures forall v: nat :: WorkerFits(m, t, v)
  {
    forall v: nat ensures WorkerFits(m, t, v) {
      if v != w { FitsStable(m, s, t, v); }
    }
  }

  lemma StoppedKeeps(m: Setting, s: State, w: nat)
    requires Protocol.GridsWf(m.grids) && Inv(m, s)
    ensures Inv(m, Stopped(m, s, w)) && Store.Extends(s.store.db, Stopped(m, s, w).store.db)
  {
    var t := Stopped(m, s, w);
    Store.StepSafe(s.store, Store.Crash(w));
    ViewCommutes(m, s, t, Protocol.Crash(w));
    Protocol.StepKeepsInvariant(m.grids, View(m, s), Protocol.Crash(w));
    OthersFit(m, s, t, w);
  }

  /** A planned job carries the symbol its key names. */
  lemma PlannedSymbol(m: Setting, s: State, a: Protocol.Action)
    requires a.Plan? && PlanNamed(m, a.policy, a.instrument) && WorkerFits(m, s, a.w)
    ensures var worker := Protocol.Next(m.grids, s.cov, a).WorkerAt(a.w);
            !worker.Idle? ==> worker.job.instrument.symbol == m.symbolOf(worker.job.expectation.coverageKey)
  {
  }

  lemma RecoveredSymbol(m: Setting, s: State, a: Protocol.Action)
    requires a.Recover? && m.Names(a.request.instrument, a.request.coverageKey) && WorkerFits(m, s, a.w)
    ensures var worker := Protocol.Next(m.grids, s.cov, a).WorkerAt(a.w);
            !worker.Idle? ==> worker.job.instrument.symbol == m.symbolOf(worker.job.expectation.coverageKey)
  {
    var worker := Protocol.RecoveryWorker(a.request, a.calendar, a.absences);
    if worker.Fetching? { RecoveryChunks.JobCarriesRequest(a.request, a.calendar, worker.job); }
  }

  /** Where a worker of the protocol goes, its batch follows. */
  lemma CoverFits(m: Setting, s: State, a: Protocol.Action)
    requires Inv(m, s) && Taken(m, s, a)
    ensures forall w: nat :: WorkerFits(m, s.(cov := Protocol.Next(m.grids, s.cov, a)), w)
  {
    ExtendsSelf(s.store.db);
    assert WorkerFits(m, s, a.w);
    if a.Plan? { PlannedSymbol(m, s, a); }
    if a.Recover? { RecoveredSymbol(m, s, a); }
    OthersFit(m, s, s.(cov := Protocol.Next(m.grids, s.cov, a)), a.w);
  }

  lemma CoverKeeps(m: Setting, s: State, a: Protocol.Action)
    requires Protocol.GridsWf(m.grids) && Inv(m, s)
    ensures Inv(m, CoverStep(m, s, a)) && Store.Extends(s.store.db, CoverStep(m, s, a).store.db)
  {
    ExtendsSelf(s.store.db);
    if a.Crash? {
      StoppedKeeps(m, s, a.w);
    } else if Taken(m, s, a) {
      ViewCommutes(m, s, CoverStep(m, s, a), a);
      Protocol.StepKeepsInvariant(m.grids, View(m, s), a);
      CoverFits(m, s, a);
    }
  }

  lemma PageRowsFit(m: Setting, key: string, job: Job, options: Options, page: nat, bars: seq<SourceBar>)
    requires options.attemptId != "" && key in m.grids && job.instrument.symbol == m.symbolOf(key)
    requires forall i :: 0 <= i < |bars| ==> m.carries(key, bars[i].dataVariant)
    ensures forall row :: row in PageRows(job, m.grids[key], options, page, bars) ==> RowOfStream(m, key, row)
    ensures DistinctRows(PageRows(job, m.grids[key], options, page, bars))
  {
    var g := m.grids[key];
    var rows := PageRows(job, g, options, page, bars);
    forall row | row in rows ensures RowOfStream(m, key, row) {
      var i :| 0 <= i < |rows| && rows[i] == row;
      assert row.candidate == Normalize(bars[i], job.instrument.symbol, g, options.dates);
      if row.candidate.Normalized? { NormalizedIdentity(bars[i], job.instrument.symbol, g, options.dates); }
    }
    PageKeysDiffer(job, g, options, page, bars);
  }

  /** A step of worker `w` in the store that loses nothing. */
  lemma StoreMoved(m: Setting, s: State, t: State, w: nat)
    requires Inv(m, s) && Store.Inv(t.store) && Store.Extends(s.store.db, t.store.db)
    requires t.cov == s.cov && WorkerFits(m, t, w)
    requires forall v: nat :: v != w ==>
               && t.store.At(v) == s.store.At(v)
               && (v in t.batches <==> v in s.batches) && (v in s.batches ==> t.batches[v] == s.batches[v])
    ensures Inv(m, t)
  {
    ViewStable(m, s, t);
    OthersFit(m, s, t, w);
  }

  lemma BeginKeeps(m: Setting, s: State, w: nat, options: Options, page: nat, bars: seq<SourceBar>)
    requires Protocol.GridsWf(m.grids) && Inv(m, s)
    ensures var t := BeginStep(m, s, w, options, page, bars);
            Inv(m, t) && Store.Extends(s.store.db, t.store.db)
  {
    var t := BeginStep(m, s, w, options, page, bars);
    ExtendsSelf(s.store.db);
    if t != s {
      var job := s.cov.WorkerAt(w).job;
      var key := job.expectation.coverageKey;
      assert WorkerFits(m, s, w);
      PageRowsFit(m, key, job, options, page, bars);
      Store.StepSafe(s.store, Store.Begin(w, PageRows(job, m.grids[key], options, page, bars)));
      StoreMoved(m, s, t, w);
    }
  }

  /** After the completion statement every row of the batch is still reserved for its observation. */
  lemma StatementFits(m: Setting, s: State, a: Store.Action)
    requires Inv(m, s) && !a.Begin? && !a.Crash? && a.w in s.batches
    requires !(a.Check? && s.store.At(a.w).Reserved? && !NoMismatch(s.store.db, s.store.At(a.w).rows))
    ensures Store.Inv(Store.Next(s.store, a)) && Store.Extends(s.store.db, Store.Next(s.store, a).db)
    ensures WorkerFits(m, s.(store := Store.Next(s.store, a)), a.w)
  {
    Store.StepSafe(s.store, a);
    assert WorkerFits(m, s, a.w) && Store.PhaseOk(s.store.db, s.store.At(a.w));
  }

  lemma StatementOthers(s: Store.State, a: Store.Action)
    ensures forall v: nat :: v != a.w ==> Store.Next(s, a).At(v) == s.At(v)
  {
  }

  lemma StatementAdvances(m: Setting, s: State, a: Store.Action, next: Store.State)
    requires Protocol.GridsWf(m.grids) && Inv(m, s) && !a.Begin? && !a.Crash? && a.w in s.batches
    requires !(a.Check? && s.store.At(a.w).Reserved? && !NoMismatch(s.store.db, s.store.At(a.w).rows))
    requires next == Store.Next(s.store, a)
    ensures Inv(m, s.(store := next)) && Store.Extends(s.store.db, next.db)
  {
    StatementFits(m, s, a);
    StatementOthers(s.store, a);
    StoreMoved(m, s, s.(store := next), a.w);
  }

  lemma StatementKeeps(m: Setting, s: State, a: Store.Action)
    requires Protocol.GridsWf(m.grids) && Inv(m, s)
    ensures Inv(m, StatementStep(m, s, a)) && Store.Extends(s.store.db, StatementStep(m, s, a).store.db)
  {
    ExtendsSelf(s.store.db);
    if !a.Begin? && !a.Crash? && a.w in s.batches {
      if a.Check? && s.store.At(a.w).Reserved? && !NoMismatch(s.store.db, s.store.At(a.w).rows) {
        StoppedKeeps(m, s, a.w);
      } else {
        StatementAdvances(m, s, a, Store.Next(s.store, a));
      }
    }
  }

  /** What a finished batch reads back is in the table. */
  lemma ReadBackInTable(m: Setting, s: State, w: nat)
    requires Inv(m, s) && w in s.batches && s.store.At(w).Idle?
    ensures s.cov.WorkerAt(w).Fetching? && s.cov.WorkerAt(w).job.expectation.coverageKey in m.grids
    ensures var key := s.cov.WorkerAt(w).job.expectation.coverageKey;
            ServedStarts(s.store.db, s.batches[w]) <= StoredStarts(m, s.store.db.canonical, key)
  {
    assert WorkerFits(m, s, w);
    var key := s.cov.WorkerAt(w).job.expectation.coverageKey;
    ServedIsInTable(m, s.store.db, key, s.batches[w]);
  }

  lemma ReadBackFits(m: Setting, s: State, w: nat)
    requires Inv(m, s) && w in s.batches && s.store.At(w).Idle?
    ensures forall v: nat :: WorkerFits(m, ReadBackStep(m, s, w), v)
  {
    ExtendsSelf(s.store.db);
    assert WorkerFits(m, s, w);
    OthersFit(m, s, ReadBackStep(m, s, w), w);
  }

  lemma ReadBackKeeps(m: Setting, s: State, w: nat)
    requires Protocol.GridsWf(m.grids) && Inv(m, s)
    ensures Inv(m, ReadBackStep(m, s, w)) && Store.Extends(s.store.db, ReadBackStep(m, s, w).store.db)
  {
    ExtendsSelf(s.store.db);
    if w in s.batches && s.store.At(w).Idle? {
      var served := ServedStarts(s.store.db, s.batches[w]);
      ReadBackInTable(m, s, w);
      ReadBackFits(m, s, w);
      ViewAccepts(m, s, ReadBackStep(m, s, w), w, served);
      Protocol.StepKeepsInvariant(m.grids, View(m, s), Protocol.Accept(w, served));
    }
  }

  lemma StepKeeps(m: Setting, s: State, a: Action)
    requires Protocol.GridsWf(m.grids) && Inv(m, s)
    ensures Inv(m, Next(m, s, a)) && Store.Extends(s.store.db, Next(m, s, a).store.db)
  {
    match a
    case Cover(c) => CoverKeeps(m, s, c);
    case Begin(w, options, page, bars) => BeginKeeps(m, s, w, options, page, bars);
    case Statement(t) => StatementKeeps(m, s, t);
    case ReadBack(w) => ReadBackKeeps(m, s, w);
  }

  lemma InitialHolds(m: Setting)
    ensures Inv(m, INITIAL)
  {
    assert Protocol.Inv(m.grids, View(m, INITIAL));
  }

  lemma {:induction false} RunInvariant(m: Setting, actions: seq<Action>)
    requires Protocol.GridsWf(m.grids)
    ensures Inv(m, Run(m, actions))
    decreases |actions|
  {
    if actions == [] {
      InitialHolds(m);
    } else {
      var prefix := actions[..|actions| - 1];
      RunInvariant(m, prefix);
      StepKeeps(m, Run(m, prefix), actions[|actions| - 1]);
    }
  }

  // The theorems.

  /** The stream has a canonical bar, of a data variant it carries, that starts at `at`. */
  ghost predicate InTable(m: Setting, canonical: map<Identity, Canonical>, key: string, at: Instant)
    requires key in m.grids
  {
    exists identity :: identity in canonical && OfStream(m, key, identity) && identity.barStart == at
  }

  /** The bar is in the canonical table, acknowledged absent by a committed job, or below a committed floor. */
  ghost predicate Accounted(m: Setting, s: State, key: string, b: Bar)
    requires key in m.grids
  {
    var h := s.cov.HistoryAt(key);
    InTable(m, s.store.db.canonical, key, b.start) || b.start in h.acked || Protocol.Below(h.floor, b)
  }

  /** End to end, over any interleaving of planning, recovery, SQL statements, commits and crashes of any workers:
      whatever `completeThrough` certifies, and whatever lies before the end of the last gap or was observed and lies
      outside all gaps, is in the canonical table unless it was acknowledged absent or expired. */
  lemma CertifiedIsStored(m: Setting, actions: seq<Action>, key: string, b: Bar)
    requires Protocol.GridsWf(m.grids)
    requires var s := Run(m, actions);
             key in s.cov.table && key in m.grids && m.grids[key].Eligible(b)
             && (Claims(s.cov.table[key], b) || Protocol.Observed(s.cov.table[key], b))
    ensures Accounted(m, Run(m, actions), key, b)
  {
    var s := Run(m, actions);
    RunInvariant(m, actions);
    assert Protocol.StreamOk(m.grids[key], View(m, s).HistoryAt(key), Checkpoint.Row(s.cov.table, key));
    assert Protocol.Done(StreamHistory(m, s, key), b);
  }

  /** In particular, when the pages of each stream carry one data variant, the canonical bar is of that variant. */
  lemma CertifiedUnderVariant(m: Setting, variantOf: string -> string, actions: seq<Action>, key: string, b: Bar)
    requires Protocol.GridsWf(m.grids) && forall k, variant :: m.carries(k, variant) <==> variant == variantOf(k)
    requires var s := Run(m, actions);
             key in s.cov.table && key in m.grids && m.grids[key].Eligible(b)
             && (Claims(s.cov.table[key], b) || Protocol.Observed(s.cov.table[key], b))
    ensures var s, g := Run(m, actions), m.grids[key];
            || Identity(m.symbolOf(key), g.cadence, b.start, g.scope, variantOf(key)) in s.store.db.canonical
            || b.start in s.cov.HistoryAt(key).acked || Protocol.Below(s.cov.HistoryAt(key).floor, b)
  {
    var s, g := Run(m, actions), m.grids[key];
    CertifiedIsStored(m, actions, key, b);
    if InTable(m, s.store.db.canonical, key, b.start) {
      var identity :| identity in s.store.db.canonical && OfStream(m, key, identity) && identity.barStart == b.start;
      assert identity == Identity(m.symbolOf(key), g.cadence, b.start, g.scope, variantOf(key));
    }
  }

  /** From any point of any run on the canonical table only grows, so what was certified once stays stored. */
  lemma {:induction false} StoredForEver(m: Setting, actions: seq<Action>, i: nat)
    requires Protocol.GridsWf(m.grids) && i <= |actions|
    ensures Store.Extends(Run(m, actions[..i]).store.db, Run(m, actions).store.db)
    decreases |actions|
  {
    if i == |actions| {
      assert actions[..i] == actions;
      ExtendsSelf(Run(m, actions).store.db);
    } else {
      var prefix := actions[..|actions| - 1];
      assert prefix[..i] == actions[..i];
      StoredForEver(m, prefix, i);
      RunInvariant(m, prefix);
      StepKeeps(m, Run(m, prefix), actions[|actions| - 1]);
    }
  }
}
