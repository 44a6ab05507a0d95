/** The in-memory ports of the simulation do what the real executor does over the real store, as long as no bar
    conflicts: the same counts, the same served starts, the same committed row. */
module SimulatedStore {
  import opened Market
  import opened SessionGrid
  import opened Checkpoint
  import opened Schedule
  import opened BarNormalization
  import opened BarStore
  import opened Execution
  import opened Tallies
  import opened Executor
  import opened LocalEvidence
  import opened Pb04
  import opened ServedPages

  function IdentityAt(job: Job, g: Grid, variant: string, at: Instant): Identity {
    Identity(job.instrument.symbol, g.cadence, at, g.scope, variant)
  }

  /** The simulation remembers exactly the starts whose canonical bar the store holds. */
  ghost predicate Mirrors(job: Job, g: Grid, variant: string, canonical: map<Identity, Canonical>,
                          accepted: set<Instant>) {
    forall at :: at in accepted <==> IdentityAt(job, g, variant, at) in canonical
  }

  /** None of the receipts of this page exists yet. */
  ghost predicate FreshRows(db: Db, rows: seq<Row>) {
    forall i :: 0 <= i < |rows| ==> rows[i].key !in db.receipts
  }

  /** Rows of one stream and variant. */
  ghost predicate OfStream(job: Job, g: Grid, variant: string, rows: seq<Row>) {
    forall i :: 0 <= i < |rows| && rows[i].candidate.Normalized?
      ==> rows[i].Identity() == Some(IdentityAt(job, g, variant, rows[i].candidate.bar.barStart))
  }

  lemma PageRowsOfStream(job: Job, g: Grid, options: Options, page: nat, bars: seq<SourceBar>,
                         variant: string)
    requires options.attemptId != "" && forall i :: 0 <= i < |bars| ==> bars[i].dataVariant == variant
    ensures OfStream(job, g, variant, PageRows(job, g, options, page, bars))
  {
    var rows := PageRows(job, g, options, page, bars);
    forall i | 0 <= i < |rows| && rows[i].candidate.Normalized?
      ensures rows[i].Identity() == Some(IdentityAt(job, g, variant, rows[i].candidate.bar.barStart))
    {
      assert rows[i].candidate == Normalize(bars[i], job.instrument.symbol, g, options.dates);
      NormalizedIdentity(bars[i], job.instrument.symbol, g, options.dates);
    }
  }

  /** On fresh receipts and without conflicts a row is judged by whether its bar is there already. */
  lemma FreshVerdict(content: Contents, db: Db, rows: seq<Row>, i: nat)
    requires DistinctRows(rows) && FreshRows(db, rows) && Agrees(content, db.canonical) && i < |rows|
    requires forall j :: 0 <= j < |rows| ==> RowAgrees(content, rows[j])
    ensures OutcomeIn(Settled(db, rows), rows[i])
         == Some(if rows[i].candidate.Rejected? then RejectedBar
                 else if rows[i].Identity().value in Settled(db, rows[..i]).canonical then Matched else Inserted)
  {
    SettledReceiptAt(db, rows, i);
    SettledAgrees(content, db, rows[..i]);
    assert RowAgrees(content, rows[i]);
  }

  lemma MirrorStep(job: Job, g: Grid, variant: string, db: Db, accepted: set<Instant>, row: Row)
    requires Mirrors(job, g, variant, db.canonical, accepted)
    requires row.candidate.Normalized? ==>
               row.Identity() == Some(IdentityAt(job, g, variant, row.candidate.bar.barStart))
    ensures Mirrors(job, g, variant, Settle(db, row).canonical,
                    if row.candidate.Normalized? then accepted + {row.candidate.bar.barStart} else accepted)
  {
  }

  /** After `n` rows store and simulation agree. */
  ghost predicate InStep(job: Job, g: Grid, variant: string, db: Db, rows: seq<Row>, counts: Counts, t: Tallied, n: nat)
    requires n <= |rows|
  {
    && Mirrors(job, g, variant, Settled(db, rows[..n]).canonical, t.accepted)
    && TallyAll(counts, Settled(db, rows), rows[..n]) == t.counts
    && ServedStarts(Settled(db, rows), rows[..n]) == t.starts
  }

  lemma StepStaysInStep(content: Contents, job: Job, g: Grid, variant: string, db: Db,
                        rows: seq<Row>,
                        candidates: seq<Candidate>, counts: Counts, accepted: set<Instant>, n: nat)
    requires DistinctRows(rows) && FreshRows(db, rows) && Agrees(content, db.canonical)
             && OfStream(job, g, variant, rows)
    requires forall j :: 0 <= j < |rows| ==> RowAgrees(content, rows[j])
    requires |candidates| == |rows| && n < |rows| && candidates[n] == rows[n].candidate
    requires InStep(job, g, variant, db, rows, counts, AcceptAll(candidates[..n], Tallied(counts, {}, accepted)), n)
    ensures InStep(job, g, variant, db, rows, counts, AcceptAll(candidates[..n + 1], Tallied(counts, {}, accepted)),
                   n + 1)
  {
    var t := AcceptAll(candidates[..n], Tallied(counts, {}, accepted));
    assert candidates[..n + 1][..n] == candidates[..n] && rows[..n + 1][..n] == rows[..n];
    FreshVerdict(content, db, rows, n);
    PrefixStep(db, rows, n);
    MirrorStep(job, g, variant, Settled(db, rows[..n]), t.accepted, rows[n]);
    ServedStartsStep(Settled(db, rows), rows, n);
  }

  lemma {:induction false} StaysInStep(content: Contents, job: Job, g: Grid, variant: string, db: Db, rows: seq<Row>,
                                       candidates: seq<Candidate>, counts: Counts, accepted: set<Instant>, n: nat)
    requires DistinctRows(rows) && FreshRows(db, rows) && Agrees(content, db.canonical)
             && OfStream(job, g, variant, rows)
    requires forall j :: 0 <= j < |rows| ==> RowAgrees(content, rows[j])
    requires |candidates| == |rows| && forall j :: 0 <= j < |rows| ==> candidates[j] == rows[j].candidate
    requires Mirrors(job, g, variant, db.canonical, accepted) && n <= |rows|
    ensures InStep(job, g, variant, db, rows, counts, AcceptAll(candidates[..n], Tallied(counts, {}, accepted)), n)
    decreases n
  {
    if n == 0 {
      assert rows[..0] == [] && candidates[..0] == [];
    } else {
      StaysInStep(content, job, g, variant, db, rows, candidates, counts, accepted, n - 1);
      StepStaysInStep(content, job, g, variant, db, rows, candidates, counts, accepted, n - 1);
    }
  }

  /** Accepting a page into the store and into the simulated set: same counts, same starts, and the two still mirror
      each other. */
  lemma PageIsSimulated(content: Contents, job: Job, g: Grid, options: Options, variant: string,
                        p: Progress, bars: seq<SourceBar>, accepted: set<Instant>)
    requires options.attemptId != "" && p.starts == {}
    requires Agrees(content, p.db.canonical) && Mirrors(job, g, variant, p.db.canonical, accepted)
    requires FreshRows(p.db, PageRows(job, g, options, p.counts.pages, bars))
    requires forall i :: 0 <= i < |bars|
               ==> bars[i].dataVariant == variant && BarAgrees(content, job, g, options, bars[i])
    ensures var r := AfterPage(job, g, options, p, bars);
            var t := AcceptAll(Candidates(bars, job.instrument.symbol, g, options.dates),
                               Tallied(p.counts, {}, accepted));
            r.counts == t.counts && r.starts == t.starts && Mirrors(job, g, variant, r.db.canonical, t.accepted)
  {
    var rows := PageRows(job, g, options, p.counts.pages, bars);
    var candidates := Candidates(bars, job.instrument.symbol, g, options.dates);
    PageKeysDiffer(job, g, options, p.counts.pages, bars);
    PageRowsOfStream(job, g, options, p.counts.pages, bars, variant);
    PageRowsAgree(content, job, g, options, p.counts.pages, bars);
    StaysInStep(content, job, g, variant, p.db, rows, candidates, p.counts, accepted, |rows|);
    assert rows[..|rows|] == rows && candidates[..|rows|] == candidates;
  }

  lemma FreshKeys(db: Db, job: Job, g: Grid, options: Options, bars: seq<SourceBar>)
    requires options.attemptId != "" && FreshRows(db, PageRows(job, g, options, 1, bars))
    ensures forall i :: 0 <= i < |bars| ==> ReceiptKey(options.attemptId, 1, i) !in db.receipts
  {
    var rows := PageRows(job, g, options, 1, bars);
    assert forall i :: 0 <= i < |rows| ==> rows[i].key == ReceiptKey(options.attemptId, 1, i);
  }

  const NOTHING := Counts(0, 0, 0, 0, 0)

  /** The summary of a job: successful when nothing is missing, in conflict or rejected. */
  ghost predicate Summarises(s: Summary, job: Job, counts: Counts, missing: nat, acked: nat) {
    && s.jobId == job.jobId && s.counts == counts && s.missing == missing && s.acknowledgedAbsent == acked
    && (s.outcome == Succeeded <==> missing == 0 && counts.conflicts == 0 && counts.rejected == 0)
  }

  /** The simulated compare-and-set is the real one. */
  lemma ConcludedIsReturned(job: Job, g: Grid, options: Options, acked: set<Instant>, s: SimState, t: Tallied)
    requires Concluded(job, g, options, acked, s, t).Ok?
    ensures var step := Concluded(job, g, options, acked, s, t).value;
            var proposal := Proposal(job, g, options, Some(s.current), t.starts + acked);
            && AbsencesFit(Expected(g, job.requestedRange), acked, t.starts)
            && Summarises(step.summary, job, t.counts,
                          |Unserved(s.current.completeThrough, Expected(g, job.requestedRange), t.starts + acked)|,
                          |acked|)
            && step.state.accepted == t.accepted
            && Returned(Some(s.current), Update(job.expectation.expectedVersion, proposal)) == Some(step.state.current)
  {
    AdvanceMoves(s.current.completeThrough, Expected(g, job.requestedRange), t.starts + acked);
  }

  /** What the simulation accepts of a page. */
  function SimulatedPage(job: Job, g: Grid, options: Options, bars: seq<SourceBar>, s: SimState): Tallied {
    AcceptAll(Candidates(bars, job.instrument.symbol, g, options.dates),
              Tallied(Counts(1, 0, 0, 0, 0), {}, s.accepted))
  }

  lemma ExecutedPage(job: Job, g: Grid, options: Options, session: EvidenceSession, absences: seq<Absence>, s: SimState)
    returns (bars: seq<SourceBar>)
    requires Executed(job, g, options, session, absences, s).Ok?
    ensures FetchPage(session, job.instrument.symbol, job.requestedRange) == Ok(bars)
    ensures AbsencesValid(job, absences) && |bars| <= options.maxBars
    ensures forall i :: 0 <= i < |bars| ==> bars[i].symbol == job.instrument.symbol
    ensures Executed(job, g, options, session, absences, s)
         == Concluded(job, g, options, AbsenceStarts(absences), s, SimulatedPage(job, g, options, bars, s))
  {
    bars := FetchPage(session, job.instrument.symbol, job.requestedRange).value;
  }

  /** Simulated execution is real execution: over a store that holds what the simulation remembers and a provider that
      returns the local page, the page loop of the executor collects the same counts and starts, and the
      compare-and-set on the same row writes the same checkpoint. */
  lemma ExecutedIsReal(content: Contents, job: Job, g: Grid, options: Options, session: EvidenceSession,
                       absences: seq<Absence>, s: SimState, variant: string, db: Db, provider: Provider)
    requires Executed(job, g, options, session, absences, s).Ok?
    requires options.attemptId != "" && options.maxPages >= 1
    requires Agrees(content, db.canonical) && Mirrors(job, g, variant, db.canonical, s.accepted)
    requires var page := FetchPage(session, job.instrument.symbol, job.requestedRange);
             && page.Ok? && provider(0, None) == Ok(Executor.Page(page.value, None))
             && FreshRows(db, PageRows(job, g, options, 1, page.value))
             && forall i :: 0 <= i < |page.value| ==>
                  page.value[i].dataVariant == variant && BarAgrees(content, job, g, options, page.value[i])
    ensures var step := Executed(job, g, options, session, absences, s).value;
            var collected := Collect(job, g, options, provider, Progress(db, NOTHING, {}), None, {});
            var acked := AbsenceStarts(absences);
            && AbsencesValid(job, absences) && collected.Ok?
            && Summarises(step.summary, job, collected.value.counts,
                          |Unserved(s.current.completeThrough, Expected(g, job.requestedRange),
                                    collected.value.starts + acked)|, |acked|)
            && AbsencesFit(Expected(g, job.requestedRange), acked, collected.value.starts)
            && Some(step.state.current)
               == Returned(Some(s.current), Update(job.expectation.expectedVersion,
                             Proposal(job, g, options, Some(s.current), collected.value.starts + acked)))
            && Mirrors(job, g, variant, collected.value.db.canonical, step.state.accepted)
  {
    var bars := ExecutedPage(job, g, options, session, absences, s);
    FreshKeys(db, job, g, options, bars);
    SinglePageCollected(job, g, options, provider, bars, db);
    PageIsSimulated(content, job, g, options, variant, Progress(db, Counts(1, 0, 0, 0, 0), {}), bars, s.accepted);
    ConcludedIsReturned(job, g, options, AbsenceStarts(absences), s, SimulatedPage(job, g, options, bars, s));
  }
}
