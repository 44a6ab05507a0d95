/** What an accepted page adds to the running totals and to the served starts. */
module Tallies {
  import opened Market
  import opened Counting
  import opened BarNormalization
  import opened BarStore

  datatype Counts = Counts(pages: nat, inserted: nat, matched: nat, conflicts: nat, rejected: nat) {
    function Bars(): nat { inserted + matched + conflicts + rejected }
  }

  function OutcomeIn(db: Db, row: Row): Option<AcceptanceOutcome> {
    if row.key in db.receipts then db.receipts[row.key].outcome else None
  }

  function Tally(counts: Counts, outcome: AcceptanceOutcome): Counts {
    match outcome
    case Inserted => counts.(inserted := counts.inserted + 1)
    case Matched => counts.(matched := counts.matched + 1)
    case Conflict => counts.(conflicts := counts.conflicts + 1)
    case RejectedBar => counts.(rejected := counts.rejected + 1)
  }

  function TallyAll(counts: Counts, db: Db, rows: seq<Row>): (total: Counts)
    ensures total.pages == counts.pages && total.Bars() <= counts.Bars() + |rows|
  {
    if rows == [] then counts
    else
      var before := TallyAll(counts, db, rows[..|rows| - 1]);
      var outcome := OutcomeIn(db, rows[|rows| - 1]);
      if outcome.Some? then Tally(before, outcome.value) else before
  }

  predicate Served(db: Db, row: Row) {
    row.candidate.Normalized? && (OutcomeIn(db, row) == Some(Inserted) || OutcomeIn(db, row) == Some(Matched))
  }

  function ServedStarts(db: Db, rows: seq<Row>): set<Instant> {
    set i | 0 <= i < |rows| && Served(db, rows[i]) :: rows[i].candidate.bar.barStart
  }

  lemma ServedStartsStep(db: Db, rows: seq<Row>, i: nat)
    requires i < |rows|
    ensures ServedStarts(db, rows[..i + 1])
         == ServedStarts(db, rows[..i]) + (if Served(db, rows[i]) then {rows[i].candidate.bar.barStart} else {})
  {
    var x, y := ServedStarts(db, rows[..i]), ServedStarts(db, rows[..i + 1]);
    forall at | at in x ensures at in y {
      var j :| 0 <= j < i && Served(db, rows[..i][j]) && rows[..i][j].candidate.bar.barStart == at;
      assert rows[..i + 1][j] == rows[..i][j];
    }
    forall at | at in y ensures at in x || (Served(db, rows[i]) && at == rows[i].candidate.bar.barStart) {
      var j :| 0 <= j < i + 1 && Served(db, rows[..i + 1][j]) && rows[..i + 1][j].candidate.bar.barStart == at;
      if j < i { assert rows[..i][j] == rows[..i + 1][j]; }
    }
    if Served(db, rows[i]) { assert rows[..i + 1][i] == rows[i]; }
  }

  /** Count the receipts of a page and collect the starts that were inserted or matched. */
  method CountReceipts(rows: seq<Row>, receipts: seq<AcceptanceResult>, counts0: Counts, starts0: set<Instant>,
                       ghost db: Db)
    returns (counts: Counts, starts: set<Instant>)
    requires |rows| == |receipts|
    requires forall i :: 0 <= i < |rows| ==> OutcomeIn(db, rows[i]) == Some(receipts[i].outcome)
    ensures counts == TallyAll(counts0, db, rows) && starts == starts0 + ServedStarts(db, rows)
  {
    counts, starts := counts0, starts0;
    for i := 0 to |rows|
      invariant counts == TallyAll(counts0, db, rows[..i])
      invariant starts == starts0 + ServedStarts(db, rows[..i])
    {
      assert rows[..i + 1][..i] == rows[..i];
      ServedStartsStep(db, rows, i);
      counts := Tally(counts, receipts[i].outcome);
      if rows[i].candidate.Normalized? && (receipts[i].outcome == Inserted || receipts[i].outcome == Matched) {
        starts := starts + {rows[i].candidate.bar.barStart};
      }
    }
    assert rows[..|rows|] == rows;
  }

  // What the totals mean.

  function HasOutcome(db: Db, outcome: AcceptanceOutcome): Row -> bool {
    (row: Row) => OutcomeIn(db, row) == Some(outcome)
  }

  function IsRejected(): Candidate -> bool { (c: Candidate) => c.Rejected? }

  function IsContradicted(canonical: map<Identity, Canonical>): Candidate -> bool {
    (c: Candidate) => Contradicts(canonical, c)
  }

  function IsHeld(canonical: map<Identity, Canonical>): Candidate -> bool {
    (c: Candidate) => Holds(canonical, c)
  }

  function StartsHeld(canonical: map<Identity, Canonical>, candidates: seq<Candidate>): set<Instant> {
    set i | 0 <= i < |candidates| && Holds(canonical, candidates[i]) :: candidates[i].bar.barStart
  }

  /** The totals grew by what became of these bars: rejected are those that do not normalise, conflicts those whose
      canonical bar has other content, inserted and matched together those whose canonical bar has their content. */
  predicate Told(canonical: map<Identity, Canonical>, candidates: seq<Candidate>, before: Counts, after: Counts) {
    && after.rejected == before.rejected + Count(candidates, IsRejected())
    && after.conflicts == before.conflicts + Count(candidates, IsContradicted(canonical))
    && after.inserted + after.matched == before.inserted + before.matched + Count(candidates, IsHeld(canonical))
  }

  /** Each total counts the rows whose receipt has that outcome. */
  lemma {:induction false} TallyCounts(counts: Counts, db: Db, rows: seq<Row>)
    ensures var total := TallyAll(counts, db, rows);
            && total.inserted == counts.inserted + Count(rows, HasOutcome(db, Inserted))
            && total.matched == counts.matched + Count(rows, HasOutcome(db, Matched))
            && total.conflicts == counts.conflicts + Count(rows, HasOutcome(db, Conflict))
            && total.rejected == counts.rejected + Count(rows, HasOutcome(db, RejectedBar))
    decreases |rows|
  {
    if rows != [] { TallyCounts(counts, db, rows[..|rows| - 1]); }
  }

  function CandidatesOf(rows: seq<Row>): (r: seq<Candidate>)
    ensures |r| == |rows|
  {
    seq(|rows|, i requires 0 <= i < |rows| => rows[i].candidate)
  }

  lemma OutcomeMeans(a: Db, rows: seq<Row>, b: Db, i: nat)
    requires i < |rows| && ReceiptAfter(a, rows, b, i)
    ensures HasOutcome(b, RejectedBar)(rows[i]) <==> rows[i].candidate.Rejected?
    ensures HasOutcome(b, Conflict)(rows[i]) <==> Contradicts(b.canonical, rows[i].candidate)
    ensures Holds(b.canonical, rows[i].candidate)
       <==> HasOutcome(b, Inserted)(rows[i]) || HasOutcome(b, Matched)(rows[i])
  {
  }

  ghost predicate AllReceipts(a: Db, rows: seq<Row>, b: Db) {
    forall i :: 0 <= i < |rows| ==> ReceiptAfter(a, rows, b, i)
  }

  lemma TotalsTold(a: Db, rows: seq<Row>, b: Db, counts: Counts)
    requires AllReceipts(a, rows, b)
    ensures Told(b.canonical, CandidatesOf(rows), counts, TallyAll(counts, b, rows))
  {
    var candidates := CandidatesOf(rows);
    var held := (row: Row) => Holds(b.canonical, row.candidate);
    forall i | 0 <= i < |rows|
      ensures HasOutcome(b, RejectedBar)(rows[i]) == IsRejected()(candidates[i])
      ensures HasOutcome(b, Conflict)(rows[i]) == IsContradicted(b.canonical)(candidates[i])
      ensures held(rows[i]) <==> HasOutcome(b, Inserted)(rows[i]) || HasOutcome(b, Matched)(rows[i])
    {
      OutcomeMeans(a, rows, b, i);
    }
    TallyCounts(counts, b, rows);
    CountAlike(rows, HasOutcome(b, RejectedBar), candidates, IsRejected());
    CountAlike(rows, HasOutcome(b, Conflict), candidates, IsContradicted(b.canonical));
    CountEither(rows, HasOutcome(b, Inserted), HasOutcome(b, Matched), held);
    CountAlike(rows, held, candidates, IsHeld(b.canonical));
  }

  lemma StartsTold(a: Db, rows: seq<Row>, b: Db)
    requires AllReceipts(a, rows, b)
    ensures ServedStarts(b, rows) == StartsHeld(b.canonical, CandidatesOf(rows))
  {
    forall i | 0 <= i < |rows| ensures Served(b, rows[i]) <==> Holds(b.canonical, CandidatesOf(rows)[i]) {
      OutcomeMeans(a, rows, b, i);
    }
  }

  /** What accepting a page adds to the totals and to the served starts. */
  lemma PageTold(a: Db, rows: seq<Row>, counts: Counts)
    requires Sound(a) && DistinctRows(rows) && NoMismatch(a, rows)
    ensures var b := Settled(a, rows);
            && Told(b.canonical, CandidatesOf(rows), counts, TallyAll(counts, b, rows))
            && ServedStarts(b, rows) == StartsHeld(b.canonical, CandidatesOf(rows))
  {
    SettledTables(a, rows);
    TotalsTold(a, rows, Settled(a, rows), counts);
    StartsTold(a, rows, Settled(a, rows));
  }

  /** A receipt that an earlier acceptance completed as INSERTED. */
  function SaidInserted(db: Db): Row -> bool { HasOutcome(db, Inserted) }

  /** A row counts as inserted when its bar is new or its receipt said so before, never both. */
  lemma InsertedIsNewOrSaid(a: Db, rows: seq<Row>, i: nat)
    requires Sound(a) && DistinctRows(rows) && NoMismatch(a, rows) && i < |rows|
    ensures HasOutcome(Settled(a, rows), Inserted)(rows[i]) <==> IsNew(a.canonical, rows, i) || SaidInserted(a)(rows[i])
    ensures !(IsNew(a.canonical, rows, i) && SaidInserted(a)(rows[i]))
  {
    SettledReceipt(a, rows, i);
    if rows[i].key in a.receipts { assert ReceiptSound(a, rows[i].key); }
  }

  lemma OneRowGrows(a: Db, rows: seq<Row>, i: nat)
    requires i < |rows|
    ensures |CanonicalBefore(a, rows, i + 1)|
         == |CanonicalBefore(a, rows, i)| + (if IsNew(a.canonical, rows, i) then 1 else 0)
  {
    PrefixStep(a, rows, i);
    InsertedMeansNew(a, rows, i);
  }

  lemma InsertedStep(a: Db, rows: seq<Row>, i: nat, inserted: Row -> bool)
    requires Sound(a) && DistinctRows(rows) && NoMismatch(a, rows) && i < |rows|
    requires inserted == HasOutcome(Settled(a, rows), Inserted)
    ensures Count(rows[..i + 1], inserted) - |CanonicalBefore(a, rows, i + 1)| - Count(rows[..i + 1], SaidInserted(a))
         == Count(rows[..i], inserted) - |CanonicalBefore(a, rows, i)| - Count(rows[..i], SaidInserted(a))
  {
    CountAppend(rows, i, inserted);
    CountAppend(rows, i, SaidInserted(a));
    InsertedIsNewOrSaid(a, rows, i);
    OneRowGrows(a, rows, i);
  }

  lemma {:induction false} InsertedGrowth(a: Db, rows: seq<Row>, n: nat)
    requires Sound(a) && DistinctRows(rows) && NoMismatch(a, rows) && n <= |rows|
    ensures var b := Settled(a, rows);
            Count(rows[..n], HasOutcome(b, Inserted)) + |a.canonical|
            == |CanonicalBefore(a, rows, n)| + Count(rows[..n], SaidInserted(a))
    decreases n
  {
    if n == 0 {
      assert rows[..0] == [];
    } else {
      InsertedGrowth(a, rows, n - 1);
      InsertedStep(a, rows, n - 1, HasOutcome(Settled(a, rows), Inserted));
    }
  }

  /** The inserted total grows by the canonical bars that are new, and by the rows an earlier acceptance had already
      completed as INSERTED. */
  lemma InsertedTold(a: Db, rows: seq<Row>, counts: Counts)
    requires Sound(a) && DistinctRows(rows) && NoMismatch(a, rows)
    ensures var b := Settled(a, rows);
            TallyAll(counts, b, rows).inserted + |a.canonical|
            == counts.inserted + |b.canonical| + Count(rows, SaidInserted(a))
  {
    assert rows[..|rows|] == rows;
    InsertedGrowth(a, rows, |rows|);
    TallyCounts(counts, Settled(a, rows), rows);
  }
}
