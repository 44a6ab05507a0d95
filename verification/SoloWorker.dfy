/** Undisturbed, the interleaved statements do what one batch does. */
module SoloWorker {
  import opened Market
  import opened BarNormalization
  import opened BarStore
  import opened BarStoreSafety

  /** The six statements of worker `w`, one after the other. */
  function Alone(s: State, w: nat, rows: seq<Row>): State {
    var checked := Next(Next(s, Begin(w, rows)), Check(w));
    var read := Next(Next(checked, InsertBars(w)), ReadStored(w));
    Next(Next(read, RecordConflicts(w)), Finish(w))
  }

  lemma ReservedFits(db: Db, rows: seq<Row>)
    requires DistinctRows(rows) && NoMismatch(db, rows)
    ensures NoMismatch(db.(receipts := ReserveAll(db.receipts, rows)), rows)
  {
    forall i | 0 <= i < |rows| ensures SameObservation(ReserveAll(db.receipts, rows), rows[i]) {
      ReserveAllAt(db.receipts, rows, i);
      assert SameObservation(db.receipts, rows[i]);
    }
  }

  lemma {:induction false} ConflictsAreSettled(db: Db, rows: seq<Row>, n: nat)
    requires n <= |rows|
    ensures ConflictAll(Settled(db, rows).canonical, db.conflicts, rows[..n]) == Settled(db, rows[..n]).conflicts
    decreases n
  {
    if n > 0 {
      assert rows[..n][..n - 1] == rows[..n - 1];
      ConflictsAreSettled(db, rows, n - 1);
      PrefixStep(db, rows, n - 1);
      if rows[n - 1].Identity().Some? { CanonicalStable(db, rows, n, rows[n - 1].Identity().value); }
    }
  }

  /** The first row of a bar that is in an earlier row. */
  lemma {:induction false} FirstRow(canonical: map<Identity, Canonical>, rows: seq<Row>, i: nat, identity: Identity)
    returns (j: nat)
    requires i <= |rows| && identity !in canonical && Has(rows, i, identity)
    ensures j < i && rows[j].Identity() == Some(identity) && IsNew(canonical, rows, j)
    decreases i
  {
    var k :| 0 <= k < i && rows[k].Identity() == Some(identity);
    if Has(rows, k, identity) { j := FirstRow(canonical, rows, k, identity); } else { j := k; }
  }

  /** What a worker that was not disturbed read back. */
  ghost predicate ReadOf(db: Db, rows: seq<Row>, mine: set<Identity>, stored: map<Identity, Canonical>) {
    var after := Settled(db, rows).canonical;
    mine == after.Keys - db.canonical.Keys && stored == ReadFor(after, rows)
  }

  lemma StoredAt(db: Db, rows: seq<Row>, mine: set<Identity>, stored: map<Identity, Canonical>, i: nat)
    requires ReadOf(db, rows, mine, stored) && i < |rows| && rows[i].Identity().Some?
    ensures var identity := rows[i].Identity().value;
            && identity in stored && stored[identity] == CanonicalBefore(db, rows, i + 1)[identity]
            && identity in Settled(db, rows).canonical && Settled(db, rows).canonical[identity] == stored[identity]
  {
    PrefixStep(db, rows, i);
    CanonicalStable(db, rows, i + 1, rows[i].Identity().value);
  }

  /** The outcome derived in memory is the verdict in input order. */
  lemma OutcomeIsVerdict(db: Db, rows: seq<Row>, mine: set<Identity>, stored: map<Identity, Canonical>, i: nat)
    requires ReadOf(db, rows, mine, stored) && i < |rows|
    ensures OutcomeOf(rows, mine, stored, i) == Verdict(CanonicalBefore(db, rows, i), rows[i])
  {
    if rows[i].Identity().Some? {
      var identity := rows[i].Identity().value;
      StoredAt(db, rows, mine, stored, i);
      PrefixStep(db, rows, i);
      InsertedMeansNew(db, rows, i);
      SettledCanonical(db, rows[..i]);
      CanonicalGrows(db.canonical, rows, i);
      if identity !in db.canonical && Has(rows, i, identity) {
        var j := FirstRow(db.canonical, rows, i, identity);
        StoredAt(db, rows, mine, stored, j);
        PrefixStep(db, rows, j);
        InsertedMeansNew(db, rows, j);
        assert Claimed(rows, stored, i);
      }
    }
  }

  lemma FinishedReceipt(db: Db, done: Db, rows: seq<Row>, mine: set<Identity>, stored: map<Identity, Canonical>, i: nat)
    requires DistinctRows(rows) && ReadOf(db, rows, mine, stored) && i < |rows|
    requires done.receipts == ReserveAll(db.receipts, rows) && done.canonical == Settled(db, rows).canonical
    ensures rows[i].key in FinishAll(done, rows, mine, stored, |rows|)
    ensures FinishAll(done, rows, mine, stored, |rows|)[rows[i].key] == FinalReceipt(db, rows, i)
  {
    ReserveAllAt(db.receipts, rows, i);
    FinishAllAt(done, rows, mine, stored, |rows|, i);
    OutcomeIsVerdict(db, rows, mine, stored, i);
    if rows[i].Identity().Some? {
      StoredAt(db, rows, mine, stored, i);
      PrefixStep(db, rows, i);
    }
  }

  lemma FinishedIsSettled(db: Db, done: Db, rows: seq<Row>, mine: set<Identity>, stored: map<Identity, Canonical>)
    requires DistinctRows(rows) && ReadOf(db, rows, mine, stored)
    requires done.receipts == ReserveAll(db.receipts, rows) && done.canonical == Settled(db, rows).canonical
    ensures FinishAll(done, rows, mine, stored, |rows|) == Settled(db, rows).receipts
  {
    var receipts := FinishAll(done, rows, mine, stored, |rows|);
    forall key | ForeignKey(rows, key)
      ensures key in receipts <==> key in db.receipts
      ensures key in db.receipts ==> receipts[key] == db.receipts[key]
    {
      FinishAllFrame(done, rows, mine, stored, |rows|, key);
      ReserveAllFrame(db.receipts, rows, key);
    }
    forall i | 0 <= i < |rows| ensures rows[i].key in receipts && receipts[rows[i].key] == FinalReceipts(db, rows)[i] {
      FinishedReceipt(db, done, rows, mine, stored, i);
    }
    CompletedIsSettled(db, rows, receipts);
  }

  /** From sound tables an idle worker that nobody disturbs leaves the tables of one batch. */
  lemma AloneIsBatch(s: State, w: nat, rows: seq<Row>)
    requires s.At(w).Idle? && DistinctRows(rows) && NoMismatch(s.db, rows)
    ensures Alone(s, w, rows).db == Settled(s.db, rows) && Alone(s, w, rows).At(w).Idle?
  {
    var begun := Next(s, Begin(w, rows));
    ReservedFits(s.db, rows);
    var checked := Next(begun, Check(w));
    var inserted := Next(checked, InsertBars(w));
    SettledCanonical(s.db, rows);
    var read := Next(inserted, ReadStored(w));
    assert rows[..|rows|] == rows;
    ConflictsAreSettled(s.db, rows, |rows|);
    var recorded := Next(read, RecordConflicts(w));
    FinishedIsSettled(s.db, recorded.db, rows, recorded.At(w).mine, recorded.At(w).stored);
  }
}
