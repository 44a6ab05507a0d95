/** Any number of workers accepting bars at once, each SQL statement one atomic step, any worker crashing
    between two statements.  A single accept is a batch of one row. */
module BarStoreSafety {
  import opened Market
  import opened BarNormalization
  import opened BarStore

  /** How far a worker has come with its batch.  `mine` are the identities its own insert created and
      `stored` what it read back. */
  datatype Phase =
    | Idle
    | Reserved(rows: seq<Row>)
    | Checked(rows: seq<Row>)
    | BarsInserted(rows: seq<Row>, mine: set<Identity>)
    | StoredRead(rows: seq<Row>, mine: set<Identity>, stored: map<Identity, Canonical>)
    | ConflictsRecorded(rows: seq<Row>, mine: set<Identity>, stored: map<Identity, Canonical>)

  datatype State = State(db: Db, workers: map<nat, Phase>) {
    function At(w: nat): Phase { if w in workers then workers[w] else Idle }
  }

  datatype Action =
    | Begin(w: nat, rows: seq<Row>)
    | Check(w: nat)
    | InsertBars(w: nat)
    | ReadStored(w: nat)
    | RecordConflicts(w: nat)
    | Finish(w: nat)
    | Crash(w: nat)

  function ConflictAll(canonical: map<Identity, Canonical>, conflicts: map<string, ConflictRow>,
                       rows: seq<Row>): map<string, ConflictRow> {
    if rows == [] then conflicts
    else RecordConflict(canonical, ConflictAll(canonical, conflicts, rows[..|rows| - 1]), rows[|rows| - 1])
  }

  /** An earlier row of the batch already claimed the insertion of this identity. */
  predicate Claimed(rows: seq<Row>, stored: map<Identity, Canonical>, i: nat)
    requires i < |rows|
  {
    exists j :: 0 <= j < i && rows[j].Identity().Some? && rows[j].Identity() == rows[i].Identity()
                && rows[j].Identity().value in stored
                && stored[rows[j].Identity().value].fingerprint == rows[j].Fingerprint()
  }

  function OutcomeOf(rows: seq<Row>, mine: set<Identity>, stored: map<Identity, Canonical>, i: nat): AcceptanceOutcome
    requires i < |rows|
  {
    var identity := rows[i].Identity();
    if identity.None? then RejectedBar
    else if identity.value !in stored || stored[identity.value].fingerprint != rows[i].Fingerprint() then Conflict
    else if identity.value in mine && !Claimed(rows, stored, i) then Inserted
    else Matched
  }

  function VersionOf(canonical: map<Identity, Canonical>, row: Row): Option<int> {
    if row.Identity().None? || row.Identity().value !in canonical then None
    else Some(canonical[row.Identity().value].version)
  }

  function ReasonFor(canonical: map<Identity, Canonical>, row: Row): Option<Reason> {
    if row.candidate.Rejected? then Some(ForRejection(row.candidate.why.Code(), row.candidate.why))
    else if row.Identity().value in canonical && canonical[row.Identity().value].fingerprint != row.Fingerprint()
    then Some(DifferentContent) else None
  }

  /** The completion statement over the first `n` rows. */
  function FinishAll(db: Db, rows: seq<Row>, mine: set<Identity>, stored: map<Identity, Canonical>, n: nat): map<string,
                     Receipt>
    requires n <= |rows|
  {
    if n == 0 then db.receipts
    else Complete(FinishAll(db, rows, mine, stored, n - 1), rows[n - 1].key, OutcomeOf(rows, mine, stored, n - 1),
                  VersionOf(db.canonical, rows[n - 1]), ReasonFor(db.canonical, rows[n - 1]))
  }

  function ReadFor(canonical: map<Identity, Canonical>, rows: seq<Row>): map<Identity, Canonical> {
    map identity | identity in canonical && exists i :: 0 <= i < |rows| && rows[i].Identity() == Some(identity)
      :: canonical[identity]
  }

  /** One step.  An action whose worker is in another phase does nothing. */
  function Next(s: State, a: Action): State {
    var phase := s.At(a.w);
    match a
    case Begin(w, rows) =>
      if phase.Idle? && DistinctRows(rows) then
        State(s.db.(receipts := ReserveAll(s.db.receipts, rows)), s.workers[w := Reserved(rows)]) else s
    case Check(w) =>
      if phase.Reserved? then
        s.(workers := s.workers[w := if NoMismatch(s.db, phase.rows) then Checked(phase.rows) else Idle]) else s
    case InsertBars(w) =>
      if phase.Checked? then
        var canonical := CanonicalAfter(s.db.canonical, phase.rows);
        State(s.db.(canonical := canonical),
              s.workers[w := BarsInserted(phase.rows, canonical.Keys - s.db.canonical.Keys)]) else s
    case ReadStored(w) =>
      if phase.BarsInserted? then
        s.(workers := s.workers[w := StoredRead(phase.rows, phase.mine, ReadFor(s.db.canonical, phase.rows))]) else s
    case RecordConflicts(w) =>
      if phase.StoredRead? then
        State(s.db.(conflicts := ConflictAll(s.db.canonical, s.db.conflicts, phase.rows)),
              s.workers[w := ConflictsRecorded(phase.rows, phase.mine, phase.stored)]) else s
    case Finish(w) =>
      if phase.ConflictsRecorded? then
        State(s.db.(receipts := FinishAll(s.db, phase.rows, phase.mine, phase.stored, |phase.rows|)),
              s.workers[w := Idle]) else s
    case Crash(w) => s.(workers := s.workers[w := Idle])
  }

  function Run(s: State, actions: seq<Action>): State {
    if actions == [] then s else Next(Run(s, actions[..|actions| - 1]), actions[|actions| - 1])
  }

  const INITIAL := State(Db(map[], map[], map[]), map[])

  // The invariant.

  ghost predicate Extends(a: Db, b: Db) {
    && (forall key :: key in a.receipts ==>
          && key in b.receipts
          && b.receipts[key].requestFingerprint == a.receipts[key].requestFingerprint
          && b.receipts[key].identity == a.receipts[key].identity
          && b.receipts[key].jobId == a.receipts[key].jobId
          && b.receipts[key].retrievedAt == a.receipts[key].retrievedAt
          && (a.receipts[key].outcome.Some? ==> b.receipts[key] == a.receipts[key]))
    && (forall identity :: identity in a.canonical ==>
          identity in b.canonical && b.canonical[identity] == a.canonical[identity])
    && (forall key :: key in a.conflicts ==> key in b.conflicts && b.conflicts[key] == a.conflicts[key])
  }

  function Holding(p: Phase): set<Identity> {
    if p.BarsInserted? || p.StoredRead? || p.ConflictsRecorded? then p.mine else {}
  }

  ghost predicate RowReserved(db: Db, row: Row) {
    row.key in db.receipts && SameObservation(db.receipts, row)
  }

  ghost predicate RowInserted(db: Db, row: Row) {
    row.Identity().Some? ==> row.Identity().value in db.canonical
  }

  ghost predicate RowRead(db: Db, stored: map<Identity, Canonical>, row: Row) {
    row.Identity().Some? ==> row.Identity().value in stored && row.Identity().value in db.canonical
                             && stored[row.Identity().value] == db.canonical[row.Identity().value]
  }

  ghost predicate RowConflictRecorded(db: Db, row: Row) {
    (row.Identity().Some? && row.Identity().value in db.canonical
     && db.canonical[row.Identity().value].fingerprint != row.Fingerprint()) ==> row.key in db.conflicts
  }

  ghost predicate PhaseOk(db: Db, p: Phase) {
    && (!p.Idle? ==> DistinctRows(p.rows))
    && (p.Reserved? ==> forall row :: row in p.rows ==> row.key in db.receipts)
    && (!p.Idle? && !p.Reserved? ==> forall row :: row in p.rows ==> RowReserved(db, row))
    && (p.BarsInserted? ==> forall row :: row in p.rows ==> RowInserted(db, row))
    && (p.StoredRead? || p.ConflictsRecorded? ==> forall row :: row in p.rows ==> RowRead(db, p.stored, row))
    && (p.ConflictsRecorded? ==> forall row :: row in p.rows ==> RowConflictRecorded(db, row))
    && Holding(p) <= db.canonical.Keys
  }

  ghost predicate SaysInserted(db: Db, key: string, identity: Identity) {
    key in db.receipts && db.receipts[key].outcome == Some(Inserted) && db.receipts[key].identity == Some(identity)
  }

  ghost predicate Tokens(s: State) {
    && (forall v, w :: v != w ==> Holding(s.At(v)) !! Holding(s.At(w)))
    && (forall key, identity, w :: SaysInserted(s.db, key, identity) ==> identity !in Holding(s.At(w)))
    && (forall k, l, identity :: SaysInserted(s.db, k, identity) && SaysInserted(s.db, l, identity) ==> k == l)
  }

  ghost predicate Inv(s: State) {
    && Sound(s.db)
    && (forall w :: PhaseOk(s.db, s.At(w)))
    && Tokens(s)
  }

  lemma PhaseOkStable(a: Db, b: Db, p: Phase)
    requires Extends(a, b) && PhaseOk(a, p)
    ensures PhaseOk(b, p)
  {
  }

  lemma {:induction false} CanonicalAfterSpec(canonical: map<Identity, Canonical>, rows: seq<Row>)
    ensures forall identity :: identity in canonical ==>
              identity in CanonicalAfter(canonical, rows)
              && CanonicalAfter(canonical, rows)[identity] == canonical[identity]
    ensures forall row :: row in rows && row.Identity().Some?
              ==> row.Identity().value in CanonicalAfter(canonical, rows)
    decreases |rows|
  {
    if rows != [] {
      CanonicalAfterSpec(canonical, rows[..|rows| - 1]);
      assert rows == rows[..|rows| - 1] + [rows[|rows| - 1]];
    }
  }

  lemma {:induction false} ConflictAllSpec(canonical: map<Identity, Canonical>, conflicts: map<string, ConflictRow>,
                                           rows: seq<Row>)
    ensures forall key :: key in conflicts ==>
              key in ConflictAll(canonical, conflicts, rows)
              && ConflictAll(canonical, conflicts, rows)[key] == conflicts[key]
    ensures forall row :: row in rows && row.Identity().Some? && row.Identity().value in canonical
              && canonical[row.Identity().value].fingerprint != row.Fingerprint()
              ==> row.key in ConflictAll(canonical, conflicts, rows)
    decreases |rows|
  {
    if rows != [] {
      ConflictAllSpec(canonical, conflicts, rows[..|rows| - 1]);
      assert rows == rows[..|rows| - 1] + [rows[|rows| - 1]];
    }
  }

  /** What the completion statement does to one receipt. */
  lemma {:induction false} FinishAllAt(db: Db, rows: seq<Row>, mine: set<Identity>, stored: map<Identity, Canonical>,
                                       n: nat, i: nat)
    requires DistinctRows(rows) && i < n <= |rows| && rows[i].key in db.receipts
    ensures rows[i].key in FinishAll(db, rows, mine, stored, n)
    ensures FinishAll(db, rows, mine, stored, n)[rows[i].key]
         == Complete(db.receipts, rows[i].key, OutcomeOf(rows, mine, stored, i), VersionOf(db.canonical, rows[i]),
                     ReasonFor(db.canonical, rows[i]))[rows[i].key]
    decreases n
  {
    if i == n - 1 {
      FinishAllFrame(db, rows, mine, stored, n - 1, rows[i].key);
    } else {
      FinishAllAt(db, rows, mine, stored, n - 1, i);
    }
  }

  lemma {:induction false} FinishAllFrame(db: Db, rows: seq<Row>, mine: set<Identity>, stored: map<Identity, Canonical>,
                                          n: nat, key: string)
    requires n <= |rows| && forall i :: 0 <= i < n ==> rows[i].key != key
    ensures key in FinishAll(db, rows, mine, stored, n) <==> key in db.receipts
    ensures key in db.receipts ==> FinishAll(db, rows, mine, stored, n)[key] == db.receipts[key]
    decreases n
  {
    if n > 0 { FinishAllFrame(db, rows, mine, stored, n - 1, key); }
  }

  /** A step of worker `w` leaves the other workers' knowledge valid. */
  lemma OthersStable(s: State, t: State, w: nat)
    requires Inv(s) && Extends(s.db, t.db)
    requires forall v :: v != w ==> t.At(v) == s.At(v)
    requires PhaseOk(t.db, t.At(w))
    ensures forall v :: PhaseOk(t.db, t.At(v))
  {
    forall v ensures PhaseOk(t.db, t.At(v)) {
      if v != w { PhaseOkStable(s.db, t.db, s.At(v)); }
    }
  }

  /** While the receipts stay, soundness needs the tables to grow by sound rows. */
  lemma SoundWhenReceiptsKept(a: Db, b: Db)
    requires Sound(a) && Extends(a, b) && b.receipts == a.receipts
    requires FiledTruly(b.canonical)
    requires forall key :: key in b.conflicts && key !in a.conflicts ==> ConflictSound(b, key)
    ensures Sound(b)
  {
    forall key | key in b.receipts ensures ReceiptSound(b, key) { assert ReceiptSound(a, key); }
    forall key | key in b.conflicts ensures ConflictSound(b, key) {
      if key in a.conflicts { assert ConflictSound(a, key); }
    }
  }

  lemma {:induction false} CanonicalAfterSound(canonical: map<Identity, Canonical>, rows: seq<Row>)
    requires FiledTruly(canonical)
    ensures FiledTruly(CanonicalAfter(canonical, rows))
    decreases |rows|
  {
    if rows != [] {
      CanonicalAfterSound(canonical, rows[..|rows| - 1]);
      InsertSound(CanonicalAfter(canonical, rows[..|rows| - 1]), rows[|rows| - 1]);
    }
  }

  /** `c` is what recording a conflict of `row` writes. */
  ghost predicate ConflictOfRow(canonical: map<Identity, Canonical>, row: Row, c: ConflictRow) {
    && row.Identity().Some? && row.Identity().value in canonical
    && canonical[row.Identity().value].fingerprint != row.Fingerprint()
    && c == ConflictRow(row.Identity().value, canonical[row.Identity().value].fingerprint, row.Fingerprint(),
                        row.retrievedAt)
  }

  /** A conflict row that is new is that of a row of the batch whose canonical bar differs. */
  lemma {:induction false} NewConflict(canonical: map<Identity, Canonical>, conflicts: map<string, ConflictRow>,
                                       rows: seq<Row>, key: string) returns (row: Row)
    requires key in ConflictAll(canonical, conflicts, rows) && key !in conflicts
    ensures row in rows && row.key == key && ConflictOfRow(canonical, row, ConflictAll(canonical, conflicts, rows)[key])
    decreases |rows|
  {
    var n := |rows| - 1;
    if key in ConflictAll(canonical, conflicts, rows[..n]) {
      row := NewConflict(canonical, conflicts, rows[..n], key);
      assert ConflictAll(canonical, conflicts, rows)[key] == ConflictAll(canonical, conflicts, rows[..n])[key];
      var i :| 0 <= i < n && rows[..n][i] == row;
      assert rows[i] == row;
    } else {
      row := rows[n];
    }
  }

  lemma TokensWhenReceiptsKept(s: State, t: State, w: nat)
    requires Inv(s) && t.db.receipts == s.db.receipts
    requires forall v :: v != w ==> t.At(v) == s.At(v)
    requires Holding(t.At(w)) <= Holding(s.At(w))
    ensures Tokens(t)
  {
    forall key, identity, v | SaysInserted(t.db, key, identity) ensures identity !in Holding(t.At(v)) {
      assert SaysInserted(s.db, key, identity);
      assert identity !in Holding(s.At(v));
    }
    forall k, l, identity | SaysInserted(t.db, k, identity) && SaysInserted(t.db, l, identity) ensures k == l {
      assert SaysInserted(s.db, k, identity) && SaysInserted(s.db, l, identity);
    }
    forall u, v | u != v ensures Holding(t.At(u)) !! Holding(t.At(v)) {
      assert Holding(s.At(u)) !! Holding(s.At(v));
    }
  }

  lemma BeginStep(s: State, w: nat, rows: seq<Row>)
    requires Inv(s) && s.At(w).Idle? && DistinctRows(rows)
    ensures Inv(Next(s, Begin(w, rows))) && Extends(s.db, Next(s, Begin(w, rows)).db)
  {
    var t := Next(s, Begin(w, rows));
    ReserveAllSound(s.db, rows);
    forall key ensures key in s.db.receipts ==> key in t.db.receipts && t.db.receipts[key] == s.db.receipts[key]
               ensures key in t.db.receipts && key !in s.db.receipts ==> t.db.receipts[key].outcome == None
    {
      if i :| 0 <= i < |rows| && rows[i].key == key {
        ReserveAllAt(s.db.receipts, rows, i);
      } else {
        ReserveAllFrame(s.db.receipts, rows, key);
      }
    }
    forall row | row in rows ensures row.key in t.db.receipts {
      var i :| 0 <= i < |rows| && rows[i] == row;
      ReserveAllAt(s.db.receipts, rows, i);
    }
    OthersStable(s, t, w);
    forall key, identity, v | SaysInserted(t.db, key, identity) ensures identity !in Holding(t.At(v)) {
      assert SaysInserted(s.db, key, identity);
      assert identity !in Holding(s.At(v));
    }
    forall k, l, identity | SaysInserted(t.db, k, identity) && SaysInserted(t.db, l, identity) ensures k == l {
      assert SaysInserted(s.db, k, identity) && SaysInserted(s.db, l, identity);
    }
    forall u, v | u != v ensures Holding(t.At(u)) !! Holding(t.At(v)) {
      assert Holding(s.At(u)) !! Holding(s.At(v));
    }
  }

  lemma CheckStep(s: State, w: nat)
    requires Inv(s) && s.At(w).Reserved?
    ensures Inv(Next(s, Check(w)))
  {
    var t := Next(s, Check(w));
    var rows := s.At(w).rows;
    assert PhaseOk(s.db, s.At(w));
    if NoMismatch(s.db, rows) {
      forall row | row in rows ensures RowReserved(t.db, row) {
        var i :| 0 <= i < |rows| && rows[i] == row;
      }
    }
    OthersStable(s, t, w);
    TokensWhenReceiptsKept(s, t, w);
  }

  lemma InsertStep(s: State, w: nat)
    requires Inv(s) && s.At(w).Checked?
    ensures Inv(Next(s, InsertBars(w))) && Extends(s.db, Next(s, InsertBars(w)).db)
  {
    var t := Next(s, InsertBars(w));
    var rows := s.At(w).rows;
    assert PhaseOk(s.db, s.At(w));
    CanonicalAfterSpec(s.db.canonical, rows);
    CanonicalAfterSound(s.db.canonical, rows);
    SoundWhenReceiptsKept(s.db, t.db);
    OthersStable(s, t, w);
    forall key, identity, v | SaysInserted(t.db, key, identity) ensures identity !in Holding(t.At(v)) {
      assert SaysInserted(s.db, key, identity) && ReceiptSound(s.db, key);
      assert identity !in Holding(s.At(v));
    }
    forall u, v | u != v ensures Holding(t.At(u)) !! Holding(t.At(v)) {
      assert Holding(s.At(u)) !! Holding(s.At(v));
      assert PhaseOk(s.db, s.At(u)) && PhaseOk(s.db, s.At(v));
    }
    forall k, l, identity | SaysInserted(t.db, k, identity) && SaysInserted(t.db, l, identity) ensures k == l {
      assert SaysInserted(s.db, k, identity) && SaysInserted(s.db, l, identity);
    }
  }

  lemma ReadStep(s: State, w: nat)
    requires Inv(s) && s.At(w).BarsInserted?
    ensures Inv(Next(s, ReadStored(w)))
  {
    var t := Next(s, ReadStored(w));
    var rows := s.At(w).rows;
    assert PhaseOk(s.db, s.At(w));
    forall row | row in rows ensures RowRead(t.db, t.At(w).stored, row) {
      assert RowInserted(s.db, row);
    }
    OthersStable(s, t, w);
    TokensWhenReceiptsKept(s, t, w);
  }

  lemma ConflictStep(s: State, w: nat)
    requires Inv(s) && s.At(w).StoredRead?
    ensures Inv(Next(s, RecordConflicts(w))) && Extends(s.db, Next(s, RecordConflicts(w)).db)
  {
    var t := Next(s, RecordConflicts(w));
    assert PhaseOk(s.db, s.At(w));
    ConflictAllSpec(s.db.canonical, s.db.conflicts, s.At(w).rows);
    forall key | key in t.db.conflicts && key !in s.db.conflicts ensures ConflictSound(t.db, key) {
      var row := NewConflict(s.db.canonical, s.db.conflicts, s.At(w).rows, key);
    }
    SoundWhenReceiptsKept(s.db, t.db);
    OthersStable(s, t, w);
    TokensWhenReceiptsKept(s, t, w);
  }

  /** Completing a batch extends the tables; a receipt it completes is one of its rows, completed truly. */
  lemma FinishReceipt(s: State, w: nat, key: string)
    requires Inv(s) && s.At(w).ConflictsRecorded?
    ensures var t := Next(s, Finish(w)).db;
            && (key in t.receipts <==> key in s.db.receipts)
            && (key in t.receipts ==>
                  && ReceiptSound(t, key)
                  && t.receipts[key].jobId == s.db.receipts[key].jobId
                  && t.receipts[key].retrievedAt == s.db.receipts[key].retrievedAt
                  && (t.receipts[key] == s.db.receipts[key]
                      || exists i :: 0 <= i < |s.At(w).rows| && s.At(w).rows[i].key == key
                           && s.db.receipts[key].outcome == None
                           && t.receipts[key].requestFingerprint == s.db.receipts[key].requestFingerprint
                           && t.receipts[key].identity == s.db.receipts[key].identity == s.At(w).rows[i].Identity()
                           && t.receipts[key].outcome == Some(OutcomeOf(s.At(w).rows, s.At(w).mine, s.At(w).stored,
                                                                        i))))
  {
    var phase := s.At(w);
    assert PhaseOk(s.db, phase);
    if i :| 0 <= i < |phase.rows| && phase.rows[i].key == key {
      assert phase.rows[i] in phase.rows;
      assert RowReserved(s.db, phase.rows[i]) && RowRead(s.db, phase.stored, phase.rows[i])
             && RowConflictRecorded(s.db, phase.rows[i]);
      FinishAllAt(s.db, phase.rows, phase.mine, phase.stored, |phase.rows|, i);
    } else {
      FinishAllFrame(s.db, phase.rows, phase.mine, phase.stored, |phase.rows|, key);
    }
    if key in s.db.receipts { assert ReceiptSound(s.db, key); }
  }

  /** A receipt that newly says INSERTED was completed by the holder of its identity, at its first row. */
  lemma NewlyInserted(s: State, w: nat, key: string, identity: Identity) returns (i: nat)
    requires Inv(s) && s.At(w).ConflictsRecorded?
    requires SaysInserted(Next(s, Finish(w)).db, key, identity) && !SaysInserted(s.db, key, identity)
    ensures i < |s.At(w).rows| && s.At(w).rows[i].key == key && s.At(w).rows[i].Identity() == Some(identity)
    ensures OutcomeOf(s.At(w).rows, s.At(w).mine, s.At(w).stored, i) == Inserted
    ensures identity in Holding(s.At(w))
  {
    FinishReceipt(s, w, key);
    var t := Next(s, Finish(w)).db;
    i :| 0 <= i < |s.At(w).rows| && s.At(w).rows[i].key == key
         && t.receipts[key].identity == s.At(w).rows[i].Identity()
         && t.receipts[key].outcome == Some(OutcomeOf(s.At(w).rows, s.At(w).mine, s.At(w).stored, i));
  }

  lemma FinishStep(s: State, w: nat)
    requires Inv(s) && s.At(w).ConflictsRecorded?
    ensures Inv(Next(s, Finish(w))) && Extends(s.db, Next(s, Finish(w)).db)
  {
    var t := Next(s, Finish(w));
    forall key ensures key in t.db.receipts <==> key in s.db.receipts
               ensures key in t.db.receipts ==>
                         && ReceiptSound(t.db, key)
                         && t.db.receipts[key].requestFingerprint == s.db.receipts[key].requestFingerprint
                         && t.db.receipts[key].identity == s.db.receipts[key].identity
                         && t.db.receipts[key].jobId == s.db.receipts[key].jobId
                         && t.db.receipts[key].retrievedAt == s.db.receipts[key].retrievedAt
                         && (s.db.receipts[key].outcome.Some? ==> t.db.receipts[key] == s.db.receipts[key])
    {
      FinishReceipt(s, w, key);
    }
    OthersStable(s, t, w);
    forall u, v | u != v ensures Holding(t.At(u)) !! Holding(t.At(v)) {
      assert Holding(s.At(u)) !! Holding(s.At(v));
    }
    forall key, identity, v | SaysInserted(t.db, key, identity) ensures identity !in Holding(t.At(v)) {
      if SaysInserted(s.db, key, identity) {
        assert identity !in Holding(s.At(v));
      } else {
        var i := NewlyInserted(s, w, key, identity);
        assert v != w ==> Holding(s.At(v)) !! Holding(s.At(w));
      }
    }
    forall k, l, identity | SaysInserted(t.db, k, identity) && SaysInserted(t.db, l, identity) ensures k == l {
      FinishUnique(s, w, k, l, identity);
    }
  }

  lemma FinishUnique(s: State, w: nat, k: string, l: string, identity: Identity)
    requires Inv(s) && s.At(w).ConflictsRecorded?
    requires SaysInserted(Next(s, Finish(w)).db, k, identity) && SaysInserted(Next(s, Finish(w)).db, l, identity)
    ensures k == l
  {
    var oldK, oldL := SaysInserted(s.db, k, identity), SaysInserted(s.db, l, identity);
    if !oldK && !oldL {
      var i := NewlyInserted(s, w, k, identity);
      var j := NewlyInserted(s, w, l, identity);
    } else if !oldK {
      var i := NewlyInserted(s, w, k, identity);
      assert false;
    } else if !oldL {
      var j := NewlyInserted(s, w, l, identity);
      assert false;
    }
  }

  lemma StepSafe(s: State, a: Action)
    requires Inv(s)
    ensures Inv(Next(s, a)) && Extends(s.db, Next(s, a).db)
  {
    var w := a.w;
    if Next(s, a) != s {
      match a
      case Begin(_, rows) => BeginStep(s, w, rows);
      case Check(_) => CheckStep(s, w);
      case InsertBars(_) => InsertStep(s, w);
      case ReadStored(_) => ReadStep(s, w);
      case RecordConflicts(_) => ConflictStep(s, w);
      case Finish(_) => FinishStep(s, w);
      case Crash(_) =>
        OthersStable(s, Next(s, a), w);
        TokensWhenReceiptsKept(s, Next(s, a), w);
    }
  }

  lemma {:induction false} RunInvariant(actions: seq<Action>)
    ensures Inv(Run(INITIAL, actions))
    decreases |actions|
  {
    if actions != [] {
      RunInvariant(actions[..|actions| - 1]);
      StepSafe(Run(INITIAL, actions[..|actions| - 1]), actions[|actions| - 1]);
    }
  }

  // Where everything in the tables comes from.

  /** The rows of all batches that were begun. */
  function BegunRows(actions: seq<Action>): seq<Row> {
    if actions == [] then []
    else BegunRows(actions[..|actions| - 1]) + RowsBegun(actions[|actions| - 1])
  }

  function RowsBegun(a: Action): seq<Row> { if a.Begin? then a.rows else [] }

  ghost predicate ReservedBy(rows: seq<Row>, key: string, r: Receipt) {
    exists row :: row in rows && row.key == key && Reserves(row, r)
  }

  ghost predicate Reserves(row: Row, r: Receipt) {
    r.requestFingerprint == row.Fingerprint() && r.identity == row.Identity() && r.jobId == row.jobId
    && r.retrievedAt == row.retrievedAt
  }

  ghost predicate ObservedBy(rows: seq<Row>, c: Canonical) {
    exists row :: row in rows && row.candidate == Normalized(c.bar) && c.acceptedAt == row.retrievedAt
  }

  ghost predicate DetectedBy(rows: seq<Row>, key: string, c: ConflictRow) {
    exists row :: row in rows && row.key == key && c.detectedAt == row.retrievedAt
  }

  /** Receipts, canonical bars and conflicts all come from these rows. */
  ghost predicate TablesExplained(db: Db, rows: seq<Row>) {
    && (forall key :: key in db.receipts ==> ReservedBy(rows, key, db.receipts[key]))
    && (forall identity :: identity in db.canonical ==> ObservedBy(rows, db.canonical[identity]))
    && (forall key :: key in db.conflicts ==> DetectedBy(rows, key, db.conflicts[key]))
  }

  /** So does the work in progress. */
  ghost predicate PhaseExplained(p: Phase, rows: seq<Row>) {
    !p.Idle? ==> forall row :: row in p.rows ==> row in rows
  }

  ghost predicate Explained(s: State, rows: seq<Row>) {
    TablesExplained(s.db, rows) && forall w :: PhaseExplained(s.At(w), rows)
  }

  lemma MoreRowsExplain(db: Db, rows: seq<Row>, more: seq<Row>)
    requires TablesExplained(db, rows)
    ensures TablesExplained(db, rows + more)
  {
    forall key | key in db.receipts ensures ReservedBy(rows + more, key, db.receipts[key]) {
      assert ReservedBy(rows, key, db.receipts[key]);
    }
    forall identity | identity in db.canonical ensures ObservedBy(rows + more, db.canonical[identity]) {
      assert ObservedBy(rows, db.canonical[identity]);
    }
    forall key | key in db.conflicts ensures DetectedBy(rows + more, key, db.conflicts[key]) {
      assert DetectedBy(rows, key, db.conflicts[key]);
    }
  }

  lemma PhasesExplained(s: State, rows: seq<Row>, a: Action, w: nat)
    requires Explained(s, rows)
    ensures PhaseExplained(Next(s, a).At(w), rows + RowsBegun(a))
  {
    assert PhaseExplained(s.At(w), rows) && PhaseExplained(s.At(a.w), rows);
  }

  lemma {:induction false} NewReceipt(receipts: map<string, Receipt>, rows: seq<Row>, key: string)
    requires key in ReserveAll(receipts, rows) && key !in receipts
    ensures ReservedBy(rows, key, ReserveAll(receipts, rows)[key])
    decreases |rows|
  {
    var n := |rows| - 1;
    assert rows == rows[..n] + [rows[n]];
    if key in ReserveAll(receipts, rows[..n]) {
      NewReceipt(receipts, rows[..n], key);
    } else {
      assert rows[n] in rows && Reserves(rows[n], FreshReceipt(rows[n]));
    }
  }

  lemma BeginExplained(s: State, rows: seq<Row>, a: Action)
    requires TablesExplained(s.db, rows) && a.Begin?
    ensures TablesExplained(Next(s, a).db, rows + a.rows)
  {
    var t, all := Next(s, a), rows + a.rows;
    MoreRowsExplain(s.db, rows, a.rows);
    if t != s {
      forall key | key in t.db.receipts ensures ReservedBy(all, key, t.db.receipts[key]) {
        if key in s.db.receipts {
          ReserveAllKeeps(s.db.receipts, a.rows, key);
          assert ReservedBy(all, key, s.db.receipts[key]);
        } else {
          NewReceipt(s.db.receipts, a.rows, key);
          var row :| row in a.rows && row.key == key && Reserves(row, t.db.receipts[key]);
          assert row in all;
        }
      }
    }
  }

  lemma {:induction false} NewCanonical(canonical: map<Identity, Canonical>, rows: seq<Row>, identity: Identity)
    requires identity in CanonicalAfter(canonical, rows) && identity !in canonical
    ensures ObservedBy(rows, CanonicalAfter(canonical, rows)[identity])
    decreases |rows|
  {
    var n := |rows| - 1;
    assert rows == rows[..n] + [rows[n]];
    if identity in CanonicalAfter(canonical, rows[..n]) {
      NewCanonical(canonical, rows[..n], identity);
    } else {
      assert rows[n] in rows;
    }
  }

  lemma InsertExplained(s: State, rows: seq<Row>, a: Action)
    requires Explained(s, rows) && a.InsertBars? && s.At(a.w).Checked?
    ensures TablesExplained(Next(s, a).db, rows)
  {
    var t, own := Next(s, a), s.At(a.w).rows;
    assert PhaseExplained(s.At(a.w), rows);
    CanonicalAfterSpec(s.db.canonical, own);
    forall identity | identity in t.db.canonical ensures ObservedBy(rows, t.db.canonical[identity]) {
      if identity !in s.db.canonical {
        NewCanonical(s.db.canonical, own, identity);
      } else {
        assert ObservedBy(rows, s.db.canonical[identity]);
      }
    }
  }

  lemma ConflictExplained(s: State, rows: seq<Row>, a: Action)
    requires Explained(s, rows) && a.RecordConflicts? && s.At(a.w).StoredRead?
    ensures TablesExplained(Next(s, a).db, rows)
  {
    var t, own := Next(s, a), s.At(a.w).rows;
    assert PhaseExplained(s.At(a.w), rows);
    ConflictAllSpec(s.db.canonical, s.db.conflicts, own);
    forall key | key in t.db.conflicts ensures DetectedBy(rows, key, t.db.conflicts[key]) {
      if key !in s.db.conflicts {
        var row := NewConflict(s.db.canonical, s.db.conflicts, own, key);
      } else {
        assert DetectedBy(rows, key, s.db.conflicts[key]);
      }
    }
  }

  lemma FinishExplained(s: State, rows: seq<Row>, a: Action, key: string)
    requires Inv(s) && TablesExplained(s.db, rows) && a.Finish? && s.At(a.w).ConflictsRecorded?
    requires key in Next(s, a).db.receipts
    ensures ReservedBy(rows, key, Next(s, a).db.receipts[key])
  {
    FinishReceipt(s, a.w, key);
    assert ReservedBy(rows, key, s.db.receipts[key]);
    var row :| row in rows && row.key == key && Reserves(row, s.db.receipts[key]);
    assert Reserves(row, Next(s, a).db.receipts[key]);
  }

  lemma StepExplained(s: State, rows: seq<Row>, a: Action)
    requires Inv(s) && Explained(s, rows)
    ensures Explained(Next(s, a), rows + RowsBegun(a))
  {
    forall w ensures PhaseExplained(Next(s, a).At(w), rows + RowsBegun(a)) { PhasesExplained(s, rows, a, w); }
    assert rows + [] == rows;
    if Next(s, a) != s {
      match a
      case Begin(_, _) => BeginExplained(s, rows, a);
      case InsertBars(_) => InsertExplained(s, rows, a);
      case RecordConflicts(_) => ConflictExplained(s, rows, a);
      case Finish(_) =>
        forall key | key in Next(s, a).db.receipts ensures ReservedBy(rows, key, Next(s, a).db.receipts[key]) {
          FinishExplained(s, rows, a, key);
        }
      case _ =>
    } else {
      MoreRowsExplain(s.db, rows, RowsBegun(a));
    }
  }

  lemma {:induction false} RunExplained(actions: seq<Action>)
    ensures Explained(Run(INITIAL, actions), BegunRows(actions))
    decreases |actions|
  {
    if actions != [] {
      var before, a := actions[..|actions| - 1], actions[|actions| - 1];
      RunInvariant(before);
      RunExplained(before);
      StepExplained(Run(INITIAL, before), BegunRows(before), a);
    }
  }

  /** A completed receipt answers a row that was begun under its key, and answers it truly. */
  ghost predicate TrueReceipt(db: Db, rows: seq<Row>, key: string)
    requires key in db.receipts && db.receipts[key].outcome.Some?
  {
    var r := db.receipts[key];
    exists row :: row in rows && row.key == key && Reserves(row, r)
      && Truthful(db, row, r.outcome.value, r.storedVersion, r.reason)
  }

  /** In every interleaving with crashes: a completed receipt tells the truth about an observation that was made under
      its key: INSERTED and MATCHED mean that the canonical bar has the observed content, CONFLICT that it differs in
      some semantic field and that the conflict row names the stored and the observed content, REJECTED that the bar
      does not normalise.  No bar is reported INSERTED by two receipts, and every canonical bar was observed. */
  lemma ReceiptsTellTheTruth(actions: seq<Action>)
    ensures var db, rows := Run(INITIAL, actions).db, BegunRows(actions);
            && Sound(db)
            && (forall key :: key in db.receipts && db.receipts[key].outcome.Some? ==> TrueReceipt(db, rows, key))
            && (forall k, l, identity :: SaysInserted(db, k, identity) && SaysInserted(db, l, identity) ==> k == l)
            && (forall identity :: identity in db.canonical ==> ObservedBy(rows, db.canonical[identity]))
  {
    RunInvariant(actions);
    RunExplained(actions);
    var db, rows := Run(INITIAL, actions).db, BegunRows(actions);
    forall key | key in db.receipts && db.receipts[key].outcome.Some? ensures TrueReceipt(db, rows, key) {
      var row :| row in rows && row.key == key && Reserves(row, db.receipts[key]);
      ReceiptIsTruthful(db, row);
    }
  }

  /** From any point of any run on, canonical bars, conflict rows and completed receipts never change. */
  lemma {:induction false} HistoryIsImmutable(actions: seq<Action>, i: nat)
    requires i <= |actions|
    ensures Extends(Run(INITIAL, actions[..i]).db, Run(INITIAL, actions).db)
    decreases |actions|
  {
    if i == |actions| {
      assert actions[..i] == actions;
    } else {
      var n := |actions| - 1;
      assert actions[..n][..i] == actions[..i];
      HistoryIsImmutable(actions[..n], i);
      RunInvariant(actions[..n]);
      StepSafe(Run(INITIAL, actions[..n]), actions[n]);
    }
  }
}
