/** Idempotent first-writer-wins storage of normalised bars: receipts, canonical bars and conflicts. */
module BarStore {
  import opened Market
  import opened Schedule
  import opened BarNormalization

  datatype AcceptanceOutcome = Inserted | Matched | Conflict | RejectedBar

  datatype Identity = Identity(instrumentId: string, interval: Cadence, barStart: Instant, sessionKind: SessionScope,
                               logicalDataVariant: string)

  /** SHA-256 of the semantic content, taken to be injective. */
  datatype Fingerprint =
    | BarContent(values: string, barEnd: Instant, marketDate: string, sessionKind: SessionScope,
                 logicalDataVariant: string)
    | RejectionContent(code: RejectionCode, why: Rejection)

  function IdentityFor(bar: NormalizedBar): Identity {
    Identity(bar.instrumentId, bar.interval, bar.barStart, bar.sessionKind, bar.logicalDataVariant)
  }

  function ContentFingerprint(bar: NormalizedBar): Fingerprint {
    BarContent(bar.values, bar.barEnd, bar.marketDate, bar.sessionKind, bar.logicalDataVariant)
  }

  /** Two observations of one bar. */
  predicate SameBar(a: NormalizedBar, b: NormalizedBar) {
    a.instrumentId == b.instrumentId && a.interval == b.interval && a.barStart == b.barStart
    && a.sessionKind == b.sessionKind && a.logicalDataVariant == b.logicalDataVariant
  }

  /** The fields in which a second observation of a bar may not differ from the first. */
  predicate SameContent(a: NormalizedBar, b: NormalizedBar) {
    a.values == b.values && a.barEnd == b.barEnd && a.marketDate == b.marketDate && a.sessionKind == b.sessionKind
    && a.logicalDataVariant == b.logicalDataVariant
  }

  /** `f` is the digest of exactly the bars with this bar's content. */
  ghost predicate Digests(f: Fingerprint, bar: NormalizedBar) {
    forall other: NormalizedBar :: ContentFingerprint(other) == f <==> SameContent(other, bar)
  }

  /** Equal fingerprints mean equal content, and nothing else. */
  lemma FingerprintsTell(bar: NormalizedBar)
    ensures Digests(ContentFingerprint(bar), bar)
    ensures forall f :: Digests(f, bar) ==> f == ContentFingerprint(bar)
  {
    assert forall f :: Digests(f, bar) ==> (ContentFingerprint(bar) == f <==> SameContent(bar, bar));
  }

  /** `None` stands for an empty job id. */
  datatype Provenance = Provenance(idempotencyKey: string, jobId: Option<JobId>, retrievedAt: Option<Instant>)

  predicate ValidProvenance(p: Provenance) {
    p.idempotencyKey != "" && p.jobId.Some? && p.retrievedAt.Some?
  }

  datatype Input = Input(candidate: Candidate, provenance: Provenance)

  /** A validated input, as the statements see it. */
  datatype Row = Row(key: string, jobId: JobId, retrievedAt: Instant, candidate: Candidate) {
    function Identity(): Option<Identity> {
      if candidate.Normalized? then Some(IdentityFor(candidate.bar)) else None
    }

    function Fingerprint(): Fingerprint {
      if candidate.Normalized? then ContentFingerprint(candidate.bar)
      else RejectionContent(candidate.why.Code(), candidate.why)
    }
  }

  function RowOf(input: Input): Row
    requires ValidProvenance(input.provenance)
  {
    Row(input.provenance.idempotencyKey, input.provenance.jobId.value, input.provenance.retrievedAt.value,
        input.candidate)
  }

  /** The reason text: code and message of a rejection, or the one message for different semantic content. */
  datatype Reason = ForRejection(code: RejectionCode, why: Rejection) | DifferentContent

  datatype Receipt = Receipt(requestFingerprint: Fingerprint, identity: Option<Identity>, jobId: JobId,
                             retrievedAt: Instant, outcome: Option<AcceptanceOutcome>, reason: Option<Reason>,
                             storedVersion: Option<int>, completedAt: Option<Instant>)

  datatype Canonical = Canonical(bar: NormalizedBar, fingerprint: Fingerprint, version: int, acceptedAt: Instant)

  datatype ConflictRow = ConflictRow(identity: Identity, storedFingerprint: Fingerprint,
                                     observedFingerprint: Fingerprint, detectedAt: Instant)

  datatype Db = Db(receipts: map<string, Receipt>, canonical: map<Identity, Canonical>,
                   conflicts: map<string, ConflictRow>)

  datatype AcceptanceResult = AcceptanceResult(identity: Option<Identity>, outcome: AcceptanceOutcome,
                                               storedVersion: Option<int>, acceptanceReceipt: string,
                                               reason: Option<Reason>, provenanceAppended: bool)

  // One SQL statement, restricted to one row.

  function FreshReceipt(row: Row): Receipt {
    Receipt(row.Fingerprint(), row.Identity(), row.jobId, row.retrievedAt, None, None, None, None)
  }

  /** INSERT receipt .. ON CONFLICT DO NOTHING. */
  function Reserve(receipts: map<string, Receipt>, row: Row): map<string, Receipt> {
    if row.key in receipts then receipts else receipts[row.key := FreshReceipt(row)]
  }

  /** INSERT canonical bar .. ON CONFLICT DO NOTHING; rejected rows take no part. */
  function InsertCanonical(canonical: map<Identity, Canonical>, row: Row): map<Identity, Canonical> {
    if row.Identity().None? || row.Identity().value in canonical then canonical
    else canonical[row.Identity().value := Canonical(row.candidate.bar, row.Fingerprint(), 1, row.retrievedAt)]
  }

  /** INSERT conflict .. WHERE the fingerprints differ ON CONFLICT DO NOTHING. */
  function RecordConflict(canonical: map<Identity, Canonical>, conflicts: map<string, ConflictRow>,
                          row: Row): map<string, ConflictRow> {
    if row.Identity().None? || row.Identity().value !in canonical || row.key in conflicts
       || canonical[row.Identity().value].fingerprint == row.Fingerprint() then conflicts
    else conflicts[row.key := ConflictRow(row.Identity().value, canonical[row.Identity().value].fingerprint,
                                          row.Fingerprint(), row.retrievedAt)]
  }

  /** UPDATE receipt .. WHERE outcome IS NULL. */
  function Complete(receipts: map<string, Receipt>, key: string, outcome: AcceptanceOutcome,
                    version: Option<int>, reason: Option<Reason>): map<string, Receipt> {
    if key !in receipts || receipts[key].outcome.Some? then receipts
    else receipts[key := receipts[key].(outcome := Some(outcome), storedVersion := version, reason := reason,
                                        completedAt := Some(receipts[key].retrievedAt))]
  }

  /** A stored receipt belongs to the same observation as `row`. */
  predicate SameObservation(receipts: map<string, Receipt>, row: Row) {
    row.key in receipts ==> receipts[row.key].requestFingerprint == row.Fingerprint()
                            && receipts[row.key].identity == row.Identity()
  }

  // The meaning of accepting one row.

  /** The verdict on a row, given the canonical bars before it. */
  function Verdict(canonical: map<Identity, Canonical>, row: Row): AcceptanceOutcome {
    if row.Identity().None? then RejectedBar
    else if row.Identity().value !in canonical then Inserted
    else if canonical[row.Identity().value].fingerprint == row.Fingerprint() then Matched
    else Conflict
  }

  function VerdictVersion(canonical: map<Identity, Canonical>, row: Row): Option<int> {
    if row.Identity().None? then None
    else Some(InsertCanonical(canonical, row)[row.Identity().value].version)
  }

  function VerdictReason(canonical: map<Identity, Canonical>, row: Row): Option<Reason> {
    match Verdict(canonical, row)
    case RejectedBar => Some(ForRejection(row.candidate.why.Code(), row.candidate.why))
    case Conflict => Some(DifferentContent)
    case _ => None
  }

  /** The state after one row has been accepted, whatever was half done before. */
  function Settle(db: Db, row: Row): Db {
    var receipts := Reserve(db.receipts, row);
    var canonical := InsertCanonical(db.canonical, row);
    Db(Complete(receipts, row.key, Verdict(db.canonical, row), VerdictVersion(db.canonical, row),
                VerdictReason(db.canonical, row)),
       canonical, RecordConflict(canonical, db.conflicts, row))
  }

  function Settled(db: Db, rows: seq<Row>): Db {
    if rows == [] then db else Settle(Settled(db, rows[..|rows| - 1]), rows[|rows| - 1])
  }

  /** The result read back from the completed receipt of `row`. */
  function ResultFor(before: Db, after: Db, row: Row): Option<AcceptanceResult> {
    if row.key !in after.receipts || after.receipts[row.key].outcome.None? then None
    else
      var r := after.receipts[row.key];
      Some(AcceptanceResult(r.identity, r.outcome.value, r.storedVersion, row.key, r.reason,
                            row.key !in before.receipts))
  }

  /** A receipt says which observation it is for, and once completed what became of it. */
  ghost predicate ReceiptSound(db: Db, key: string)
    requires key in db.receipts
  {
    var r := db.receipts[key];
    && (r.identity.None? <==> r.requestFingerprint.RejectionContent?)
    && (r.outcome.Some? ==>
          && r.completedAt == Some(r.retrievedAt)
          && (r.outcome.value == RejectedBar <==> r.identity.None?)
          && (r.identity.None? ==>
                r.reason == Some(ForRejection(r.requestFingerprint.code, r.requestFingerprint.why))
                && r.storedVersion == None)
          && (r.identity.Some? ==>
                && r.identity.value in db.canonical
                && r.storedVersion == Some(db.canonical[r.identity.value].version)
                && (r.outcome.value == Conflict <==> db.canonical[r.identity.value].fingerprint != r.requestFingerprint)
                && (r.outcome.value == Conflict ==> key in db.conflicts)
                && r.reason == if r.outcome.value == Conflict then Some(DifferentContent) else None))
  }

  /** A canonical bar is filed under its own identity, with the digest of its own content. */
  ghost predicate CanonicalSound(canonical: map<Identity, Canonical>, identity: Identity)
    requires identity in canonical
  {
    var c := canonical[identity];
    identity == IdentityFor(c.bar) && c.fingerprint == ContentFingerprint(c.bar) && c.version == 1
  }

  ghost predicate FiledTruly(canonical: map<Identity, Canonical>) {
    forall identity :: identity in canonical ==> CanonicalSound(canonical, identity)
  }

  /** A conflict row names the stored and the observed content of its receipt, which differ. */
  ghost predicate ConflictSound(db: Db, key: string)
    requires key in db.conflicts
  {
    var c := db.conflicts[key];
    && key in db.receipts && db.receipts[key].identity == Some(c.identity) && c.identity in db.canonical
    && c.storedFingerprint == db.canonical[c.identity].fingerprint
    && c.observedFingerprint == db.receipts[key].requestFingerprint
    && c.storedFingerprint != c.observedFingerprint
  }

  ghost predicate Sound(db: Db) {
    && (forall key :: key in db.receipts ==> ReceiptSound(db, key))
    && FiledTruly(db.canonical)
    && (forall key :: key in db.conflicts ==> ConflictSound(db, key))
  }

  predicate DistinctRows(rows: seq<Row>) {
    forall i, j :: 0 <= i < j < |rows| ==> rows[i].key != rows[j].key
  }

  /** No row of the batch reuses a key for a different observation. */
  predicate NoMismatch(db: Db, rows: seq<Row>) {
    forall i :: 0 <= i < |rows| ==> SameObservation(db.receipts, rows[i])
  }

  lemma SettleOtherReceipt(db: Db, row: Row, key: string)
    requires Sound(db) && key != row.key && key in Settle(db, row).receipts
    ensures ReceiptSound(Settle(db, row), key)
  {
    assert ReceiptSound(db, key);
  }

  lemma SettleOwnReceipt(db: Db, row: Row)
    requires Sound(db) && SameObservation(db.receipts, row)
    ensures row.key in Settle(db, row).receipts && ReceiptSound(Settle(db, row), row.key)
  {
    if row.key in db.receipts { assert ReceiptSound(db, row.key); }
  }

  lemma SettleConflictSound(db: Db, row: Row, key: string)
    requires Sound(db) && SameObservation(db.receipts, row) && key in Settle(db, row).conflicts
    ensures ConflictSound(Settle(db, row), key)
  {
    if key in db.conflicts { assert ConflictSound(db, key); }
  }

  lemma InsertSound(canonical: map<Identity, Canonical>, row: Row)
    requires FiledTruly(canonical)
    ensures FiledTruly(InsertCanonical(canonical, row))
  {
    var after := InsertCanonical(canonical, row);
    forall identity | identity in after ensures CanonicalSound(after, identity) {
      if identity in canonical { assert CanonicalSound(canonical, identity); }
    }
  }

  /** Settling a row keeps the tables true and completes the row's own receipt. */
  lemma SettleSound(db: Db, row: Row)
    requires Sound(db) && SameObservation(db.receipts, row)
    ensures Sound(Settle(db, row))
    ensures ResultFor(db, Settle(db, row), row).Some?
  {
    var after := Settle(db, row);
    SettleOwnReceipt(db, row);
    forall key | key in after.receipts ensures ReceiptSound(after, key) {
      if key != row.key { SettleOtherReceipt(db, row, key); }
    }
    InsertSound(db.canonical, row);
    forall key | key in after.conflicts ensures ConflictSound(after, key) { SettleConflictSound(db, row, key); }
  }

  /** A row whose receipt is already complete changes nothing when settled again. */
  lemma SettleIdempotent(db: Db, row: Row)
    requires Sound(db) && SameObservation(db.receipts, row)
    requires row.key in db.receipts && db.receipts[row.key].outcome.Some?
    ensures Settle(db, row) == db
  {
    assert ReceiptSound(db, row.key);
  }

  /** The receipt of any other key is untouched. */
  lemma SettleFrame(db: Db, row: Row, key: string)
    requires key != row.key
    ensures key in Settle(db, row).receipts <==> key in db.receipts
    ensures key in db.receipts ==> Settle(db, row).receipts[key] == db.receipts[key]
  {
  }

  lemma {:induction false} SettledFrame(db: Db, rows: seq<Row>, key: string)
    requires forall i :: 0 <= i < |rows| ==> rows[i].key != key
    ensures key in Settled(db, rows).receipts <==> key in db.receipts
    ensures key in db.receipts ==> Settled(db, rows).receipts[key] == db.receipts[key]
    decreases |rows|
  {
    if rows != [] {
      var n := |rows| - 1;
      SettledFrame(db, rows[..n], key);
      SettleFrame(Settled(db, rows[..n]), rows[n], key);
    }
  }

  /** Settling any number of distinct rows keeps the tables sound and completes every one of them. */
  lemma {:induction false} SettledSound(db: Db, rows: seq<Row>)
    requires Sound(db) && DistinctRows(rows) && NoMismatch(db, rows)
    ensures Sound(Settled(db, rows))
    ensures forall i :: 0 <= i < |rows| ==> ResultFor(db, Settled(db, rows), rows[i]).Some?
    decreases |rows|
  {
    if rows != [] {
      var n := |rows| - 1;
      var before := Settled(db, rows[..n]);
      SettledSound(db, rows[..n]);
      SettledFrame(db, rows[..n], rows[n].key);
      SettleSound(before, rows[n]);
      forall i | 0 <= i < |rows| ensures ResultFor(db, Settled(db, rows), rows[i]).Some? {
        if i < n {
          assert rows[..n][i] == rows[i] && ResultFor(db, before, rows[..n][i]).Some?;
          SettleFrame(before, rows[n], rows[i].key);
        }
      }
    }
  }

  lemma PrefixStep(db: Db, rows: seq<Row>, i: nat)
    requires i < |rows|
    ensures Settled(db, rows[..i + 1]) == Settle(Settled(db, rows[..i]), rows[i])
  {
    assert rows[..i + 1][..i] == rows[..i];
  }

  /** The canonical table alone, as the rows are settled. */
  function CanonicalAfter(canonical: map<Identity, Canonical>, rows: seq<Row>): map<Identity, Canonical> {
    if rows == [] then canonical else InsertCanonical(CanonicalAfter(canonical, rows[..|rows| - 1]), rows[|rows| - 1])
  }

  lemma {:induction false} SettledCanonical(db: Db, rows: seq<Row>)
    ensures Settled(db, rows).canonical == CanonicalAfter(db.canonical, rows)
    decreases |rows|
  {
    if rows != [] { SettledCanonical(db, rows[..|rows| - 1]); }
  }

  lemma {:induction false} FirstWriterWins(canonical: map<Identity, Canonical>, rows: seq<Row>, i: nat,
                                           identity: Identity)
    requires i <= |rows| && identity in CanonicalAfter(canonical, rows[..i])
    ensures identity in CanonicalAfter(canonical, rows)
    ensures CanonicalAfter(canonical, rows)[identity] == CanonicalAfter(canonical, rows[..i])[identity]
    decreases |rows|
  {
    if i == |rows| {
      assert rows[..i] == rows;
    } else {
      var n := |rows| - 1;
      assert rows[..n][..i] == rows[..i];
      FirstWriterWins(canonical, rows[..n], i, identity);
    }
  }

  /** First writer wins: a canonical bar present after a prefix is never replaced. */
  lemma CanonicalStable(db: Db, rows: seq<Row>, i: nat, identity: Identity)
    requires i <= |rows| && identity in Settled(db, rows[..i]).canonical
    ensures identity in Settled(db, rows).canonical
    ensures Settled(db, rows).canonical[identity] == Settled(db, rows[..i]).canonical[identity]
  {
    SettledCanonical(db, rows);
    SettledCanonical(db, rows[..i]);
    FirstWriterWins(db.canonical, rows, i, identity);
  }

  lemma {:induction false} CanonicalKept(db: Db, rows: seq<Row>)
    ensures db.canonical.Keys <= Settled(db, rows).canonical.Keys
    decreases |rows|
  {
    if rows != [] { CanonicalKept(db, rows[..|rows| - 1]); }
  }

  /** The canonical bars a batch row is judged against. */
  function CanonicalBefore(db: Db, rows: seq<Row>, i: nat): map<Identity, Canonical>
    requires i <= |rows|
  {
    Settled(db, rows[..i]).canonical
  }

  function FinalReceipt(db: Db, rows: seq<Row>, i: nat): Receipt
    requires i < |rows|
  {
    var canonical := CanonicalBefore(db, rows, i);
    Complete(Reserve(db.receipts, rows[i]), rows[i].key, Verdict(canonical, rows[i]),
             VerdictVersion(canonical, rows[i]), VerdictReason(canonical, rows[i]))[rows[i].key]
  }

  /** The last row leaves the receipt of any other key as it was. */
  lemma LastKeepsReceipt(db: Db, rows: seq<Row>, key: string)
    requires rows != [] && rows[|rows| - 1].key != key
    ensures key in Settled(db, rows).receipts <==> key in Settled(db, rows[..|rows| - 1]).receipts
    ensures key in Settled(db, rows).receipts ==>
              Settled(db, rows).receipts[key] == Settled(db, rows[..|rows| - 1]).receipts[key]
  {
    SettleFrame(Settled(db, rows[..|rows| - 1]), rows[|rows| - 1], key);
  }

  lemma FinalReceiptPrefix(db: Db, rows: seq<Row>, i: nat)
    requires i + 1 < |rows|
    ensures FinalReceipt(db, rows[..|rows| - 1], i) == FinalReceipt(db, rows, i)
  {
    assert rows[..|rows| - 1][..i] == rows[..i];
  }

  lemma LastReceipt(db: Db, rows: seq<Row>)
    requires DistinctRows(rows) && rows != []
    ensures rows[|rows| - 1].key in Settled(db, rows).receipts
    ensures Settled(db, rows).receipts[rows[|rows| - 1].key] == FinalReceipt(db, rows, |rows| - 1)
  {
    SettledFrame(db, rows[..|rows| - 1], rows[|rows| - 1].key);
  }

  lemma {:induction false} SettledReceiptAt(db: Db, rows: seq<Row>, i: nat)
    requires DistinctRows(rows) && i < |rows|
    ensures rows[i].key in Settled(db, rows).receipts
    ensures Settled(db, rows).receipts[rows[i].key] == FinalReceipt(db, rows, i)
    decreases |rows|
  {
    var n := |rows| - 1;
    if i == n {
      LastReceipt(db, rows);
    } else {
      SettledReceiptAt(db, rows[..n], i);
      FinalReceiptPrefix(db, rows, i);
      LastKeepsReceipt(db, rows, rows[i].key);
    }
  }

  /** Reserved so far: exactly the keys of the first `i` rows were added. */
  function ReserveAll(receipts: map<string, Receipt>, rows: seq<Row>): map<string, Receipt> {
    if rows == [] then receipts else Reserve(ReserveAll(receipts, rows[..|rows| - 1]), rows[|rows| - 1])
  }

  lemma {:induction false} ReserveAllFrame(receipts: map<string, Receipt>, rows: seq<Row>, key: string)
    requires forall i :: 0 <= i < |rows| ==> rows[i].key != key
    ensures key in ReserveAll(receipts, rows) <==> key in receipts
    ensures key in receipts ==> ReserveAll(receipts, rows)[key] == receipts[key]
    decreases |rows|
  {
    if rows != [] { ReserveAllFrame(receipts, rows[..|rows| - 1], key); }
  }

  lemma {:induction false} ReserveAllAt(receipts: map<string, Receipt>, rows: seq<Row>, i: nat)
    requires DistinctRows(rows) && i < |rows|
    ensures rows[i].key in ReserveAll(receipts, rows)
    ensures ReserveAll(receipts, rows)[rows[i].key] == Reserve(receipts, rows[i])[rows[i].key]
    decreases |rows|
  {
    var n := |rows| - 1;
    if i == n {
      ReserveAllFrame(receipts, rows[..n], rows[n].key);
    } else {
      assert rows[..n][i] == rows[i];
      ReserveAllAt(receipts, rows[..n], i);
    }
  }

  ghost function FinalReceipts(db: Db, rows: seq<Row>): seq<Receipt> {
    seq(|rows|, i requires 0 <= i < |rows| => FinalReceipt(db, rows, i))
  }

  /** The completion statement has reached row `i`: earlier receipts are final, later ones only reserved. */
  ghost predicate CompletedTo(start: map<string, Receipt>, rows: seq<Row>, finals: seq<Receipt>, i: nat,
                              receipts: map<string, Receipt>)
    requires i <= |rows| == |finals|
  {
    && (forall j :: 0 <= j < i ==> rows[j].key in receipts && receipts[rows[j].key] == finals[j])
    && (forall j :: i <= j < |rows| ==>
          rows[j].key in receipts && receipts[rows[j].key] == Reserve(start, rows[j])[rows[j].key])
    && (forall key :: ForeignKey(rows, key)
          ==> (key in receipts <==> key in start) && (key in start ==> receipts[key] == start[key]))
  }

  /** No row of the batch has this key. */
  ghost predicate ForeignKey(rows: seq<Row>, key: string) {
    forall j :: 0 <= j < |rows| ==> rows[j].key != key
  }

  lemma ReservedIsCompletedToZero(start: map<string, Receipt>, rows: seq<Row>, finals: seq<Receipt>)
    requires DistinctRows(rows) && |rows| == |finals|
    ensures CompletedTo(start, rows, finals, 0, ReserveAll(start, rows))
  {
    var receipts := ReserveAll(start, rows);
    forall j | 0 <= j < |rows|
      ensures rows[j].key in receipts && receipts[rows[j].key] == Reserve(start, rows[j])[rows[j].key]
    {
      ReserveAllAt(start, rows, j);
    }
    forall key | ForeignKey(rows, key)
      ensures key in receipts <==> key in start
      ensures key in start ==> receipts[key] == start[key]
    {
      ReserveAllFrame(start, rows, key);
    }
  }

  lemma CompletedStep(start: map<string, Receipt>, rows: seq<Row>, finals: seq<Receipt>, i: nat,
                      receipts: map<string, Receipt>)
    requires DistinctRows(rows) && i < |rows| == |finals| && CompletedTo(start, rows, finals, i, receipts)
    ensures CompletedTo(start, rows, finals, i + 1, receipts[rows[i].key := finals[i]])
  {
  }

  lemma CompleteReserved(start: map<string, Receipt>, receipts: map<string, Receipt>, row: Row,
                         outcome: AcceptanceOutcome,
                         version: Option<int>, reason: Option<Reason>)
    requires row.key in receipts && receipts[row.key] == Reserve(start, row)[row.key]
    ensures Complete(receipts, row.key, outcome, version, reason)
         == receipts[row.key := Complete(Reserve(start, row), row.key, outcome, version, reason)[row.key]]
  {
    assert receipts[row.key := receipts[row.key]] == receipts;
  }

  /** Completing row `i` with its verdict advances the completion statement by one row. */
  lemma SettleStep(db: Db, rows: seq<Row>, i: nat, receipts: map<string, Receipt>)
    requires DistinctRows(rows) && i < |rows| && CompletedTo(db.receipts, rows, FinalReceipts(db, rows), i, receipts)
    ensures var c := CanonicalBefore(db, rows, i);
            CompletedTo(db.receipts, rows, FinalReceipts(db, rows), i + 1,
                        Complete(receipts, rows[i].key, Verdict(c, rows[i]), VerdictVersion(c, rows[i]),
                                 VerdictReason(c, rows[i])))
  {
    var c := CanonicalBefore(db, rows, i);
    CompletedStep(db.receipts, rows, FinalReceipts(db, rows), i, receipts);
    CompleteReserved(db.receipts, receipts, rows[i], Verdict(c, rows[i]), VerdictVersion(c, rows[i]),
                     VerdictReason(c, rows[i]));
    assert FinalReceipts(db, rows)[i] == FinalReceipt(db, rows, i);
  }

  /** The identities added by the batch grow exactly by those whose verdict is `Inserted`. */
  lemma AddedIdentities(db: Db, rows: seq<Row>, i: nat)
    requires i < |rows|
    ensures CanonicalBefore(db, rows, i + 1).Keys - db.canonical.Keys
         == (CanonicalBefore(db, rows, i).Keys - db.canonical.Keys)
            + (if Verdict(CanonicalBefore(db, rows, i), rows[i]) == Inserted then {rows[i].Identity().value} else {})
  {
    PrefixStep(db, rows, i);
    CanonicalKept(db, rows[..i]);
    var before, after := CanonicalBefore(db, rows, i), CanonicalBefore(db, rows, i + 1);
    if Verdict(before, rows[i]) == Inserted {
      assert after.Keys == before.Keys + {rows[i].Identity().value};
    } else {
      assert after == before;
    }
  }

  lemma CompletedIsSettled(db: Db, rows: seq<Row>, receipts: map<string, Receipt>)
    requires DistinctRows(rows) && CompletedTo(db.receipts, rows, FinalReceipts(db, rows), |rows|, receipts)
    ensures receipts == Settled(db, rows).receipts
  {
    forall key ensures key in receipts <==> key in Settled(db, rows).receipts
               ensures key in receipts ==> receipts[key] == Settled(db, rows).receipts[key]
    {
      if j :| 0 <= j < |rows| && rows[j].key == key {
        SettledReceiptAt(db, rows, j);
        assert receipts[rows[j].key] == FinalReceipts(db, rows)[j];
      } else {
        SettledFrame(db, rows, key);
      }
    }
  }

  /** Reserving receipts says nothing about any bar, so it keeps the tables sound. */
  lemma ReserveAllSound(db: Db, rows: seq<Row>)
    requires Sound(db) && DistinctRows(rows)
    ensures Sound(db.(receipts := ReserveAll(db.receipts, rows)))
  {
    var after := db.(receipts := ReserveAll(db.receipts, rows));
    forall key | key in after.receipts ensures ReceiptSound(after, key) {
      if i :| 0 <= i < |rows| && rows[i].key == key {
        ReserveAllAt(db.receipts, rows, i);
      } else {
        ReserveAllFrame(db.receipts, rows, key);
      }
      if key in db.receipts { assert ReceiptSound(db, key); }
    }
    forall key | key in after.conflicts ensures ConflictSound(after, key) {
      assert ConflictSound(db, key);
      ReserveAllKeeps(db.receipts, rows, key);
    }
  }

  lemma {:induction false} ReserveAllKeeps(receipts: map<string, Receipt>, rows: seq<Row>, key: string)
    requires key in receipts
    ensures key in ReserveAll(receipts, rows) && ReserveAll(receipts, rows)[key] == receipts[key]
    decreases |rows|
  {
    if rows != [] { ReserveAllKeeps(receipts, rows[..|rows| - 1], key); }
  }

  /** One call of `Accept`: its early return for a completed receipt is part of the meaning. */
  function AcceptOne(db: Db, row: Row): Db {
    if row.key in db.receipts && db.receipts[row.key].outcome.Some? then db else Settle(db, row)
  }

  function AcceptOneByOne(db: Db, rows: seq<Row>): Db {
    if rows == [] then db else AcceptOne(AcceptOneByOne(db, rows[..|rows| - 1]), rows[|rows| - 1])
  }

  lemma {:induction false} SameTables(db: Db, rows: seq<Row>)
    requires Sound(db) && DistinctRows(rows) && NoMismatch(db, rows)
    ensures Settled(db, rows) == AcceptOneByOne(db, rows)
    decreases |rows|
  {
    if rows != [] {
      var n := |rows| - 1;
      SameTables(db, rows[..n]);
      SettledSound(db, rows[..n]);
      SettledFrame(db, rows[..n], rows[n].key);
      LastAccepted(Settled(db, rows[..n]), rows[n]);
    }
  }

  lemma LastAccepted(db: Db, row: Row)
    requires Sound(db) && SameObservation(db.receipts, row)
    ensures AcceptOne(db, row) == Settle(db, row)
  {
    if row.key in db.receipts && db.receipts[row.key].outcome.Some? { SettleIdempotent(db, row); }
  }

  /** Row `i` reads back from the settled batch what its own call would have returned. */
  lemma SameResult(db: Db, rows: seq<Row>, i: nat)
    requires Sound(db) && DistinctRows(rows) && NoMismatch(db, rows) && i < |rows|
    ensures ResultFor(db, Settled(db, rows), rows[i])
         == ResultFor(AcceptOneByOne(db, rows[..i]), AcceptOneByOne(db, rows[..i + 1]), rows[i])
  {
    var upTo := rows[..i + 1];
    SameTables(db, rows[..i]);
    SameTables(db, upTo);
    SettledReceiptAt(db, rows, i);
    SettledReceiptAt(db, upTo, i);
    assert upTo[i] == rows[i] && upTo[..i] == rows[..i];
    SettledFrame(db, rows[..i], rows[i].key);
  }

  /** The refinement: settling a batch leaves the tables that one-by-one acceptance leaves, and every
      row reads back the result its own call would have returned. */
  lemma BatchRefinesOneByOne(db: Db, rows: seq<Row>)
    requires Sound(db) && DistinctRows(rows) && NoMismatch(db, rows)
    ensures Settled(db, rows) == AcceptOneByOne(db, rows)
    ensures forall i :: 0 <= i < |rows| ==>
              ResultFor(db, Settled(db, rows), rows[i])
              == ResultFor(AcceptOneByOne(db, rows[..i]), AcceptOneByOne(db, rows[..i + 1]), rows[i])
  {
    SameTables(db, rows);
    forall i | 0 <= i < |rows|
      ensures ResultFor(db, Settled(db, rows), rows[i])
           == ResultFor(AcceptOneByOne(db, rows[..i]), AcceptOneByOne(db, rows[..i + 1]), rows[i])
    {
      SameResult(db, rows, i);
    }
  }

  // What accepting leaves behind, told by the observations and the tables alone.

  /** Two observations of one bar that do not agree, and the row that records it. */
  ghost predicate Records(c: ConflictRow, stored: NormalizedBar, observed: NormalizedBar) {
    && c.identity == IdentityFor(observed) && SameBar(stored, observed) && !SameContent(stored, observed)
    && Digests(c.storedFingerprint, stored) && Digests(c.observedFingerprint, observed)
  }

  /** An answer to `row` is true: a bar that does not normalise is rejected with its reason; of any other the canonical
      bar has the observed content, unless the answer is CONFLICT: then it has other content, and the conflict row names
      the stored and the observed one. */
  ghost predicate Truthful(db: Db, row: Row, outcome: AcceptanceOutcome, version: Option<int>, reason: Option<Reason>) {
    match row.candidate
    case Rejected(why) => outcome == RejectedBar && version == None && reason == Some(ForRejection(why.Code(), why))
    case Normalized(bar) =>
      && IdentityFor(bar) in db.canonical && version == Some(1) && outcome != RejectedBar
      && var stored := db.canonical[IdentityFor(bar)].bar;
         && SameBar(stored, bar)
         && (outcome == Conflict <==> !SameContent(stored, bar))
         && reason == (if outcome == Conflict then Some(DifferentContent) else None)
         && (outcome == Conflict ==> row.key in db.conflicts && Records(db.conflicts[row.key], stored, bar))
  }

  /** The bar of row `i` is new: not canonical before, and in no earlier row. */
  ghost predicate IsNew(canonical: map<Identity, Canonical>, rows: seq<Row>, i: nat)
    requires i < |rows|
  {
    rows[i].Identity().Some? && rows[i].Identity().value !in canonical
    && forall j :: 0 <= j < i ==> rows[j].Identity() != rows[i].Identity()
  }

  ghost predicate ReceiptAfter(a: Db, rows: seq<Row>, b: Db, i: nat)
    requires i < |rows|
  {
    var row, key := rows[i], rows[i].key;
    && key in b.receipts && b.receipts[key].outcome.Some?
    && var r := b.receipts[key];
       && r.requestFingerprint == row.Fingerprint() && r.identity == row.Identity()
       && (if key in a.receipts then r.jobId == a.receipts[key].jobId && r.retrievedAt == a.receipts[key].retrievedAt
           else r.jobId == row.jobId && r.retrievedAt == row.retrievedAt)
       && (if key in a.receipts && a.receipts[key].outcome.Some? then r == a.receipts[key]
           else r.outcome.value == Inserted <==> IsNew(a.canonical, rows, i))
       && Truthful(b, row, r.outcome.value, r.storedVersion, r.reason)
  }

  /** One of the first `n` rows is of this bar. */
  ghost predicate Has(rows: seq<Row>, n: nat, identity: Identity)
    requires n <= |rows|
  {
    exists i :: 0 <= i < n && rows[i].Identity() == Some(identity)
  }

  /** Canonical bars after the first `n` rows: the old ones as they were, and each new one as its first row observed
      it. */
  ghost predicate CanonicalGrown(a: map<Identity, Canonical>, rows: seq<Row>, n: nat, b: map<Identity, Canonical>)
    requires n <= |rows|
  {
    && (forall identity :: identity in b <==> identity in a || Has(rows, n, identity))
    && (forall identity :: identity in a ==> b[identity] == a[identity])
    && (forall i :: 0 <= i < n && IsNew(a, rows, i) ==> FiledBy(b, rows[i]))
  }

  ghost predicate FiledBy(canonical: map<Identity, Canonical>, row: Row)
    requires row.candidate.Normalized?
  {
    IdentityFor(row.candidate.bar) in canonical
    && canonical[IdentityFor(row.candidate.bar)]
       == Canonical(row.candidate.bar, ContentFingerprint(row.candidate.bar), 1, row.retrievedAt)
  }

  /** The canonical bar has other content than the observation. */
  predicate Contradicts(canonical: map<Identity, Canonical>, c: Candidate) {
    c.Normalized? && IdentityFor(c.bar) in canonical && !SameContent(canonical[IdentityFor(c.bar)].bar, c.bar)
  }

  /** The canonical bar has the observed content. */
  predicate Holds(canonical: map<Identity, Canonical>, c: Candidate) {
    c.Normalized? && IdentityFor(c.bar) in canonical && SameContent(canonical[IdentityFor(c.bar)].bar, c.bar)
  }

  ghost predicate HasKey(rows: seq<Row>, n: nat, key: string)
    requires n <= |rows|
  {
    exists i :: 0 <= i < n && rows[i].key == key
  }

  /** The conflict rows after the first `n` rows: the old ones as they were, and one for each row that contradicts its
      canonical bar. */
  ghost predicate ConflictsGrown(a: map<string, ConflictRow>, canonical: map<Identity, Canonical>, rows: seq<Row>,
                                 n: nat, b: map<string, ConflictRow>)
    requires n <= |rows|
  {
    && (forall key :: key in a ==> key in b && b[key] == a[key])
    && (forall key :: key in b && key !in a ==> HasKey(rows, n, key))
    && (forall i :: 0 <= i < n && rows[i].key !in a ==> ConflictIff(canonical, b, rows[i]))
  }

  ghost predicate ConflictIff(canonical: map<Identity, Canonical>, b: map<string, ConflictRow>, row: Row) {
    && (row.key in b <==> Contradicts(canonical, row.candidate))
    && (row.key in b ==> b[row.key].detectedAt == row.retrievedAt)
  }

  /** The tables after accepting `rows`. */
  ghost predicate TablesAfter(a: Db, rows: seq<Row>, b: Db) {
    && (forall i :: 0 <= i < |rows| ==> ReceiptAfter(a, rows, b, i))
    && (forall key :: ForeignKey(rows, key) ==> (key in b.receipts <==> key in a.receipts))
    && (forall key :: ForeignKey(rows, key) && key in a.receipts ==> b.receipts[key] == a.receipts[key])
    && CanonicalGrown(a.canonical, rows, |rows|, b.canonical)
    && ConflictsGrown(a.conflicts, b.canonical, rows, |rows|, b.conflicts)
  }

  /** The same observation: of one bar with one content, or rejected for the same reason. */
  predicate SameObserved(a: Candidate, b: Candidate) {
    if a.Normalized? && b.Normalized? then SameBar(a.bar, b.bar) && SameContent(a.bar, b.bar)
    else a.Rejected? && b.Rejected? && a.why == b.why
  }

  /** A key reserved for one row fits another row exactly when both made the same observation. */
  lemma ReusedKey(receipts: map<string, Receipt>, a: Row, b: Row)
    requires a.key == b.key && a.key !in receipts
    ensures SameObservation(Reserve(receipts, a), b) <==> SameObserved(a.candidate, b.candidate)
  {
    if a.candidate.Normalized? && b.candidate.Normalized? { FingerprintsTell(a.candidate.bar); }
  }

  /** One more row inserted. */
  lemma CanonicalGrowsStep(a: map<Identity, Canonical>, rows: seq<Row>, n: nat, before: map<Identity, Canonical>)
    requires n < |rows| && CanonicalGrown(a, rows, n, before)
    ensures CanonicalGrown(a, rows, n + 1, InsertCanonical(before, rows[n]))
  {
    var after := InsertCanonical(before, rows[n]);
    forall identity ensures identity in after <==> identity in a || Has(rows, n + 1, identity) {
      assert Has(rows, n + 1, identity) <==> Has(rows, n, identity) || rows[n].Identity() == Some(identity);
    }
    forall i | 0 <= i < n + 1 && IsNew(a, rows, i) ensures FiledBy(after, rows[i]) {
      if i == n { assert !Has(rows, n, rows[n].Identity().value); }
    }
  }

  lemma {:induction false} CanonicalGrows(canonical: map<Identity, Canonical>, rows: seq<Row>, n: nat)
    requires n <= |rows|
    ensures CanonicalGrown(canonical, rows, n, CanonicalAfter(canonical, rows[..n]))
    decreases n
  {
    if n == 0 {
      assert rows[..0] == [];
    } else {
      CanonicalGrows(canonical, rows, n - 1);
      CanonicalGrowsStep(canonical, rows, n - 1, CanonicalAfter(canonical, rows[..n - 1]));
      assert rows[..n][..n - 1] == rows[..n - 1];
    }
  }

  /** The verdict on a row is INSERTED exactly for a new bar. */
  lemma InsertedMeansNew(db: Db, rows: seq<Row>, i: nat)
    requires i < |rows|
    ensures Verdict(CanonicalBefore(db, rows, i), rows[i]) == Inserted <==> IsNew(db.canonical, rows, i)
  {
    if rows[i].Identity().Some? {
      SettledCanonical(db, rows[..i]);
      CanonicalGrows(db.canonical, rows, i);
    }
  }

  /** In sound tables a completed receipt answers its row truly. */
  lemma ReceiptIsTruthful(db: Db, row: Row)
    requires Sound(db) && row.key in db.receipts && db.receipts[row.key].outcome.Some?
    requires SameObservation(db.receipts, row)
    ensures var r := db.receipts[row.key]; Truthful(db, row, r.outcome.value, r.storedVersion, r.reason)
  {
    assert ReceiptSound(db, row.key);
    if row.candidate.Normalized? {
      var stored := db.canonical[IdentityFor(row.candidate.bar)].bar;
      assert CanonicalSound(db.canonical, IdentityFor(row.candidate.bar));
      FingerprintsTell(stored);
      FingerprintsTell(row.candidate.bar);
      if row.key in db.conflicts { assert ConflictSound(db, row.key); }
    }
  }

  lemma SettledReceipt(db: Db, rows: seq<Row>, i: nat)
    requires Sound(db) && DistinctRows(rows) && NoMismatch(db, rows) && i < |rows|
    ensures ReceiptAfter(db, rows, Settled(db, rows), i)
  {
    SettledSound(db, rows);
    SettledReceiptAt(db, rows, i);
    InsertedMeansNew(db, rows, i);
    assert SameObservation(db.receipts, rows[i]);
    ReceiptIsTruthful(Settled(db, rows), rows[i]);
  }

  lemma ContradictsMeansDiffers(canonical: map<Identity, Canonical>, row: Row)
    requires FiledTruly(canonical)
    ensures Contradicts(canonical, row.candidate)
       <==> row.Identity().Some? && row.Identity().value in canonical
            && canonical[row.Identity().value].fingerprint != row.Fingerprint()
  {
    if row.candidate.Normalized? && IdentityFor(row.candidate.bar) in canonical {
      assert CanonicalSound(canonical, IdentityFor(row.candidate.bar));
      FingerprintsTell(canonical[IdentityFor(row.candidate.bar)].bar);
    }
  }

  /** The conflict statement reaches row `n`: the canonical bar it sees is the final one. */
  lemma ConflictsPrefix(db: Db, rows: seq<Row>, n: nat)
    requires n < |rows|
    ensures Settled(db, rows[..n + 1]).conflicts
         == RecordConflict(Settled(db, rows).canonical, Settled(db, rows[..n]).conflicts, rows[n])
  {
    PrefixStep(db, rows, n);
    if rows[n].Identity().Some? { CanonicalStable(db, rows, n + 1, rows[n].Identity().value); }
  }

  lemma {:induction false} ConflictsGrow(db: Db, rows: seq<Row>, canonical: map<Identity, Canonical>, n: nat)
    requires DistinctRows(rows) && n <= |rows| && canonical == Settled(db, rows).canonical && FiledTruly(canonical)
    ensures ConflictsGrown(db.conflicts, canonical, rows, n, Settled(db, rows[..n]).conflicts)
    decreases n
  {
    if n == 0 {
      assert rows[..0] == [];
    } else {
      ConflictsGrow(db, rows, canonical, n - 1);
      ConflictsPrefix(db, rows, n - 1);
      ConflictsStep(db.conflicts, canonical, rows, Settled(db, rows[..n - 1]).conflicts, n - 1);
    }
  }

  lemma ConflictsStep(a: map<string, ConflictRow>, canonical: map<Identity, Canonical>, rows: seq<Row>,
                      b: map<string, ConflictRow>, n: nat)
    requires DistinctRows(rows) && n < |rows| && FiledTruly(canonical)
    requires ConflictsGrown(a, canonical, rows, n, b)
    ensures ConflictsGrown(a, canonical, rows, n + 1, RecordConflict(canonical, b, rows[n]))
  {
    var after := RecordConflict(canonical, b, rows[n]);
    forall i | 0 <= i < n + 1 && rows[i].key !in a ensures ConflictIff(canonical, after, rows[i]) {
      if i == n {
        assert !HasKey(rows, n, rows[n].key);
        ContradictsMeansDiffers(canonical, rows[n]);
      }
    }
    forall key | key in after && key !in a ensures HasKey(rows, n + 1, key) {
      if key in b { assert HasKey(rows, n, key); }
    }
  }

  /** Accepting a batch leaves the tables it should. */
  lemma SettledTables(db: Db, rows: seq<Row>)
    requires Sound(db) && DistinctRows(rows) && NoMismatch(db, rows)
    ensures TablesAfter(db, rows, Settled(db, rows))
  {
    assert rows[..|rows|] == rows;
    forall i | 0 <= i < |rows| ensures ReceiptAfter(db, rows, Settled(db, rows), i) { SettledReceipt(db, rows, i); }
    forall key | ForeignKey(rows, key)
      ensures key in Settled(db, rows).receipts <==> key in db.receipts
      ensures key in db.receipts ==> Settled(db, rows).receipts[key] == db.receipts[key]
    {
      SettledFrame(db, rows, key);
    }
    SettledCanonical(db, rows);
    CanonicalGrows(db.canonical, rows, |rows|);
    SettledSound(db, rows);
    ConflictsGrow(db, rows, Settled(db, rows).canonical, |rows|);
  }

  /** The answer to row `i` is what its receipt says. */
  ghost predicate Answers(a: Db, rows: seq<Row>, b: Db, i: nat, answer: AcceptanceResult)
    requires i < |rows|
  {
    var row := rows[i];
    && answer.identity == row.Identity() && answer.acceptanceReceipt == row.key
    && (answer.provenanceAppended <==> row.key !in a.receipts)
    && row.key in b.receipts && b.receipts[row.key].outcome == Some(answer.outcome)
    && Truthful(b, row, answer.outcome, answer.storedVersion, answer.reason)
  }

  lemma ReadBackAnswers(a: Db, rows: seq<Row>, b: Db, i: nat)
    requires i < |rows| && ReceiptAfter(a, rows, b, i)
    ensures ResultFor(a, b, rows[i]).Some? && Answers(a, rows, b, i, ResultFor(a, b, rows[i]).value)
  {
  }

  lemma BatchSettles(db: Db, rows: seq<Row>)
    requires Sound(db) && DistinctRows(rows) && NoMismatch(db, rows)
    ensures var after := Settled(db, rows);
            && Sound(after) && after == AcceptOneByOne(db, rows) && TablesAfter(db, rows, after)
            && forall i :: 0 <= i < |rows| ==>
                 ResultFor(db, after, rows[i]).Some? && Answers(db, rows, after, i, ResultFor(db, after, rows[i]).value)
  {
    SettledSound(db, rows);
    SameTables(db, rows);
    SettledTables(db, rows);
    forall i | 0 <= i < |rows|
      ensures ResultFor(db, Settled(db, rows), rows[i]).Some?
              && Answers(db, rows, Settled(db, rows), i, ResultFor(db, Settled(db, rows), rows[i]).value)
    {
      ReadBackAnswers(db, rows, Settled(db, rows), i);
    }
  }

  lemma OneRowSettles(db: Db, row: Row)
    requires Sound(db) && SameObservation(db.receipts, row)
    ensures var after := Settle(db, row);
            && Sound(after) && TablesAfter(db, [row], after) && ResultFor(db, after, row).Some?
            && Answers(db, [row], after, 0, ResultFor(db, after, row).value)
  {
    assert [row][..0] == [] && Settled(db, []) == db && Settled(db, [row]) == Settle(db, row);
    BatchSettles(db, [row]);
    assert [row][0] == row;
  }

  function RowsOf(inputs: seq<Input>): (rows: seq<Row>)
    requires forall i :: 0 <= i < |inputs| ==> ValidProvenance(inputs[i].provenance)
  {
    seq(|inputs|, i requires 0 <= i < |inputs| => RowOf(inputs[i]))
  }

  ghost predicate DistinctInputKeys(inputs: seq<Input>) {
    forall i, j :: 0 <= i < j < |inputs| ==> inputs[i].provenance.idempotencyKey != inputs[j].provenance.idempotencyKey
  }

  predicate AllValidInputs(inputs: seq<Input>) {
    forall i :: 0 <= i < |inputs| ==> ValidProvenance(inputs[i].provenance)
  }

  class D1NormalizedBarStore {
    var receipts: map<string, Receipt>
    var canonical: map<Identity, Canonical>
    var conflicts: map<string, ConflictRow>

    function State(): Db
      reads this
    {
      Db(receipts, canonical, conflicts)
    }

    constructor ()
      ensures State() == Db(map[], map[], map[])
      ensures Sound(State())
    {
      receipts, canonical, conflicts := map[], map[], map[];
    }

    /** Accept one observation, statement by statement. */
    method Accept(candidate: Candidate, provenance: Provenance) returns (result: Result<AcceptanceResult>)
      requires Sound(State())
      modifies this
      ensures Sound(State())
      ensures result.Ok? <==> (ValidProvenance(provenance)
                               && SameObservation(old(receipts), RowOf(Input(candidate, provenance))))
      ensures result.Err? ==> State() == old(State())
      ensures result.Err? ==>
                result.error == if ValidProvenance(provenance) then IdempotencyMismatch else InvalidProvenance
      ensures result.Ok? ==>
                var row := RowOf(Input(candidate, provenance));
                && State() == Settle(old(State()), row)
                && TablesAfter(old(State()), [row], State())
                && Answers(old(State()), [row], State(), 0, result.value)
    {
      if !ValidProvenance(provenance) { return Err(InvalidProvenance); }
      var row := RowOf(Input(candidate, provenance));
      ghost var before := State();
      var reserved := row.key !in receipts;
      if reserved { receipts := receipts[row.key := FreshReceipt(row)]; }
      var existing := receipts[row.key];
      if existing.requestFingerprint != row.Fingerprint() || existing.identity != row.Identity() {
        return Err(IdempotencyMismatch);
      }
      OneRowSettles(before, row);
      if existing.outcome.Some? {
        SettleIdempotent(before, row);
        return Ok(CompletedResult(row.key, false));
      }
      if row.candidate.Rejected? {
        CompleteReceipt(row.key, RejectedBar, None, Some(ForRejection(row.candidate.why.Code(), row.candidate.why)));
      } else {
        var identity := row.Identity().value;
        var inserted := identity !in canonical;
        if inserted {
          canonical := canonical[identity := Canonical(row.candidate.bar, row.Fingerprint(), 1, row.retrievedAt)];
        }
        var stored := canonical[identity];
        if stored.fingerprint == row.Fingerprint() {
          CompleteReceipt(row.key, if inserted then Inserted else Matched, Some(stored.version), None);
        } else {
          if row.key !in conflicts {
            conflicts := conflicts[row.key := ConflictRow(identity, stored.fingerprint, row.Fingerprint(),
                                                          row.retrievedAt)];
          }
          CompleteReceipt(row.key, Conflict, Some(stored.version), Some(DifferentContent));
        }
      }
      assert State() == Settle(before, row);
      result := Ok(CompletedResult(row.key, reserved));
    }

    /** Accept a page of observations with one bulk statement per table.  It refines accepting them one
        by one in order: same receipts, canonical bars, conflict rows and results. */
    method AcceptBatch(inputs: seq<Input>) returns (result: Result<seq<AcceptanceResult>>)
      requires Sound(State()) && DistinctInputKeys(inputs)
      modifies this
      ensures result.Ok? <==> AllValidInputs(inputs) && NoMismatch(old(State()), RowsOf(inputs))
      ensures Sound(State())
      ensures result.Err? ==> canonical == old(canonical) && conflicts == old(conflicts)
      ensures result.Err? ==>
                result.error == if AllValidInputs(inputs) then IdempotencyMismatch else InvalidProvenance
      ensures result.Err? ==> receipts == if AllValidInputs(inputs) then ReserveAll(old(receipts), RowsOf(inputs))
                                          else old(receipts)
      ensures result.Ok? ==>
                && State() == Settled(old(State()), RowsOf(inputs)) == AcceptOneByOne(old(State()), RowsOf(inputs))
                && TablesAfter(old(State()), RowsOf(inputs), State())
                && |result.value| == |inputs|
                && forall i :: 0 <= i < |inputs| ==>
                     && Some(result.value[i]) == ResultFor(old(State()), State(), RowsOf(inputs)[i])
                     && Answers(old(State()), RowsOf(inputs), State(), i, result.value[i])
    {
      var valid := CheckInputs(inputs);
      if !valid { return Err(InvalidProvenance); }
      ghost var before := State();
      var rows := RowsOf(inputs);
      var appended := ReserveReceipts(rows);
      var matching := ReceiptsMatch(rows, before);
      ReserveAllSound(before, rows);
      if !matching { return Err(IdempotencyMismatch); }
      var results := SettleRows(rows, appended, before);
      BatchSettles(before, rows);
      result := Ok(results);
    }

    /** Statements 2 to 4 and the reading back. */
    method SettleRows(rows: seq<Row>, appended: set<string>, ghost before: Db)
      returns (results: seq<AcceptanceResult>)
      requires Sound(before) && DistinctRows(rows) && NoMismatch(before, rows)
      requires State() == before.(receipts := ReserveAll(before.receipts, rows))
      requires forall j :: 0 <= j < |rows| ==> (rows[j].key in appended <==> rows[j].key !in before.receipts)
      modifies this
      ensures State() == Settled(before, rows) && |results| == |rows|
      ensures forall j :: 0 <= j < |rows| ==> Some(results[j]) == ResultFor(before, State(), rows[j])
    {
      SettledSound(before, rows);
      ReservedIsCompletedToZero(before.receipts, rows, FinalReceipts(before, rows));
      var known := canonical.Keys;
      InsertBars(rows, before);
      var insertedIdentities := canonical.Keys - known;
      RecordConflicts(rows, before);
      SettleReceipts(before, rows, known, insertedIdentities);
      CompletedIsSettled(before, rows, receipts);
      results := ReadResults(rows, appended, before);
    }

    method CheckInputs(inputs: seq<Input>) returns (valid: bool)
      ensures valid == AllValidInputs(inputs)
    {
      for i := 0 to |inputs|
        invariant AllValidInputs(inputs[..i])
      {
        if !ValidProvenance(inputs[i].provenance) { return false; }
      }
      valid := true;
    }

    /** Statement 1: reserve the receipts; returns the keys that were new. */
    method ReserveReceipts(rows: seq<Row>) returns (appended: set<string>)
      requires DistinctRows(rows)
      modifies this`receipts
      ensures receipts == ReserveAll(old(receipts), rows)
      ensures forall j :: 0 <= j < |rows| ==> (rows[j].key in appended <==> rows[j].key !in old(receipts))
    {
      appended := {};
      ghost var before := receipts;
      for i := 0 to |rows|
        invariant receipts == ReserveAll(before, rows[..i])
        invariant forall j :: 0 <= j < i ==> (rows[j].key in appended <==> rows[j].key !in before)
        invariant forall key :: key in appended ==> exists j :: 0 <= j < i && rows[j].key == key
      {
        assert rows[..i + 1][..i] == rows[..i];
        ReserveAllFrame(before, rows[..i], rows[i].key);
        if rows[i].key !in receipts {
          receipts := receipts[rows[i].key := FreshReceipt(rows[i])];
          appended := appended + {rows[i].key};
        }
      }
      assert rows[..|rows|] == rows;
    }

    /** Every reserved or older receipt belongs to the observation that names it. */
    method ReceiptsMatch(rows: seq<Row>, ghost before: Db) returns (matching: bool)
      requires DistinctRows(rows) && receipts == ReserveAll(before.receipts, rows)
      ensures matching <==> NoMismatch(before, rows)
    {
      for i := 0 to |rows|
        invariant NoMismatch(before, rows[..i])
      {
        ReserveAllAt(before.receipts, rows, i);
        var receipt := receipts[rows[i].key];
        if receipt.requestFingerprint != rows[i].Fingerprint() || receipt.identity != rows[i].Identity() {
          return false;
        }
      }
      matching := true;
    }

    /** Statement 2: insert the canonical bars that are still absent. */
    method InsertBars(rows: seq<Row>, ghost before: Db)
      requires canonical == before.canonical
      modifies this`canonical
      ensures canonical == Settled(before, rows).canonical
    {
      for i := 0 to |rows|
        invariant canonical == Settled(before, rows[..i]).canonical
      {
        PrefixStep(before, rows, i);
        canonical := InsertCanonical(canonical, rows[i]);
      }
      assert rows[..|rows|] == rows;
    }

    /** Statement 3: record a conflict for every row that differs from its canonical bar. */
    method RecordConflicts(rows: seq<Row>, ghost before: Db)
      requires canonical == Settled(before, rows).canonical && conflicts == before.conflicts
      modifies this`conflicts
      ensures conflicts == Settled(before, rows).conflicts
    {
      for i := 0 to |rows|
        invariant conflicts == Settled(before, rows[..i]).conflicts
      {
        PrefixStep(before, rows, i);
        if rows[i].Identity().Some? { CanonicalStable(before, rows, i + 1, rows[i].Identity().value); }
        conflicts := RecordConflict(canonical, conflicts, rows[i]);
      }
      assert rows[..|rows|] == rows;
    }

    /** Statement 4: derive every outcome in memory, then complete the receipts. */
    method SettleReceipts(ghost before: Db, rows: seq<Row>, ghost known: set<Identity>,
                          insertedIdentities: set<Identity>)
      requires DistinctRows(rows)
      requires known == before.canonical.Keys && insertedIdentities == canonical.Keys - known
      requires canonical == Settled(before, rows).canonical
      requires CompletedTo(before.receipts, rows, FinalReceipts(before, rows), 0, receipts)
      modifies this`receipts
      ensures CompletedTo(before.receipts, rows, FinalReceipts(before, rows), |rows|, receipts)
    {
      var firstInserted: set<Identity> := {};
      assert rows[..0] == [];
      for i := 0 to |rows|
        invariant firstInserted == CanonicalBefore(before, rows, i).Keys - known
        invariant CompletedTo(before.receipts, rows, FinalReceipts(before, rows), i, receipts)
      {
        firstInserted := SettleReceipt(before, rows, i, known, insertedIdentities, firstInserted);
      }
    }

    method SettleReceipt(ghost before: Db, rows: seq<Row>, i: nat, ghost known: set<Identity>,
                         insertedIdentities: set<Identity>, firstInserted: set<Identity>) returns (first: set<Identity>)
      requires DistinctRows(rows) && i < |rows|
      requires known == before.canonical.Keys && insertedIdentities == canonical.Keys - known
      requires canonical == Settled(before, rows).canonical
      requires firstInserted == CanonicalBefore(before, rows, i).Keys - known
      requires CompletedTo(before.receipts, rows, FinalReceipts(before, rows), i, receipts)
      modifies this`receipts
      ensures first == CanonicalBefore(before, rows, i + 1).Keys - known
      ensures CompletedTo(before.receipts, rows, FinalReceipts(before, rows), i + 1, receipts)
    {
      var outcome, version, reason := FinalVerdict(before, rows, i, known, insertedIdentities, firstInserted);
      AddedIdentities(before, rows, i);
      SettleStep(before, rows, i, receipts);
      first := if outcome == Inserted then firstInserted + {rows[i].Identity().value} else firstInserted;
      receipts := Complete(receipts, rows[i].key, outcome, version, reason);
    }

    /** The verdict computed from the fully inserted table is the verdict in input order. */
    method FinalVerdict(ghost before: Db, rows: seq<Row>, i: nat, ghost known: set<Identity>,
                        insertedIdentities: set<Identity>, firstInserted: set<Identity>)
      returns (outcome: AcceptanceOutcome, version: Option<int>, reason: Option<Reason>)
      requires i < |rows|
      requires known == before.canonical.Keys && insertedIdentities == canonical.Keys - known
      requires canonical == Settled(before, rows).canonical
      requires firstInserted == CanonicalBefore(before, rows, i).Keys - known
      ensures outcome == Verdict(CanonicalBefore(before, rows, i), rows[i])
      ensures version == VerdictVersion(CanonicalBefore(before, rows, i), rows[i])
      ensures reason == VerdictReason(CanonicalBefore(before, rows, i), rows[i])
    {
      if rows[i].candidate.Rejected? { return RejectedBar, None,
                                      Some(ForRejection(rows[i].candidate.why.Code(), rows[i].candidate.why)); }
      var identity := rows[i].Identity().value;
      PrefixStep(before, rows, i);
      CanonicalStable(before, rows, i + 1, identity);
      CanonicalKept(before, rows[..i]);
      version := Some(canonical[identity].version);
      if canonical[identity].fingerprint != rows[i].Fingerprint() { return Conflict, version, Some(DifferentContent); }
      if identity in insertedIdentities && identity !in firstInserted { return Inserted, version, None; }
      return Matched, version, None;
    }

    method ReadResults(rows: seq<Row>, appended: set<string>, ghost before: Db) returns (results: seq<AcceptanceResult>)
      requires forall j :: 0 <= j < |rows| ==> ResultFor(before, State(), rows[j]).Some?
      requires forall j :: 0 <= j < |rows| ==> (rows[j].key in appended <==> rows[j].key !in before.receipts)
      ensures |results| == |rows|
      ensures forall j :: 0 <= j < |rows| ==> Some(results[j]) == ResultFor(before, State(), rows[j])
    {
      results := [];
      for i := 0 to |rows|
        invariant |results| == i
        invariant forall j :: 0 <= j < i ==> Some(results[j]) == ResultFor(before, State(), rows[j])
      {
        assert ResultFor(before, State(), rows[i]).Some?;
        results := results + [CompletedResult(rows[i].key, rows[i].key in appended)];
      }
    }

    method CompleteReceipt(key: string, outcome: AcceptanceOutcome, version: Option<int>, reason: Option<Reason>)
      requires key in receipts
      modifies this`receipts
      ensures receipts == Complete(old(receipts), key, outcome, version, reason)
    {
      if receipts[key].outcome.None? {
        receipts := receipts[key := receipts[key].(outcome := Some(outcome), storedVersion := version, reason := reason,
                                                   completedAt := Some(receipts[key].retrievedAt))];
      }
    }

    function CompletedResult(key: string, appended: bool): AcceptanceResult
      requires key in receipts && receipts[key].outcome.Some?
      reads this
    {
      var r := receipts[key];
      AcceptanceResult(r.identity, r.outcome.value, r.storedVersion, key, r.reason, appended)
    }
  }
}
