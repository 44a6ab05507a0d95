/** The coverage checkpoint table: versioned, monotone compare-and-set. */
module Checkpoint {
  import opened Market
  import opened MissingRanges

  datatype CheckpointState = Complete | Partial | Unknown | Blocked

  datatype StoredCheckpoint = StoredCheckpoint(
    coverageKey: string, symbol: string, interval: Cadence, sessionScope: SessionScope, logicalDataVariant: string,
    completeThrough: Option<Instant>, state: CheckpointState, missingRanges: seq<TimeRange>,
    lastSuccessAt: Option<Instant>, lastAttemptAt: Option<Instant>, retryNotBefore: Option<Instant>,
    sourceObservedThrough: Option<Instant>, universeRevision: Option<string>, version: int, blocker: Option<string>)

  datatype CompareAndSetOutcome = Updated(checkpoint: StoredCheckpoint) | VersionConflict

  datatype Update = Update(expectedVersion: Option<int>, proposed: StoredCheckpoint) {
    function Key(): string { proposed.coverageKey }
  }

  type Table = map<string, StoredCheckpoint>

  function Row(table: Table, key: string): Option<StoredCheckpoint> {
    if key in table then Some(table[key]) else None
  }

  function ThroughOf(existing: Option<StoredCheckpoint>): Option<Instant> {
    if existing.Some? then existing.value.completeThrough else None
  }

  /** What `validateProposal` lets through. */
  predicate ValidProposal(p: StoredCheckpoint) {
    && p.coverageKey != "" && p.symbol != "" && p.logicalDataVariant != ""
    && (forall i :: 0 <= i < |p.missingRanges| ==> p.missingRanges[i].start < p.missingRanges[i].end)
    && (p.completeThrough.Some? ==>
          forall i :: 0 <= i < |p.missingRanges| ==> p.completeThrough.value <= p.missingRanges[i].start)
  }

  predicate ValidVersion(expected: Option<int>) {
    expected.Some? ==> expected.value >= 0
  }

  /** `complete_through IS NULL OR (? IS NOT NULL AND ? >= complete_through)`. */
  predicate Monotone(row: StoredCheckpoint, p: StoredCheckpoint) {
    row.completeThrough.None?
    || (p.completeThrough.Some? && p.completeThrough.value >= row.completeThrough.value)
  }

  /** The row a single compare-and-set returns, `None` when it changes nothing. */
  function Returned(row: Option<StoredCheckpoint>, u: Update): Option<StoredCheckpoint> {
    match u.expectedVersion
    case None => if row.None? then Some(u.proposed.(version := 0)) else None
    case Some(v) =>
      if row.Some? && row.value.version == v && Monotone(row.value, u.proposed)
      then Some(u.proposed.(version := v + 1)) else None
  }

  function Outcome(row: Option<StoredCheckpoint>, u: Update): CompareAndSetOutcome {
    var r := Returned(row, u);
    if r.Some? then Updated(r.value) else VersionConflict
  }

  function After(row: Option<StoredCheckpoint>, u: Update): Option<StoredCheckpoint> {
    var r := Returned(row, u);
    if r.Some? then r else row
  }

  function Write(table: Table, key: string, row: Option<StoredCheckpoint>): Table {
    if row.Some? then table[key := row.value] else table
  }

  /** Independent compare-and-set calls, one after the other. */
  function OneByOne(table: Table, updates: seq<Update>): Table
    decreases updates
  {
    if updates == [] then table
    else OneByOne(Write(table, updates[0].Key(), Returned(Row(table, updates[0].Key()), updates[0])), updates[1..])
  }

  // What a compare-and-set means.

  /** The caller knows the row: it expects none and there is none, or it expects the version there is and its boundary
      does not fall behind the stored one. */
  predicate Fits(row: Option<StoredCheckpoint>, expected: Option<int>, p: StoredCheckpoint) {
    match row
    case None => expected.None?
    case Some(c) =>
      expected == Some(c.version)
      && (c.completeThrough.Some? ==> p.completeThrough.Some? && c.completeThrough.value <= p.completeThrough.value)
  }

  /** `c` is the whole proposal under the version that follows the row. */
  predicate Follows(row: Option<StoredCheckpoint>, p: StoredCheckpoint, c: StoredCheckpoint) {
    c == p.(version := c.version) && c.version == if row.Some? then row.value.version + 1 else 0
  }

  /** The outcome and the table after one update: the proposal stored as it was, or nothing changed. */
  predicate Settles(before: Table, u: Update, outcome: CompareAndSetOutcome, after: Option<StoredCheckpoint>) {
    var row := Row(before, u.Key());
    if Fits(row, u.expectedVersion, u.proposed)
    then after.Some? && Follows(row, u.proposed, after.value) && outcome == Updated(after.value)
    else after == row && outcome == VersionConflict
  }

  lemma ReturnedSettles(before: Table, u: Update)
    ensures Settles(before, u, Outcome(Row(before, u.Key()), u), After(Row(before, u.Key()), u))
    ensures Returned(Row(before, u.Key()), u).Some? <==> Fits(Row(before, u.Key()), u.expectedVersion, u.proposed)
  {
  }

  /** A proposal is valid when its names are not empty, no range of its ledger is empty, and nothing it calls missing
      lies behind its boundary. */
  lemma ValidMeansAhead(p: StoredCheckpoint)
    ensures ValidProposal(p) <==>
              && p.coverageKey != "" && p.symbol != "" && p.logicalDataVariant != ""
              && NonEmpty(p.missingRanges)
              && (p.completeThrough.Some? ==> forall x :: Covers(p.missingRanges, x) ==> p.completeThrough.value <= x)
  {
    if NonEmpty(p.missingRanges) && p.completeThrough.Some? {
      forall i | 0 <= i < |p.missingRanges| ensures Covers(p.missingRanges, p.missingRanges[i].start) {
      }
    }
  }

  // The bulk statement, evaluated the way SQLite runs it.

  /** The SELECT's WHERE clause, evaluated on the table before the statement. */
  predicate Selected(before: Table, u: Update) {
    u.expectedVersion.None? || (u.Key() in before && before[u.Key()].version == u.expectedVersion.value)
  }

  /** `SELECT expectedVersion FROM payload WHERE key = ?`: the first match decides. */
  function FirstExpected(updates: seq<Update>, key: string): Option<int> {
    if updates == [] then None
    else if updates[0].Key() == key then updates[0].expectedVersion
    else FirstExpected(updates[1..], key)
  }

  /** INSERT .. ON CONFLICT DO UPDATE .. WHERE for one selected row. */
  function Upserted(table: Table, payload: seq<Update>, u: Update): Option<StoredCheckpoint> {
    if u.Key() !in table then Some(u.proposed.(version := 0))
    else
      var row := table[u.Key()];
      if Monotone(row, u.proposed) && FirstExpected(payload, u.Key()) == Some(row.version)
      then Some(u.proposed.(version := row.version + 1)) else None
  }

  /** RETURNING and the table effect of the row for `u`. */
  function BulkReturned(before: Table, table: Table, payload: seq<Update>, u: Update): Option<StoredCheckpoint> {
    if Selected(before, u) then Upserted(table, payload, u) else None
  }

  ghost predicate DistinctKeys(updates: seq<Update>) {
    forall i, j :: 0 <= i < j < |updates| ==> updates[i].Key() != updates[j].Key()
  }

  function UpdateFor(updates: seq<Update>, key: string): Option<Update> {
    if updates == [] then None
    else if updates[0].Key() == key then Some(updates[0])
    else UpdateFor(updates[1..], key)
  }

  /** The row of every key after independent calls: only its own update matters. */
  lemma {:induction false} OneByOnePointwise(table: Table, updates: seq<Update>, key: string)
    requires DistinctKeys(updates)
    ensures Row(OneByOne(table, updates), key)
         == (var u := UpdateFor(updates, key);
             if u.Some? then After(Row(table, key), u.value) else Row(table, key))
    decreases updates
  {
    if updates != [] {
      var u := updates[0];
      OneByOnePointwise(Write(table, u.Key(), Returned(Row(table, u.Key()), u)), updates[1..], key);
      if u.Key() == key { UpdateForAbsent(updates[1..], key); }
    }
  }

  ghost predicate NotNamed(updates: seq<Update>, key: string) {
    forall i :: 0 <= i < |updates| ==> updates[i].Key() != key
  }

  lemma {:induction false} UpdateForAbsent(updates: seq<Update>, key: string)
    requires NotNamed(updates, key)
    ensures UpdateFor(updates, key) == None
  {
    if updates != [] { UpdateForAbsent(updates[1..], key); }
  }

  lemma {:induction false} UpdateForSpec(updates: seq<Update>, i: nat)
    requires DistinctKeys(updates) && i < |updates|
    ensures UpdateFor(updates, updates[i].Key()) == Some(updates[i])
    ensures FirstExpected(updates, updates[i].Key()) == updates[i].expectedVersion
  {
    if i > 0 { UpdateForSpec(updates[1..], i - 1); }
  }

  lemma {:induction false} UpdateForFound(updates: seq<Update>, key: string)
    requires UpdateFor(updates, key).Some?
    ensures exists i :: 0 <= i < |updates| && updates[i] == UpdateFor(updates, key).value && updates[i].Key() == key
  {
    if updates[0].Key() != key {
      UpdateForFound(updates[1..], key);
      var i :| 0 <= i < |updates[1..]| && updates[1..][i] == UpdateFor(updates, key).value
      && updates[1..][i].Key() == key;
      assert updates[i + 1] == updates[1..][i];
    }
  }

  lemma SameUpdateFor(a: seq<Update>, b: seq<Update>, key: string)
    requires DistinctKeys(a) && DistinctKeys(b) && multiset(a) == multiset(b)
    ensures UpdateFor(a, key) == UpdateFor(b, key)
  {
    if UpdateFor(a, key).Some? {
      UpdateForFound(a, key);
      var i :| 0 <= i < |a| && a[i] == UpdateFor(a, key).value;
      assert a[i] in multiset(a) && a[i] in b;
      var j :| 0 <= j < |b| && b[j] == a[i];
      UpdateForSpec(b, j);
    } else if UpdateFor(b, key).Some? {
      UpdateForFound(b, key);
      var j :| 0 <= j < |b| && b[j] == UpdateFor(b, key).value;
      assert b[j] in multiset(b) && b[j] in a;
      var i :| 0 <= i < |a| && a[i] == b[j];
      UpdateForSpec(a, i);
    }
  }

  /** Independent calls on distinct keys commute: any order leaves the same table. */
  lemma OrderIrrelevant(table: Table, a: seq<Update>, b: seq<Update>)
    requires DistinctKeys(a) && DistinctKeys(b) && multiset(a) == multiset(b)
    ensures OneByOne(table, a) == OneByOne(table, b)
  {
    var x, y := OneByOne(table, a), OneByOne(table, b);
    forall key ensures Row(x, key) == Row(y, key) {
      OneByOnePointwise(table, a, key);
      OneByOnePointwise(table, b, key);
      SameUpdateFor(a, b, key);
    }
    SameRows(x, y);
  }

  lemma SameRows(x: Table, y: Table)
    requires forall key :: Row(x, key) == Row(y, key)
    ensures x == y
  {
    forall key ensures key in x <==> key in y { assert Row(x, key) == Row(y, key); }
    forall key | key in x ensures x[key] == y[key] { assert Row(x, key) == Row(y, key); }
  }

  /** On distinct keys the bulk statement treats each payload row like an independent call. */
  lemma BulkRowIsCompareAndSet(before: Table, table: Table, payload: seq<Update>, i: nat)
    requires DistinctKeys(payload) && i < |payload|
    requires Row(table, payload[i].Key()) == Row(before, payload[i].Key())
    ensures BulkReturned(before, table, payload, payload[i]) == Returned(Row(before, payload[i].Key()), payload[i])
  {
    UpdateForSpec(payload, i);
  }

  predicate AllValid(updates: seq<Update>) {
    forall i :: 0 <= i < |updates| ==> ValidProposal(updates[i].proposed) && ValidVersion(updates[i].expectedVersion)
  }

  /** The RETURNING rows of the bulk statement after its first `i` payload rows. */
  ghost predicate ReturnedSoFar(before: Table, byKey: Table, updates: seq<Update>, i: nat)
    requires i <= |updates|
  {
    forall key :: Row(byKey, key) == ReturnedFor(before, updates[..i], key)
  }

  function ReturnedFor(before: Table, updates: seq<Update>, key: string): Option<StoredCheckpoint> {
    var u := UpdateFor(updates, key);
    if u.Some? then Returned(Row(before, key), u.value) else None
  }

  class D1CoverageCheckpointPort {
    var table: Table

    constructor ()
      ensures table == map[]
    {
      table := map[];
    }

    method Get(coverageKey: string) returns (row: Option<StoredCheckpoint>)
      ensures row == Row(table, coverageKey)
    {
      row := if coverageKey in table then Some(table[coverageKey]) else None;
    }

    method CompareAndSet(expectedVersion: Option<int>, proposed: StoredCheckpoint)
      returns (result: Result<CompareAndSetOutcome>)
      modifies this
      ensures result.Ok? <==> ValidProposal(proposed) && ValidVersion(expectedVersion)
      ensures result.Err? ==> table == old(table)
      ensures result.Ok? ==>
                var u := Update(expectedVersion, proposed);
                && result.value == Outcome(Row(old(table), u.Key()), u)
                && table == Write(old(table), u.Key(), Returned(Row(old(table), u.Key()), u))
      ensures result.Ok? ==>
                && Settles(old(table), Update(expectedVersion, proposed), result.value,
                           Row(table, proposed.coverageKey))
                && forall key :: key != proposed.coverageKey ==> Row(table, key) == Row(old(table), key)
      ensures result.Err? ==>
                result.error == if ValidProposal(proposed) then InvalidExpectedVersion else InvalidProposal
    {
      if !ValidProposal(proposed) { return Err(InvalidProposal); }
      var key := proposed.coverageKey;
      match expectedVersion {
        case None =>
          if key in table { return Ok(VersionConflict); }
          table := table[key := proposed.(version := 0)];
        case Some(v) =>
          if v < 0 { return Err(InvalidExpectedVersion); }
          if key !in table || table[key].version != v || !Monotone(table[key], proposed) {
            return Ok(VersionConflict);
          }
          table := table[key := proposed.(version := table[key].version + 1)];
      }
      result := Ok(Updated(table[key]));
    }

    /** One bulk statement.  On distinct keys it leaves the table and the outcomes that independent
        compare-and-set calls leave, in whatever order they are made. */
    method CompareAndSetMany(updates: seq<Update>) returns (result: Result<seq<CompareAndSetOutcome>>)
      requires DistinctKeys(updates)
      modifies this
      ensures result.Ok? <==> |updates| <= 500 && AllValid(updates)
      ensures result.Err? ==> table == old(table)
      ensures result.Ok? ==>
                && table == OneByOne(old(table), updates)
                && |result.value| == |updates|
                && forall i :: 0 <= i < |updates|
                     ==> result.value[i] == Outcome(Row(old(table), updates[i].Key()), updates[i])
      ensures result.Ok? ==>
                && (forall i :: 0 <= i < |updates|
                      ==> Settles(old(table), updates[i], result.value[i], Row(table, updates[i].Key())))
                && forall key :: NotNamed(updates, key) ==> Row(table, key) == Row(old(table), key)
      ensures result.Err? ==> result.error == if |updates| > 500 then TooManyKeys else InvalidProposal
      ensures result.Ok? ==> forall order :: DistinctKeys(order) && multiset(order) == multiset(updates)
                               ==> table == OneByOne(old(table), order)
    {
      if |updates| > 500 { return Err(TooManyKeys); }
      for i := 0 to |updates|
        invariant AllValid(updates[..i]) && table == old(table)
      {
        if !ValidProposal(updates[i].proposed) || !ValidVersion(updates[i].expectedVersion) {
          return Err(InvalidProposal);
        }
      }
      var before := table;
      var byKey: Table := map[];
      for i := 0 to |updates|
        invariant ReturnedSoFar(before, byKey, updates, i)
        invariant forall key :: Row(table, key) == (if key in byKey then Some(byKey[key]) else Row(before, key))
      {
        var u := updates[i];
        UpdateForAbsent(updates[..i], u.Key());
        assert Row(byKey, u.Key()) == None;
        BulkRowIsCompareAndSet(before, table, updates, i);
        var returned := BulkReturned(before, table, updates, u);
        ghost var byKey0 := byKey;
        if returned.Some? {
          table := table[u.Key() := returned.value];
          byKey := byKey[u.Key() := returned.value];
        }
        forall key ensures Row(byKey, key) == ReturnedFor(before, updates[..i + 1], key) {
          assert Row(byKey0, key) == ReturnedFor(before, updates[..i], key);
          UpdateForExtend(updates, i, key);
        }
      }
      assert updates[..|updates|] == updates;
      forall key ensures Row(table, key) == Row(OneByOne(before, updates), key) {
        OneByOnePointwise(before, updates, key);
        assert Row(byKey, key) == ReturnedFor(before, updates, key);
      }
      SameRows(table, OneByOne(before, updates));
      var outcomes: seq<CompareAndSetOutcome> := [];
      for i := 0 to |updates|
        invariant |outcomes| == i && table == OneByOne(before, updates)
        invariant forall k :: 0 <= k < i ==> outcomes[k] == Outcome(Row(before, updates[k].Key()), updates[k])
      {
        UpdateForSpec(updates, i);
        var key := updates[i].Key();
        assert Row(byKey, key) == ReturnedFor(before, updates, key);
        outcomes := outcomes + [if key in byKey then Updated(byKey[key]) else VersionConflict];
      }
      forall i | 0 <= i < |updates|
        ensures Settles(before, updates[i], outcomes[i], Row(table, updates[i].Key()))
      {
        UpdateForSpec(updates, i);
        OneByOnePointwise(before, updates, updates[i].Key());
        ReturnedSettles(before, updates[i]);
      }
      forall key | NotNamed(updates, key) ensures Row(table, key) == Row(before, key) {
        UpdateForAbsent(updates, key);
        OneByOnePointwise(before, updates, key);
      }
      forall order | DistinctKeys(order) && multiset(order) == multiset(updates)
        ensures OneByOne(before, updates) == OneByOne(before, order)
      {
        OrderIrrelevant(before, updates, order);
      }
      result := Ok(outcomes);
    }
  }

  lemma {:induction false} UpdateForExtend(updates: seq<Update>, i: nat, key: string)
    requires DistinctKeys(updates) && i < |updates|
    ensures UpdateFor(updates[..i + 1], key) == if key == updates[i].Key() then Some(updates[i])
                                                else UpdateFor(updates[..i], key)
    decreases i
  {
    if i > 0 {
      UpdateForExtend(updates[1..], i - 1, key);
      assert updates[..i + 1][1..] == updates[1..][..i] && updates[..i][1..] == updates[1..][..i - 1];
    }
  }
}
