/** The fact store: append-only records, supersession chains, and as-of views. */
module FactStore {
  import opened Market
  import opened Ordering

  datatype Kind = Fact | Evidence | Relationship | DerivedMetric | Interpretation

  datatype Provenance = Provenance(retrievedAt: Instant, availableAt: Instant, acceptedAt: Instant)

  /** `refs` are the evidence, target, input or basis ids of the record, by kind; `safe` is the verdict of the
      secret scan. */
  datatype Record = Record(id: string, kind: Kind, acceptedAt: Instant, supersedes: Option<string>,
                           provenance: Option<Provenance>, refs: seq<string>, asOf: Instant, safe: bool)

  /** What the record constructors enforce. */
  predicate WellMade(r: Record) {
    && r.supersedes != Some(r.id)
    && (r.kind == Fact || r.kind == Evidence ==> r.provenance.Some?)
    && (r.kind == DerivedMetric || r.kind == Interpretation ==> r.provenance.None?)
    && (r.provenance.Some? ==>
          var p := r.provenance.value;
          p.availableAt <= p.retrievedAt <= p.acceptedAt && p.acceptedAt == r.acceptedAt)
  }

  type Index = map<string, Record>

  function IndexOf(records: seq<Record>): Index {
    if records == [] then map[]
    else IndexOf(records[..|records| - 1])[records[|records| - 1].id := records[|records| - 1]]
  }

  ghost predicate UniqueIds(records: seq<Record>) {
    forall i, j :: 0 <= i < j < |records| ==> records[i].id != records[j].id
  }

  /** Every record is filed under its own id. */
  ghost predicate Filed(byId: Index) {
    forall id :: id in byId ==> byId[id].id == id
  }

  /** The predecessor a record names, if it is in the store. */
  function Predecessor(byId: Index, r: Record): Option<Record> {
    if r.supersedes.Some? && r.supersedes.value in byId then Some(byId[r.supersedes.value]) else None
  }

  /** The walk of the supersession chain: it fails on a record it has visited. */
  predicate Walk(byId: Index, cursor: Option<Record>, visited: set<string>)
    requires Filed(byId) && (cursor.Some? ==> cursor.value.id in byId)
    decreases |byId.Keys - visited|
  {
    cursor.Some? ==>
      && cursor.value.id !in visited
      && (VisitShrinks(byId, visited, cursor.value.id);
          Walk(byId, Predecessor(byId, cursor.value), visited + {cursor.value.id}))
  }

  lemma VisitShrinks(byId: Index, visited: set<string>, id: string)
    requires id in byId && id !in visited
    ensures |byId.Keys - (visited + {id})| < |byId.Keys - visited|
  {
    assert byId.Keys - visited == (byId.Keys - (visited + {id})) + {id};
  }

  /** The reference rules, by kind. */
  predicate RefsResolve(byId: Index, r: Record) {
    match r.kind
    case Fact => Reciprocal(byId, r)
    case Relationship => Reciprocal(byId, r)
    case Evidence => forall id :: id in r.refs ==> id in byId && byId[id].kind != Evidence
    case _ => forall id :: id in r.refs ==> id in byId
  }

  predicate Reciprocal(byId: Index, r: Record) {
    forall id :: id in r.refs ==> id in byId && byId[id].kind == Evidence && r.id in byId[id].refs
  }

  /** A superseded record exists, is of the same kind, and was not accepted later. */
  predicate LinkOk(byId: Index, r: Record) {
    r.supersedes.Some? ==>
      r.supersedes.value in byId && byId[r.supersedes.value].kind == r.kind
      && byId[r.supersedes.value].acceptedAt <= r.acceptedAt
  }

  predicate RecordOk(byId: Index, r: Record)
    requires Filed(byId)
  {
    LinkOk(byId, r) && Walk(byId, Predecessor(byId, r), {r.id}) && RefsResolve(byId, r)
  }

  ghost predicate Accepted(records: seq<Record>) {
    UniqueIds(records) && (forall i :: 0 <= i < |records| ==> records[i].safe)
    && Filed(IndexOf(records)) && forall i :: 0 <= i < |records| ==> RecordOk(IndexOf(records), records[i])
  }

  lemma {:induction false} IndexHolds(records: seq<Record>)
    ensures Filed(IndexOf(records))
    ensures forall id :: id in IndexOf(records) ==> IndexOf(records)[id] in records
  {
    if records != [] {
      var n := |records| - 1;
      IndexHolds(records[..n]);
      assert records == records[..n] + [records[n]];
    }
  }

  lemma {:induction false} IndexFinds(records: seq<Record>, i: nat)
    requires i < |records|
    ensures records[i].id in IndexOf(records)
    ensures UniqueIds(records) ==> IndexOf(records)[records[i].id] == records[i]
  {
    var n := |records| - 1;
    if i < n {
      assert records[..n][i] == records[i];
      IndexFinds(records[..n], i);
    }
  }

  lemma IndexSpec(records: seq<Record>)
    ensures Filed(IndexOf(records))
    ensures forall id :: id in IndexOf(records) ==> IndexOf(records)[id] in records
    ensures forall i :: 0 <= i < |records| ==> records[i].id in IndexOf(records)
    ensures UniqueIds(records) ==> forall i :: 0 <= i < |records| ==> IndexOf(records)[records[i].id] == records[i]
  {
    IndexHolds(records);
    forall i | 0 <= i < |records|
      ensures records[i].id in IndexOf(records)
      ensures UniqueIds(records) ==> IndexOf(records)[records[i].id] == records[i]
    {
      IndexFinds(records, i);
    }
  }

  /** The inner loop: follow predecessors, remembering what was visited. */
  method FollowChain(byId: Index, record: Record) returns (ok: bool)
    requires Filed(byId)
    ensures ok == Walk(byId, Predecessor(byId, record), {record.id})
  {
    var visited := {record.id};
    var cursor := Predecessor(byId, record);
    while cursor.Some?
      invariant cursor.Some? ==> cursor.value.id in byId
      invariant Walk(byId, Predecessor(byId, record), {record.id}) == Walk(byId, cursor, visited)
      decreases |byId.Keys - visited|, cursor.Some?
    {
      if cursor.value.id in visited { return false; }
      VisitShrinks(byId, visited, cursor.value.id);
      visited := visited + {cursor.value.id};
      cursor := Predecessor(byId, cursor.value);
    }
    ok := true;
  }

  /** One more record keeps the ids unique exactly when it is not in the index yet. */
  lemma NextIsUnique(records: seq<Record>, i: nat)
    requires i < |records| && UniqueIds(records[..i])
    ensures UniqueIds(records[..i + 1]) <==> records[i].id !in IndexOf(records[..i])
    ensures records[i].id in IndexOf(records[..i]) ==> !UniqueIds(records)
  {
    var front, more := records[..i], records[..i + 1];
    IndexSpec(front);
    assert more[i] == records[i] && forall k :: 0 <= k < i ==> more[k] == front[k] == records[k];
    if records[i].id in IndexOf(front) {
      var k :| 0 <= k < i && front[k] == IndexOf(front)[records[i].id];
      assert more[k].id == more[i].id && records[k].id == records[i].id;
    } else {
      forall k | 0 <= k < i ensures more[k].id != more[i].id { assert front[k].id in IndexOf(front); }
    }
  }

  method IndexRecords(records: seq<Record>) returns (ok: bool, byId: Index)
    ensures ok <==> UniqueIds(records) && forall i :: 0 <= i < |records| ==> records[i].safe
    ensures ok ==> byId == IndexOf(records)
  {
    byId := map[];
    for i := 0 to |records|
      invariant byId == IndexOf(records[..i])
      invariant UniqueIds(records[..i]) && forall k :: 0 <= k < i ==> records[k].safe
    {
      NextIsUnique(records, i);
      if records[i].id in byId || !records[i].safe {
        return false, byId;
      }
      assert records[..i + 1][..i] == records[..i];
      byId := byId[records[i].id := records[i]];
    }
    assert records[..|records|] == records;
    ok := true;
  }

  /** Validation: index the records, then check links, chains and references one record at a time. */
  method ValidateFactStore(records: seq<Record>) returns (ok: bool)
    ensures ok <==> Accepted(records)
  {
    IndexSpec(records);
    var unique, byId := IndexRecords(records);
    if !unique { return false; }
    for i := 0 to |records|
      invariant forall k :: 0 <= k < i ==> RecordOk(byId, records[k])
    {
      var r := records[i];
      if !LinkOk(byId, r) { return false; }
      var acyclic := FollowChain(byId, r);
      if !acyclic || !RefsResolve(byId, r) { return false; }
    }
    ok := true;
  }

  // Acceptance means a forest.

  /** Strictly falling along every supersession link: no chain can come back. */
  ghost predicate Falls(byId: Index, depth: map<string, nat>) {
    depth.Keys == byId.Keys
    && forall id :: id in byId && Predecessor(byId, byId[id]).Some? && byId[id].supersedes.value in depth
         ==> depth[byId[id].supersedes.value] < depth[id]
  }

  /** The length of the chain below a record whose walk succeeds. */
  function Depth(byId: Index, r: Record, visited: set<string>): nat
    requires Filed(byId) && r.id in byId && Walk(byId, Some(r), visited)
    decreases |byId.Keys - visited|
  {
    var p := Predecessor(byId, r);
    if p.None? then 0
    else
      VisitShrinks(byId, visited, r.id);
      1 + Depth(byId, p.value, visited + {r.id})
  }

  lemma {:induction false} FewerVisited(byId: Index, cursor: Option<Record>, visited: set<string>, fewer: set<string>)
    requires Filed(byId) && (cursor.Some? ==> cursor.value.id in byId)
    requires Walk(byId, cursor, visited) && fewer <= visited
    ensures Walk(byId, cursor, fewer)
    ensures cursor.Some? ==> Depth(byId, cursor.value, fewer) == Depth(byId, cursor.value, visited)
    decreases |byId.Keys - visited|
  {
    if cursor.Some? {
      VisitShrinks(byId, visited, cursor.value.id);
      FewerVisited(byId, Predecessor(byId, cursor.value), visited + {cursor.value.id}, fewer + {cursor.value.id});
    }
  }

  /** A depth that falls along every link keeps every walk away from what it has visited. */
  lemma {:induction false} FallingWalks(byId: Index, depth: map<string, nat>, cursor: Option<Record>,
                                        visited: set<string>)
    requires Filed(byId) && Falls(byId, depth)
             && (cursor.Some? ==> cursor.value.id in byId && cursor.value == byId[cursor.value.id])
    requires cursor.Some? ==> forall id :: id in visited && id in depth ==> depth[cursor.value.id] < depth[id]
    ensures Walk(byId, cursor, visited)
    decreases |byId.Keys - visited|
  {
    if cursor.Some? {
      var id := cursor.value.id;
      VisitShrinks(byId, visited, id);
      FallingWalks(byId, depth, Predecessor(byId, cursor.value), visited + {id});
    }
  }

  lemma WalksGiveDepth(byId: Index) returns (depth: map<string, nat>)
    requires Filed(byId) && forall id :: id in byId ==> Walk(byId, Predecessor(byId, byId[id]), {id})
    ensures Falls(byId, depth)
  {
    forall id | id in byId ensures Walk(byId, Some(byId[id]), {}) {
      assert {} + {id} == {id};
    }
    depth := map id | id in byId :: Depth(byId, byId[id], {});
    forall id | id in byId && Predecessor(byId, byId[id]).Some?
      ensures depth[byId[id].supersedes.value] < depth[id]
    {
      var p := Predecessor(byId, byId[id]).value;
      assert {} + {id} == {id};
      FewerVisited(byId, Some(p), {id}, {});
    }
  }

  // The rules, told by the records alone.

  /** The record a record supersedes is in the store, is of the same kind, and was not accepted later. */
  ghost predicate Supersedes(records: seq<Record>, r: Record) {
    r.supersedes.Some? ==>
      exists p :: p in records && r.supersedes == Some(p.id) && p.kind == r.kind && p.acceptedAt <= r.acceptedAt
  }

  /** A fact or relationship refers to evidence that refers back; evidence to records that are not evidence; a derived
      metric or an interpretation to any records: always to records of the store. */
  ghost predicate Refers(records: seq<Record>, r: Record, id: string) {
    exists o :: o in records && o.id == id
      && (r.kind == Fact || r.kind == Relationship ==> o.kind == Evidence && r.id in o.refs)
      && (r.kind == Evidence ==> o.kind != Evidence)
  }

  /** Some depth falls strictly along every supersession link. */
  ghost predicate Forest(records: seq<Record>, depth: map<string, nat>) {
    && (forall r :: r in records ==> r.id in depth)
    && (forall r, p :: r in records && p in records && r.supersedes == Some(p.id) ==> depth[p.id] < depth[r.id])
  }

  ghost predicate WellLinked(records: seq<Record>) {
    && (forall r :: r in records ==> r.safe && Supersedes(records, r))
    && (forall r, id :: r in records && id in r.refs ==> Refers(records, r, id))
    && exists depth :: Forest(records, depth)
  }

  lemma LinkRule(records: seq<Record>, r: Record)
    requires UniqueIds(records)
    ensures LinkOk(IndexOf(records), r) <==> Supersedes(records, r)
  {
    Indexed(records);
  }

  lemma RefsRule(records: seq<Record>, r: Record)
    requires UniqueIds(records)
    ensures RefsResolve(IndexOf(records), r) <==> forall id :: id in r.refs ==> Refers(records, r, id)
  {
    Indexed(records);
  }

  lemma Indexed(records: seq<Record>)
    requires UniqueIds(records)
    ensures forall o :: o in records ==> o.id in IndexOf(records) && IndexOf(records)[o.id] == o
    ensures forall id :: id in IndexOf(records) ==> IndexOf(records)[id] in records && IndexOf(records)[id].id == id
  {
    IndexSpec(records);
    forall o | o in records ensures o.id in IndexOf(records) && IndexOf(records)[o.id] == o {
      var i :| 0 <= i < |records| && records[i] == o;
    }
  }

  lemma FallsInForest(records: seq<Record>, depth: map<string, nat>)
    requires UniqueIds(records) && Falls(IndexOf(records), depth)
    ensures Forest(records, depth)
  {
    Indexed(records);
  }

  lemma ForestFalls(records: seq<Record>, depth: map<string, nat>) returns (own: map<string, nat>)
    requires UniqueIds(records) && Forest(records, depth)
    ensures Falls(IndexOf(records), own)
  {
    var byId := IndexOf(records);
    Indexed(records);
    own := map id | id in byId && id in depth :: depth[id];
    forall id | id in byId ensures id in own {
      assert byId[id] in records;
    }
    forall id | id in byId && Predecessor(byId, byId[id]).Some? ensures own[byId[id].supersedes.value] < own[id] {
      var r, p := byId[id], Predecessor(byId, byId[id]).value;
      assert r in records && p in records && r.supersedes == Some(p.id);
    }
  }

  /** A store is accepted if and only if ids are unique, contents safe, references and links in order, and the
      supersession links form a forest. */
  lemma AcceptedIffForest(records: seq<Record>)
    ensures Accepted(records) <==> UniqueIds(records) && WellLinked(records)
  {
    IndexedForest(records);
    var byId := IndexOf(records);
    if Accepted(records) {
      forall r | r in records
        ensures r.safe && Supersedes(records, r) && forall id :: id in r.refs ==> Refers(records, r, id)
      {
        var i :| 0 <= i < |records| && records[i] == r;
        LinkRule(records, records[i]);
        RefsRule(records, records[i]);
      }
      var depth :| Falls(byId, depth);
      FallsInForest(records, depth);
    }
    if UniqueIds(records) && WellLinked(records) {
      forall i | 0 <= i < |records|
        ensures records[i].safe && LinkOk(byId, records[i]) && RefsResolve(byId, records[i])
      {
        assert records[i] in records;
        LinkRule(records, records[i]);
        RefsRule(records, records[i]);
      }
      var depth :| Forest(records, depth);
      var own := ForestFalls(records, depth);
    }
  }

  /** The same, over the index the validator builds. */
  lemma IndexedForest(records: seq<Record>)
    ensures var byId := IndexOf(records);
            Accepted(records) <==>
              && UniqueIds(records) && (forall i :: 0 <= i < |records| ==> records[i].safe)
              && (forall i :: 0 <= i < |records| ==> LinkOk(byId, records[i]) && RefsResolve(byId, records[i]))
              && exists depth :: Falls(byId, depth)
  {
    var byId := IndexOf(records);
    IndexSpec(records);
    if Accepted(records) {
      forall id | id in byId ensures Walk(byId, Predecessor(byId, byId[id]), {id}) {
        var i :| 0 <= i < |records| && records[i] == byId[id];
        assert RecordOk(byId, records[i]);
      }
      var depth := WalksGiveDepth(byId);
    }
    if UniqueIds(records) && exists depth :: Falls(byId, depth) {
      var depth :| Falls(byId, depth);
      forall i | 0 <= i < |records| ensures Walk(byId, Predecessor(byId, records[i]), {records[i].id}) {
        assert records[i].id in byId && byId[records[i].id] == records[i];
        FallingWalks(byId, depth, Predecessor(byId, records[i]), {records[i].id});
      }
    }
  }

  /** The `n`-th predecessor. */
  function Ancestor(byId: Index, r: Record, n: nat): Option<Record>
    decreases n
  {
    if n == 0 then Some(r)
    else
      var p := Predecessor(byId, r);
      if p.None? then None else Ancestor(byId, p.value, n - 1)
  }

  lemma {:induction false} AncestorFalls(records: seq<Record>, depth: map<string, nat>, r: Record, n: nat)
    requires Accepted(records) && r in records && Falls(IndexOf(records), depth)
    requires Ancestor(IndexOf(records), r, n).Some?
    ensures var a := Ancestor(IndexOf(records), r, n).value;
            && a in records && a.kind == r.kind && a.acceptedAt <= r.acceptedAt
            && a.id in depth && r.id in depth && depth[a.id] + n <= depth[r.id]
    decreases n
  {
    var byId := IndexOf(records);
    IndexSpec(records);
    var i :| 0 <= i < |records| && records[i] == r;
    assert RecordOk(byId, records[i]);
    if n > 0 { AncestorFalls(records, depth, Predecessor(byId, r).value, n - 1); }
  }

  /** In an accepted store every chain of predecessors ends, stays within one record type, never goes forward
      in acceptance time, and never comes back to where it started, even among equal times. */
  lemma ChainsAreHistory(records: seq<Record>, r: Record) returns (length: nat)
    requires Accepted(records) && r in records
    ensures forall n: nat :: n > length ==> Ancestor(IndexOf(records), r, n).None?
    ensures forall n: nat, a :: Ancestor(IndexOf(records), r, n) == Some(a) ==>
              a in records && a.kind == r.kind && a.acceptedAt <= r.acceptedAt && (n > 0 ==> a.id != r.id)
  {
    IndexedForest(records);
    var depth :| Falls(IndexOf(records), depth);
    AncestorFalls(records, depth, r, 0);
    length := depth[r.id];
    forall n: nat, a | Ancestor(IndexOf(records), r, n) == Some(a)
      ensures n <= length && a in records && a.kind == r.kind && a.acceptedAt <= r.acceptedAt
              && (n > 0 ==> a.id != r.id)
    {
      AncestorFalls(records, depth, r, n);
    }
  }

  // As-of views.

  predicate Visible(r: Record, cutoff: Instant) {
    && r.acceptedAt <= cutoff
    && (r.provenance.Some? ==> r.provenance.value.availableAt <= cutoff)
    && (r.kind == DerivedMetric ==> r.asOf <= cutoff)
  }

  function View(records: seq<Record>, cutoff: Instant): seq<Record> {
    if records == [] then []
    else View(records[..|records| - 1], cutoff)
         + (if Visible(records[|records| - 1], cutoff) then [records[|records| - 1]] else [])
  }

  /** The sort key: acceptance time, then id. */
  predicate AcceptedBefore(a: Record, b: Record) {
    a.acceptedAt < b.acceptedAt || (a.acceptedAt == b.acceptedAt && TextLeq(a.id, b.id))
  }

  lemma AcceptanceOrder()
    ensures TotalPreorder(AcceptedBefore)
  {
    TextOrder();
    forall a, b ensures AcceptedBefore(a, b) || AcceptedBefore(b, a) {
      assert TextLeq(a.id, b.id) || TextLeq(b.id, a.id);
    }
    forall a, b, c | AcceptedBefore(a, b) && AcceptedBefore(b, c) ensures AcceptedBefore(a, c) {
      if TextLeq(a.id, b.id) && TextLeq(b.id, c.id) { TextTransitive(a.id, b.id, c.id); }
    }
  }

  /** The loop over the records of a validated store, and the final sort; `None` when validation fails. */
  method RecordsAvailableAsOf(records: seq<Record>, cutoff: Instant) returns (visible: Option<seq<Record>>)
    ensures visible.Some? <==> Accepted(records)
    ensures visible.Some? ==>
              && SortedBy(AcceptedBefore, visible.value)
              && multiset(visible.value) == multiset(View(records, cutoff))
    ensures visible.Some? ==>
              forall i, j :: 0 <= i < j < |visible.value| ==>
                var a, b := visible.value[i], visible.value[j];
                a.acceptedAt <= b.acceptedAt && (a.acceptedAt == b.acceptedAt ==> TextLeq(a.id, b.id))
    ensures visible.Some? ==>
              forall r :: r in visible.value <==>
                r in records && r.acceptedAt <= cutoff
                && (r.provenance.Some? ==> r.provenance.value.availableAt <= cutoff)
                && (r.kind == DerivedMetric ==> r.asOf <= cutoff)
  {
    var ok := ValidateFactStore(records);
    if !ok { return None; }
    var found: seq<Record> := [];
    for i := 0 to |records|
      invariant found == View(records[..i], cutoff)
    {
      assert records[..i + 1][..i] == records[..i];
      if records[i].acceptedAt > cutoff { continue; }
      if records[i].provenance.Some? && records[i].provenance.value.availableAt > cutoff { continue; }
      if records[i].kind == DerivedMetric && records[i].asOf > cutoff { continue; }
      found := found + [records[i]];
    }
    assert records[..|records|] == records;
    AcceptanceOrder();
    SortOrders(AcceptedBefore, found);
    SortKeeps(AcceptedBefore, found);
    ViewSpec(records, cutoff);
    visible := Some(SortBy(AcceptedBefore, found));
  }

  lemma {:induction false} ViewSpec(records: seq<Record>, cutoff: Instant)
    ensures forall r :: r in View(records, cutoff) <==> r in records && Visible(r, cutoff)
  {
    if records != [] {
      ViewSpec(records[..|records| - 1], cutoff);
      assert records == records[..|records| - 1] + [records[|records| - 1]];
    }
  }

  /** Views only grow with the cutoff. */
  lemma ViewsGrow(records: seq<Record>, early: Instant, late: Instant)
    requires early <= late
    ensures forall r :: r in View(records, early) ==> r in View(records, late)
  {
    ViewSpec(records, early);
    ViewSpec(records, late);
  }

  /** For records as constructed the provenance filter never removes anything acceptance time lets through. */
  lemma AcceptanceDecides(r: Record, cutoff: Instant)
    requires WellMade(r)
    ensures Visible(r, cutoff) <==> r.acceptedAt <= cutoff && (r.kind == DerivedMetric ==> r.asOf <= cutoff)
  {
  }

  /** A view contains the whole history of every record in it: always outside derived metrics, and for a
      derived metric exactly those ancestors whose own as-of instant is not after the cutoff. */
  lemma ViewHoldsHistory(records: seq<Record>, cutoff: Instant, r: Record, n: nat, a: Record)
    requires Accepted(records) && (forall x :: x in records ==> WellMade(x))
    requires r in View(records, cutoff) && Ancestor(IndexOf(records), r, n) == Some(a)
    ensures a in View(records, cutoff) <==> r.kind != DerivedMetric || a.asOf <= cutoff
  {
    ViewSpec(records, cutoff);
    var _ := ChainsAreHistory(records, r);
    assert a in records && a.kind == r.kind && a.acceptedAt <= r.acceptedAt;
    AcceptanceDecides(a, cutoff);
    AcceptanceDecides(r, cutoff);
  }

  /** A view with a derived metric but without the metric it supersedes. */
  lemma DerivedHistoryCanBeHidden()
    ensures var first := Record("a", DerivedMetric, 1, None, None, [], 9, true);
            var second := Record("b", DerivedMetric, 2, Some("a"), None, [], 3, true);
            Accepted([first, second]) && WellMade(first) && WellMade(second)
            && second in View([first, second], 5) && first !in View([first, second], 5)
  {
    var first := Record("a", DerivedMetric, 1, None, None, [], 9, true);
    var second := Record("b", DerivedMetric, 2, Some("a"), None, [], 3, true);
    var records := [first, second];
    IndexSpec(records);
    ViewSpec(records, 5);
    var byId := IndexOf(records);
    assert records[0].id in byId && records[1].id in byId;
    assert byId["a"] == first && byId["b"] == second;
    assert Walk(byId, None, {"b", "a"});
    assert {"b"} + {"a"} == {"b", "a"};
    assert Walk(byId, Some(first), {"b"});
    assert RecordOk(byId, records[0]) && RecordOk(byId, records[1]);
  }
}
