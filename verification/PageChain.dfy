/** The provider-neutral page contract, the collection of a cursor chain, and resuming it from a checkpoint. */
module PageChain {
  import opened Market
  import opened Rules

  /** Instants and delays of these contracts are whole microseconds, the resolution of Python's `datetime`. */
  type Moment = int

  datatype Violation =
    | BadWindow | BadPageSize | TooManyItems | AvailableAfterRetrieved | UnmarkedError | ErrorAdvancesCursor
    | BadRetryAfter | PartialWithoutError | CursorDidNotAdvance | UnsafeContent
    | BadMaxPages | CursorLoop | TooManyPages | AdapterFailed
    | BadKey | BadCursor | BadRecord | InvalidCheckpoint | NothingToResume

  datatype Outcome<+T> = Good(value: T) | Bad(violation: Violation)

  datatype Request = Request(sourceKey: string, windowStart: Moment, windowEnd: Moment, cursor: Option<string>,
                             pageSize: int)

  datatype ErrorInfo = ErrorInfo(category: string, retryable: bool, retryAfter: Option<int>)

  /** `safe` says whether every item passes its own contract and the secret scan. */
  datatype Page = Page(items: seq<string>, nextCursor: Option<string>, partial: bool, retrievedAt: Moment,
                       availableAt: Moment,
                       error: Option<ErrorInfo>, safe: bool)
  {
    predicate Final() { error.Some? || nextCursor.None? }
  }

  /** A deterministic adapter: one answer, or an exception, for every request. */
  type Adapter = Request -> Option<Page>

  /** At most 24 hours. */
  predicate RetryBounded(retryAfter: Option<int>) {
    retryAfter.Some? ==> 0 <= retryAfter.value <= 86_400_000_000
  }

  /** `assert_page_contract`. */
  function PageFault(page: Page, request: Request): Option<Violation> {
    if request.windowStart >= request.windowEnd then Some(BadWindow)
    else if !(1 <= request.pageSize <= 10_000) then Some(BadPageSize)
    else if |page.items| > request.pageSize then Some(TooManyItems)
    else if page.availableAt > page.retrievedAt then Some(AvailableAfterRetrieved)
    else if page.error.Some? && !page.partial && page.items != [] then Some(UnmarkedError)
    else if page.error.Some? && page.nextCursor.Some? then Some(ErrorAdvancesCursor)
    else if page.error.Some? && !RetryBounded(page.error.value.retryAfter) then Some(BadRetryAfter)
    else if page.partial && page.error.None? then Some(PartialWithoutError)
    else if page.nextCursor.Some? && page.nextCursor == request.cursor then Some(CursorDidNotAdvance)
    else if !page.safe then Some(UnsafeContent)
    else None
  }

  function RulePlace(rule: Violation): int {
    match rule
    case BadWindow => 0
    case BadPageSize => 1
    case TooManyItems => 2
    case AvailableAfterRetrieved => 3
    case UnmarkedError => 4
    case ErrorAdvancesCursor => 5
    case BadRetryAfter => 6
    case PartialWithoutError => 7
    case CursorDidNotAdvance => 8
    case _ => 9
  }

  /** The page, or the request it answers, breaks the rule. */
  predicate PageBreaks(page: Page, request: Request, rule: Violation) {
    match rule
    case BadWindow => request.windowEnd <= request.windowStart
    case BadPageSize => request.pageSize < 1 || 10_000 < request.pageSize
    case TooManyItems => request.pageSize < |page.items|
    case AvailableAfterRetrieved => page.retrievedAt < page.availableAt
    case UnmarkedError => page.error != None && |page.items| > 0 && !page.partial
    case ErrorAdvancesCursor => page.error != None && page.nextCursor != None
    case BadRetryAfter =>
      page.error.Some? && page.error.value.retryAfter.Some?
      && (page.error.value.retryAfter.value < 0 || 24 * 60 * 60 * 1_000_000 < page.error.value.retryAfter.value)
    case PartialWithoutError => page.partial && page.error == None
    case CursorDidNotAdvance => page.nextCursor != None && request.cursor == page.nextCursor
    case UnsafeContent => !page.safe
    case _ => false
  }

  /** A page is refused for the first rule it breaks. */
  lemma PageFaultIsFirst(page: Page, request: Request)
    ensures FirstBroken(RulePlace, (rule: Violation) => PageBreaks(page, request, rule), PageFault(page, request))
  {
  }

  // Collecting a chain.

  function Next(request: Request, page: Page): Request { request.(cursor := page.nextCursor) }

  function Collected(adapter: Adapter, request: Request, seen: set<Option<string>>, left: nat): (r: Outcome<seq<Page>>)
    ensures r.Good? ==> 1 <= |r.value| <= left
    decreases left
  {
    if left == 0 then Bad(TooManyPages)
    else if request.cursor in seen then Bad(CursorLoop)
    else
      var page := adapter(request);
      if page.None? then Bad(AdapterFailed)
      else if PageFault(page.value, request).Some? then Bad(PageFault(page.value, request).value)
      else if page.value.Final() then Good([page.value])
      else Prefixed([page.value], Collected(adapter, Next(request, page.value), seen + {request.cursor}, left - 1))
  }

  function Prefixed(pages: seq<Page>, rest: Outcome<seq<Page>>): Outcome<seq<Page>> {
    if rest.Bad? then rest else Good(pages + rest.value)
  }

  function CollectedWithin(adapter: Adapter, request: Request, maxPages: int): Outcome<seq<Page>> {
    if maxPages < 1 then Bad(BadMaxPages) else Collected(adapter, request, {}, maxPages)
  }

  lemma Joined(pages: seq<Page>, page: Page, rest: Outcome<seq<Page>>)
    ensures Prefixed(pages, Prefixed([page], rest)) == Prefixed(pages + [page], rest)
  {
    if rest.Good? { assert pages + ([page] + rest.value) == pages + [page] + rest.value; }
  }

  /** The collection loop: a growing list of pages, the cursors seen, and the current request. */
  method CollectPages(adapter: Adapter, request: Request, maxPages: int) returns (result: Outcome<seq<Page>>)
    ensures result == CollectedWithin(adapter, request, maxPages)
    ensures result.Good? ==> 1 <= |result.value| <= maxPages && result.value[|result.value| - 1].Final()
    ensures result.Good? ==> forall i :: 0 <= i < |result.value| - 1 ==> !result.value[i].Final()
  {
    if maxPages < 1 { return Bad(BadMaxPages); }
    var pages: seq<Page> := [];
    var seenCursors: set<Option<string>> := {};
    var current := request;
    ghost var rest := Collected(adapter, request, {}, maxPages);
    assert rest.Good? ==> pages + rest.value == rest.value;
    for i := 0 to maxPages
      invariant |pages| == i
      invariant forall k :: 0 <= k < i ==> !pages[k].Final()
      invariant rest == Collected(adapter, current, seenCursors, maxPages - i)
      invariant Collected(adapter, request, {}, maxPages) == Prefixed(pages, rest)
    {
      if current.cursor in seenCursors { return Bad(CursorLoop); }
      var fetched := adapter(current);
      if fetched.None? { return Bad(AdapterFailed); }
      var page := fetched.value;
      var fault := PageFault(page, current);
      if fault.Some? { return Bad(fault.value); }
      if page.Final() { return Good(pages + [page]); }
      seenCursors := seenCursors + {current.cursor};
      current := Next(current, page);
      ghost var later := Collected(adapter, current, seenCursors, maxPages - i - 1);
      Joined(pages, page, later);
      pages, rest := pages + [page], later;
    }
    result := Bad(TooManyPages);
  }

  /** The request behind page `k` of a chain. */
  function RequestAt(request: Request, pages: seq<Page>, k: nat): Request
    requires k <= |pages|
  {
    if k == 0 then request else Next(RequestAt(request, pages, k - 1), pages[k - 1])
  }

  lemma {:induction false} RequestAtTail(request: Request, pages: seq<Page>, k: nat)
    requires 1 <= k <= |pages|
    ensures RequestAt(request, pages, k) == RequestAt(Next(request, pages[0]), pages[1..], k - 1)
  {
    if k > 1 { RequestAtTail(request, pages, k - 1); }
  }

  /** Having seen fewer cursors, and with room for the pages, the same chain is collected. */
  lemma {:induction false} FewerSeen(adapter: Adapter, request: Request, seen: set<Option<string>>, left: nat,
                                     fewer: set<Option<string>>, room: nat)
    requires Collected(adapter, request, seen, left).Good? && fewer <= seen
    requires |Collected(adapter, request, seen, left).value| <= room
    ensures Collected(adapter, request, fewer, room) == Collected(adapter, request, seen, left)
    decreases left
  {
    var page := adapter(request).value;
    if !page.Final() {
      FewerSeen(adapter, Next(request, page), seen + {request.cursor}, left - 1, fewer + {request.cursor}, room - 1);
    }
  }

  /** Collecting again from the request behind page `k` gives exactly the pages from `k` on. */
  lemma {:induction false} TailCollected(adapter: Adapter, request: Request, seen: set<Option<string>>, left: nat,
                                         k: nat, room: nat)
    requires Collected(adapter, request, seen, left).Good?
    requires k < |Collected(adapter, request, seen, left).value| <= k + room
    ensures var pages := Collected(adapter, request, seen, left).value;
            Collected(adapter, RequestAt(request, pages, k), {}, room) == Good(pages[k..])
    decreases left
  {
    var pages := Collected(adapter, request, seen, left).value;
    if k == 0 {
      FewerSeen(adapter, request, seen, left, {}, room);
    } else {
      var page := adapter(request).value;
      var rest := Collected(adapter, Next(request, page), seen + {request.cursor}, left - 1);
      assert pages == [page] + rest.value;
      TailCollected(adapter, Next(request, page), seen + {request.cursor}, left - 1, k - 1, room);
      RequestAtTail(request, pages, k);
      assert pages[1..] == rest.value && pages[k..] == rest.value[k - 1..];
    }
  }

  /** Every page of a collected chain is what the adapter returned to its request, within the contract, and
      no request used a cursor seen before. */
  lemma {:induction false} CollectedSpec(adapter: Adapter, request: Request, seen: set<Option<string>>, left: nat,
                                         k: nat)
    requires Collected(adapter, request, seen, left).Good? && k < |Collected(adapter, request, seen, left).value|
    ensures var pages := Collected(adapter, request, seen, left).value;
            var at := RequestAt(request, pages, k);
            && |pages| <= left && adapter(at) == Some(pages[k]) && PageFault(pages[k], at).None?
            && (pages[k].Final() <==> k == |pages| - 1)
            && at.cursor !in seen
            && forall j :: 0 <= j < k ==> RequestAt(request, pages, j).cursor != at.cursor
    decreases left
  {
    var pages := Collected(adapter, request, seen, left).value;
    if k > 0 {
      var page := adapter(request).value;
      var next, more := Next(request, page), seen + {request.cursor};
      var rest := Collected(adapter, next, more, left - 1);
      assert pages == [page] + rest.value && pages[1..] == rest.value;
      assert request.cursor in more;
      CollectedSpec(adapter, next, more, left - 1, k - 1);
      RequestAtTail(request, pages, k);
      forall j | 0 < j < k ensures RequestAt(request, pages, j).cursor != RequestAt(request, pages, k).cursor {
        RequestAtTail(request, pages, j);
        assert RequestAt(next, rest.value, j - 1).cursor != RequestAt(next, rest.value, k - 1).cursor;
      }
    }
  }

  /** A loop is reported only when the chain really comes back to a cursor, and the page limit only after
      that many good pages: on a chain that reaches its end within the limit neither is. */
  lemma {:induction false} ChainThatEndsIsCollected(adapter: Adapter, request: Request, pages: seq<Page>,
                                                    seen: set<Option<string>>, left: nat)
    requires EndsWith(adapter, request, pages) && |pages| <= left
    requires forall j :: 0 <= j < |pages| ==> RequestAt(request, pages, j).cursor !in seen
    ensures Collected(adapter, request, seen, left) == Good(pages)
    decreases left
  {
    var next := Next(request, pages[0]);
    assert RequestAt(request, pages, 0) == request;
    if |pages| == 1 {
      assert pages == [pages[0]];
    } else {
      EndsTail(adapter, request, pages);
      TailUnseen(adapter, request, pages, seen);
      ChainThatEndsIsCollected(adapter, next, pages[1..], seen + {request.cursor}, left - 1);
      assert pages == [pages[0]] + pages[1..];
    }
  }

  lemma TailUnseen(adapter: Adapter, request: Request, pages: seq<Page>, seen: set<Option<string>>)
    requires EndsWith(adapter, request, pages) && |pages| > 1
    requires forall j :: 0 <= j < |pages| ==> RequestAt(request, pages, j).cursor !in seen
    ensures var rest := pages[1..];
            forall j :: 0 <= j < |rest|
              ==> RequestAt(Next(request, pages[0]), rest, j).cursor !in seen + {request.cursor}
  {
    EndsTail(adapter, request, pages);
    forall j | 0 <= j < |pages[1..]|
      ensures RequestAt(Next(request, pages[0]), pages[1..], j).cursor !in seen + {request.cursor}
    {
      RequestAtTail(request, pages, j + 1);
    }
  }

  /** The adapter's own chain from `request`: contract-abiding pages, only the last one final, and no cursor
      requested twice. */
  ghost predicate EndsWith(adapter: Adapter, request: Request, pages: seq<Page>) {
    && pages != []
    && (forall k :: 0 <= k < |pages| ==>
          adapter(RequestAt(request, pages, k)) == Some(pages[k])
          && PageFault(pages[k], RequestAt(request, pages, k)).None?)
    && (forall k :: 0 <= k < |pages| ==> (pages[k].Final() <==> k == |pages| - 1))
    && forall j, k :: 0 <= j < k < |pages|
         ==> RequestAt(request, pages, j).cursor != RequestAt(request, pages, k).cursor
  }

  lemma EndsTail(adapter: Adapter, request: Request, pages: seq<Page>)
    requires EndsWith(adapter, request, pages) && |pages| > 1
    ensures EndsWith(adapter, Next(request, pages[0]), pages[1..])
  {
    var next, rest := Next(request, pages[0]), pages[1..];
    forall k | 0 <= k < |rest|
      ensures RequestAt(next, rest, k) == RequestAt(request, pages, k + 1) && rest[k] == pages[k + 1]
    {
      RequestAtTail(request, pages, k + 1);
    }
  }

  /** Collection succeeds exactly on chains that end within the limit, and returns that chain. */
  lemma CollectedIff(adapter: Adapter, request: Request, maxPages: int, pages: seq<Page>)
    ensures CollectedWithin(adapter, request, maxPages) == Good(pages)
       <==> |pages| <= maxPages && EndsWith(adapter, request, pages)
  {
    if |pages| <= maxPages && EndsWith(adapter, request, pages) {
      ChainThatEndsIsCollected(adapter, request, pages, {}, maxPages);
    }
    if CollectedWithin(adapter, request, maxPages) == Good(pages) {
      forall k | 0 <= k < |pages|
        ensures adapter(RequestAt(request, pages, k)) == Some(pages[k])
                && PageFault(pages[k], RequestAt(request, pages, k)).None?
        ensures pages[k].Final() <==> k == |pages| - 1
        ensures forall j :: 0 <= j < k ==> RequestAt(request, pages, j).cursor != RequestAt(request, pages, k).cursor
      {
        CollectedSpec(adapter, request, {}, maxPages, k);
      }
    }
  }

  // Why collection fails.

  /** Request `k` of the adapter's own chain. */
  function RequestOf(adapter: Adapter, request: Request, k: nat): Request {
    if k == 0 then request
    else
      var before := RequestOf(adapter, request, k - 1);
      if adapter(before).None? then before else Next(before, adapter(before).value)
  }

  /** One of the first `k` requests had this cursor. */
  predicate Asked(adapter: Adapter, request: Request, k: nat, cursor: Option<string>) {
    exists j :: 0 <= j < k && RequestOf(adapter, request, j).cursor == cursor
  }

  /** What is wrong at request `k`: the first that applies. */
  function WrongAt(adapter: Adapter, request: Request, maxPages: int, k: nat): Option<Violation> {
    var at := RequestOf(adapter, request, k);
    if maxPages <= k then Some(TooManyPages)
    else if Asked(adapter, request, k, at.cursor) then Some(CursorLoop)
    else if adapter(at).None? then Some(AdapterFailed)
    else PageFault(adapter(at).value, at)
  }

  /** Nothing is wrong at request `k`, and its page leads to another. */
  predicate LeadsOn(adapter: Adapter, request: Request, maxPages: int, k: nat) {
    WrongAt(adapter, request, maxPages, k).None? && !adapter(RequestOf(adapter, request, k)).value.Final()
  }

  ghost predicate FailsFrom(adapter: Adapter, request: Request, maxPages: int, k: nat, rule: Violation) {
    exists n :: FailsAt(adapter, request, maxPages, k, n, rule)
  }

  ghost predicate FailsAt(adapter: Adapter, request: Request, maxPages: int, k: nat, n: nat, rule: Violation) {
    && k <= n && (forall j :: k <= j < n ==> LeadsOn(adapter, request, maxPages, j))
    && WrongAt(adapter, request, maxPages, n) == Some(rule)
  }

  lemma FailsLater(adapter: Adapter, request: Request, maxPages: int, k: nat, next: nat, rule: Violation)
    requires LeadsOn(adapter, request, maxPages, k) && next == k + 1
    ensures FailsFrom(adapter, request, maxPages, k, rule) <==> FailsFrom(adapter, request, maxPages, next, rule)
  {
    if FailsFrom(adapter, request, maxPages, k, rule) {
      var n :| FailsAt(adapter, request, maxPages, k, n, rule);
      assert FailsAt(adapter, request, maxPages, next, n, rule);
    }
    if FailsFrom(adapter, request, maxPages, next, rule) {
      var n :| FailsAt(adapter, request, maxPages, next, n, rule);
      assert FailsAt(adapter, request, maxPages, k, n, rule);
    }
  }

  /** The cursors requested before request `k`. */
  function CursorsBefore(adapter: Adapter, request: Request, k: nat): set<Option<string>> {
    if k == 0 then {} else CursorsBefore(adapter, request, k - 1) + {RequestOf(adapter, request, k - 1).cursor}
  }

  lemma AskedStep(adapter: Adapter, request: Request, k: nat, cursor: Option<string>)
    requires k > 0
    ensures Asked(adapter, request, k, cursor)
       <==> Asked(adapter, request, k - 1, cursor) || RequestOf(adapter, request, k - 1).cursor == cursor
  {
  }

  lemma {:induction false} CursorsSpec(adapter: Adapter, request: Request, k: nat, cursor: Option<string>)
    ensures cursor in CursorsBefore(adapter, request, k) <==> Asked(adapter, request, k, cursor)
  {
    if k > 0 {
      CursorsSpec(adapter, request, k - 1, cursor);
      AskedStep(adapter, request, k, cursor);
    }
  }

  lemma FailsHere(adapter: Adapter, request: Request, maxPages: int, k: nat, rule: Violation)
    requires !LeadsOn(adapter, request, maxPages, k)
    ensures FailsFrom(adapter, request, maxPages, k, rule) <==> WrongAt(adapter, request, maxPages, k) == Some(rule)
  {
    if WrongAt(adapter, request, maxPages, k) == Some(rule) {
      assert FailsAt(adapter, request, maxPages, k, k, rule);
    }
  }

  lemma {:induction false} CollectingFails(adapter: Adapter, request: Request, maxPages: int, k: nat, rule: Violation)
    requires k <= maxPages
    ensures Collected(adapter, RequestOf(adapter, request, k), CursorsBefore(adapter, request, k), maxPages - k)
            == Bad(rule)
       <==> FailsFrom(adapter, request, maxPages, k, rule)
    decreases maxPages - k
  {
    CursorsSpec(adapter, request, k, RequestOf(adapter, request, k).cursor);
    if LeadsOn(adapter, request, maxPages, k) {
      var next := k + 1;
      CollectingFails(adapter, request, maxPages, next, rule);
      FailsLater(adapter, request, maxPages, k, next, rule);
    } else {
      FailsHere(adapter, request, maxPages, k, rule);
    }
  }

  /** Collection fails with a violation exactly when the chain leads on to a request at which that is wrong. */
  lemma CollectionFailsIff(adapter: Adapter, request: Request, maxPages: int, start: nat, rule: Violation)
    requires maxPages >= 1 && start == 0
    ensures CollectedWithin(adapter, request, maxPages) == Bad(rule)
       <==> FailsFrom(adapter, request, maxPages, start, rule)
  {
    CollectingFails(adapter, request, maxPages, start, rule);
  }
}
