/** The durable checkpoint of a bounded page run, and what resuming from it does. */
module PageCheckpoint {
  import opened Market
  import opened PageChain

  datatype CheckpointState = InProgress | Done | Partial | Failed

  datatype CheckpointError = CheckpointError(category: string, retryable: bool, retryAfter: Option<int>)

  datatype Checkpoint = Checkpoint(providerKey: string, sourceKey: string, windowStart: Moment, windowEnd: Moment,
                                   state: CheckpointState, observedAt: Moment, resumeCursor: Option<string>,
                                   error: Option<CheckpointError>, retryNotBefore: Option<Moment>)

  /** The characters `str.strip` removes. */
  predicate Whitespace(c: char) {
    var n := c as int;
    9 <= n <= 13 || 28 <= n <= 32 || n == 0x85 || n == 0xa0 || n == 0x1680 || 0x2000 <= n <= 0x200a
    || n == 0x2028 || n == 0x2029 || n == 0x202f || n == 0x205f || n == 0x3000
  }

  predicate Blank(s: string) { forall i :: 0 <= i < |s| ==> Whitespace(s[i]) }

  predicate KeyOk(key: string) { !Blank(key) && |key| <= 256 }

  predicate CursorOk(cursor: string) { !Blank(cursor) && |cursor| <= 4096 }

  /** The invariants the constructor enforces, state by state. */
  predicate StateConsistent(c: Checkpoint) {
    match c.state
    case Done => c.resumeCursor.None? && c.error.None? && c.retryNotBefore.None?
    case InProgress => c.resumeCursor.Some? && c.error.None? && c.retryNotBefore.None?
    case _ => c.error.Some? && (c.retryNotBefore.Some? ==> c.error.value.retryable)
  }

  function CheckpointFault(c: Checkpoint): Option<Violation> {
    if !KeyOk(c.providerKey) || !KeyOk(c.sourceKey) then Some(BadKey)
    else if c.windowStart >= c.windowEnd then Some(BadWindow)
    else if c.resumeCursor.Some? && !CursorOk(c.resumeCursor.value) then Some(BadCursor)
    else if c.error.Some? && !KeyOk(c.error.value.category) then Some(BadKey)
    else if c.error.Some? && !RetryBounded(c.error.value.retryAfter) then Some(BadRetryAfter)
    else if c.retryNotBefore.Some? && c.retryNotBefore.value < c.observedAt then Some(InvalidCheckpoint)
    else if !StateConsistent(c) then Some(InvalidCheckpoint)
    else None
  }

  predicate NameBreaks(name: string) { (forall i :: 0 <= i < |name| ==> Whitespace(name[i])) || 256 < |name| }

  /** What a checkpoint may not have: bad names, an empty window, an unusable cursor or delay, or a state its other
      fields contradict. */
  predicate CheckpointBreaks(c: Checkpoint) {
    || NameBreaks(c.providerKey) || NameBreaks(c.sourceKey) || c.windowEnd <= c.windowStart
    || (c.resumeCursor.Some? && (Blank(c.resumeCursor.value) || 4096 < |c.resumeCursor.value|))
    || (c.error.Some? && NameBreaks(c.error.value.category))
    || (c.error.Some? && c.error.value.retryAfter.Some? && !(0 <= c.error.value.retryAfter.value <= 86_400_000_000))
    || (c.retryNotBefore.Some? && (c.retryNotBefore.value < c.observedAt || c.error.None? || !c.error.value.retryable))
    || (c.state in {InProgress, Done} && c.error.Some?) || (c.state in {Partial, Failed} && c.error.None?)
    || (c.state == InProgress && c.resumeCursor.None?) || (c.state == Done && c.resumeCursor.Some?)
  }

  /** A checkpoint is valid exactly when none of that holds. */
  lemma CheckpointValidIff(c: Checkpoint)
    ensures CheckpointFault(c).None? <==> !CheckpointBreaks(c)
  {
  }

  function Constructed(c: Checkpoint): Outcome<Checkpoint> {
    if CheckpointFault(c).Some? then Bad(CheckpointFault(c).value) else Good(c)
  }

  function CheckpointForPage(providerKey: string, request: Request, page: Page): Outcome<Checkpoint> {
    if PageFault(page, request).Some? then Bad(PageFault(page, request).value)
    else if page.error.Some? then
      var e := page.error.value;
      Constructed(Checkpoint(providerKey, request.sourceKey, request.windowStart, request.windowEnd,
                             if page.partial then Partial else Failed, page.retrievedAt, request.cursor,
                             Some(CheckpointError(e.category, e.retryable, e.retryAfter)),
                             if e.retryable && e.retryAfter.Some? then Some(page.retrievedAt + e.retryAfter.value)
                             else None))
    else if page.nextCursor.None? then
      Constructed(Checkpoint(providerKey, request.sourceKey, request.windowStart, request.windowEnd, Done,
                             page.retrievedAt,
                             None, None, None))
    else
      Constructed(Checkpoint(providerKey, request.sourceKey, request.windowStart, request.windowEnd, InProgress,
                             page.retrievedAt, page.nextCursor, None, None))
  }

  function ResumeRequest(c: Checkpoint, pageSize: int): Outcome<Request> {
    if c.state == Done then Bad(NothingToResume)
    else Good(Request(c.sourceKey, c.windowStart, c.windowEnd, c.resumeCursor, pageSize))
  }

  // The stored record.

  datatype Field =
    | ProviderKey | SourceKey | WindowStart | WindowEnd | State | ObservedAt | ResumeCursor
    | ErrorCategory | ErrorRetryable | ErrorRetryAfter | RetryNotBefore | Other(name: string)

  datatype Value = Null | Text(text: string) | Flag(flag: bool) | Number(number: real)

  type Record = map<Field, Value>

  const FIELDS := {ProviderKey, SourceKey, WindowStart, WindowEnd, State, ObservedAt, ResumeCursor,
                   ErrorCategory, ErrorRetryable, ErrorRetryAfter, RetryNotBefore}

  /** How instants and delays are written and read: `isoformat` and `fromisoformat`, `total_seconds` and
      `timedelta(seconds=float(…))`.  Reading may accept much that is never written. */
  datatype Codec = Codec(instantText: Moment -> string, readInstant: string -> Option<Moment>,
                         delayValue: int -> Value, readDelay: Value -> Option<int>)
  {
    /** What is written is read back. */
    ghost predicate Faithful() {
      && (forall at :: readInstant(instantText(at)) == Some(at))
      && (forall d :: 0 <= d <= 86_400_000_000 ==> delayValue(d) != Null && readDelay(delayValue(d)) == Some(d))
    }

    function InstantOf(v: Value): Option<Moment> {
      if v.Text? then readInstant(v.text) else None
    }
  }

  function StateName(s: CheckpointState): string {
    match s
    case InProgress => "in_progress"
    case Done => "complete"
    case Partial => "partial"
    case Failed => "error"
  }

  function StateNamed(name: string): Option<CheckpointState> {
    if name == "in_progress" then Some(InProgress)
    else if name == "complete" then Some(Done)
    else if name == "partial" then Some(Partial)
    else if name == "error" then Some(Failed)
    else None
  }

  function ToRecord(codec: Codec, c: Checkpoint): Record {
    map[ProviderKey := Text(c.providerKey), SourceKey := Text(c.sourceKey),
        WindowStart := Text(codec.instantText(c.windowStart)), WindowEnd := Text(codec.instantText(c.windowEnd)),
        State := Text(StateName(c.state)), ObservedAt := Text(codec.instantText(c.observedAt)),
        ResumeCursor := if c.resumeCursor.Some? then Text(c.resumeCursor.value) else Null,
        ErrorCategory := if c.error.Some? then Text(c.error.value.category) else Null,
        ErrorRetryable := if c.error.Some? then Flag(c.error.value.retryable) else Null,
        ErrorRetryAfter := if c.error.Some? && c.error.value.retryAfter.Some?
                           then codec.delayValue(c.error.value.retryAfter.value) else Null,
        RetryNotBefore := if c.retryNotBefore.Some? then Text(codec.instantText(c.retryNotBefore.value)) else Null]
  }

  /** Error fields are all present or all absent, and of the right kind. */
  function ErrorOf(codec: Codec, category: Value, retryable: Value, after: Value): Outcome<Option<CheckpointError>> {
    if category.Null? || retryable.Null? then
      if !category.Null? || !retryable.Null? || !after.Null? then Bad(BadRecord) else Good(None)
    else if !retryable.Flag? || !category.Text? || !(after.Null? || codec.readDelay(after).Some?) then Bad(BadRecord)
    else Good(Some(CheckpointError(category.text, retryable.flag, if after.Null? then None
                                                                  else codec.readDelay(after))))
  }

  /** Every field is of a kind its reader accepts. */
  predicate Readable(codec: Codec, r: Record)
    requires r.Keys == FIELDS
  {
    && r[ProviderKey].Text? && r[SourceKey].Text? && r[State].Text? && StateNamed(r[State].text).Some?
    && codec.InstantOf(r[WindowStart]).Some? && codec.InstantOf(r[WindowEnd]).Some?
    && codec.InstantOf(r[ObservedAt]).Some? && (r[ResumeCursor].Null? || r[ResumeCursor].Text?)
    && (r[RetryNotBefore].Null? || codec.InstantOf(r[RetryNotBefore]).Some?)
  }

  function FromRecord(codec: Codec, r: Record): Outcome<Checkpoint> {
    if r.Keys != FIELDS then Bad(BadRecord)
    else
      var error := ErrorOf(codec, r[ErrorCategory], r[ErrorRetryable], r[ErrorRetryAfter]);
      if error.Bad? then Bad(error.violation)
      else if !Readable(codec, r) then Bad(BadRecord)
      else
        Constructed(Checkpoint(r[ProviderKey].text, r[SourceKey].text, codec.InstantOf(r[WindowStart]).value,
                               codec.InstantOf(r[WindowEnd]).value, StateNamed(r[State].text).value,
                               codec.InstantOf(r[ObservedAt]).value,
                               if r[ResumeCursor].Null? then None else Some(r[ResumeCursor].text), error.value,
                               if r[RetryNotBefore].Null? then None else codec.InstantOf(r[RetryNotBefore])))
  }

  lemma StateNames(s: CheckpointState)
    ensures StateNamed(StateName(s)) == Some(s)
  {
    assert "in_progress"[0] == 'i' && "complete"[0] == 'c' && "partial"[0] == 'p' && "error"[0] == 'e';
  }

  lemma ErrorRestored(codec: Codec, c: Checkpoint)
    requires codec.Faithful() && CheckpointFault(c).None?
    ensures var r := ToRecord(codec, c);
            ErrorOf(codec, r[ErrorCategory], r[ErrorRetryable], r[ErrorRetryAfter]) == Good(c.error)
  {
  }

  /** What the record says, field by field; the fields of an error are all null without one. */
  lemma RecordSays(codec: Codec, c: Checkpoint)
    requires codec.Faithful() && CheckpointFault(c).None?
    ensures var r := ToRecord(codec, c);
            && r.Keys == FIELDS && r[ProviderKey] == Text(c.providerKey) && r[SourceKey] == Text(c.sourceKey)
            && codec.InstantOf(r[WindowStart]) == Some(c.windowStart)
            && codec.InstantOf(r[WindowEnd]) == Some(c.windowEnd)
            && codec.InstantOf(r[ObservedAt]) == Some(c.observedAt)
            && (c.resumeCursor == if r[ResumeCursor].Text? then Some(r[ResumeCursor].text) else None)
            && (c.error.None? ==> Null == r[ErrorCategory] == r[ErrorRetryable] == r[ErrorRetryAfter])
            && (c.error.Some? ==>
                  && r[ErrorCategory] == Text(c.error.value.category)
                  && r[ErrorRetryable] == Flag(c.error.value.retryable)
                  && (r[ErrorRetryAfter] == Null <==> c.error.value.retryAfter.None?)
                  && (c.error.value.retryAfter.Some?
                      ==> codec.readDelay(r[ErrorRetryAfter]) == c.error.value.retryAfter))
            && (r[RetryNotBefore] == Null <==> c.retryNotBefore.None?)
            && (c.retryNotBefore.Some? ==> codec.InstantOf(r[RetryNotBefore]) == c.retryNotBefore)
    ensures var state := ToRecord(codec, c)[State];
            && (state == Text("complete") <==> c.state == Done) && (state == Text("partial") <==> c.state == Partial)
            && (state == Text("error") <==> c.state == Failed)
            && (state == Text("in_progress") <==> c.state == InProgress)
  {
    StateNames(c.state);
  }

  /** What was stored is restored, exactly. */
  lemma StoredIsRestored(codec: Codec, c: Checkpoint)
    requires codec.Faithful() && CheckpointFault(c).None?
    ensures FromRecord(codec, ToRecord(codec, c)) == Good(c)
  {
    StateNames(c.state);
    ErrorRestored(codec, c);
  }

  /** The value is the one that would be written for what it is read as. */
  predicate CanonicalInstant(codec: Codec, v: Value) {
    v.Text? && codec.readInstant(v.text).Some? && codec.instantText(codec.readInstant(v.text).value) == v.text
  }

  predicate CanonicalDelay(codec: Codec, v: Value) {
    codec.readDelay(v).Some? && codec.delayValue(codec.readDelay(v).value) == v
  }

  /** The dates and the delay are written as `to_record` would write them. */
  predicate Canonical(codec: Codec, r: Record)
    requires r.Keys == FIELDS
  {
    && CanonicalInstant(codec, r[WindowStart]) && CanonicalInstant(codec, r[WindowEnd])
    && CanonicalInstant(codec, r[ObservedAt])
    && (r[RetryNotBefore].Null? || CanonicalInstant(codec, r[RetryNotBefore]))
    && (r[ErrorRetryAfter].Null? || CanonicalDelay(codec, r[ErrorRetryAfter]))
  }

  /** The fields that are kept as they are. */
  lemma KeptFields(codec: Codec, r: Record)
    requires FromRecord(codec, r).Good?
    ensures var again := ToRecord(codec, FromRecord(codec, r).value);
            && again[ProviderKey] == r[ProviderKey] && again[SourceKey] == r[SourceKey] && again[State] == r[State]
            && again[ResumeCursor] == r[ResumeCursor] && again[ErrorCategory] == r[ErrorCategory]
            && again[ErrorRetryable] == r[ErrorRetryable]
  {
    NamedState(r[State].text);
    ErrorFields(codec, r[ErrorCategory], r[ErrorRetryable], r[ErrorRetryAfter]);
  }

  /** The fields that are rewritten. */
  lemma RewrittenFields(codec: Codec, r: Record)
    requires FromRecord(codec, r).Good?
    ensures var again := ToRecord(codec, FromRecord(codec, r).value);
            && (again[WindowStart] == r[WindowStart] <==> CanonicalInstant(codec, r[WindowStart]))
            && (again[WindowEnd] == r[WindowEnd] <==> CanonicalInstant(codec, r[WindowEnd]))
            && (again[ObservedAt] == r[ObservedAt] <==> CanonicalInstant(codec, r[ObservedAt]))
            && (again[RetryNotBefore] == r[RetryNotBefore]
                <==> r[RetryNotBefore].Null? || CanonicalInstant(codec, r[RetryNotBefore]))
            && (again[ErrorRetryAfter] == r[ErrorRetryAfter]
                <==> r[ErrorRetryAfter].Null? || CanonicalDelay(codec, r[ErrorRetryAfter]))
  {
    ErrorFields(codec, r[ErrorCategory], r[ErrorRetryable], r[ErrorRetryAfter]);
  }

  /** Storing a restored checkpoint again normalises it: only dates and the delay can come out differently, and the
      record comes out as it was exactly when they were canonical. */
  lemma RestoredIsNormalised(codec: Codec, r: Record)
    requires codec.Faithful() && FromRecord(codec, r).Good?
    ensures var c := FromRecord(codec, r).value;
            var again := ToRecord(codec, c);
            && FromRecord(codec, again) == Good(c) && again.Keys == r.Keys == FIELDS
            && (forall f :: f in r.Keys - {WindowStart, WindowEnd, ObservedAt, ErrorRetryAfter, RetryNotBefore}
                  ==> again[f] == r[f])
            && (again == r <==> Canonical(codec, r))
  {
    StoredIsRestored(codec, FromRecord(codec, r).value);
    KeptFields(codec, r);
    RewrittenFields(codec, r);
    SameRecord(ToRecord(codec, FromRecord(codec, r).value), r);
  }

  /** Records over the same fields are equal when they agree on each. */
  lemma SameRecord(a: Record, b: Record)
    requires a.Keys == b.Keys == FIELDS
    ensures a == b <==>
              && a[ProviderKey] == b[ProviderKey] && a[SourceKey] == b[SourceKey] && a[WindowStart] == b[WindowStart]
              && a[WindowEnd] == b[WindowEnd] && a[State] == b[State] && a[ObservedAt] == b[ObservedAt]
              && a[ResumeCursor] == b[ResumeCursor] && a[ErrorCategory] == b[ErrorCategory]
              && a[ErrorRetryable] == b[ErrorRetryable] && a[ErrorRetryAfter] == b[ErrorRetryAfter]
              && a[RetryNotBefore] == b[RetryNotBefore]
  {
  }

  /** A record that says the same instant in other words is accepted, and is not what will be stored again. */
  lemma OtherTextIsAccepted(codec: Codec, c: Checkpoint, text: string)
    requires codec.Faithful() && CheckpointFault(c).None?
    requires codec.readInstant(text) == Some(c.windowStart) && text != codec.instantText(c.windowStart)
    ensures var r := ToRecord(codec, c)[WindowStart := Text(text)];
            FromRecord(codec, r) == Good(c) && ToRecord(codec, c) != r
  {
    StateNames(c.state);
    ErrorRestored(codec, c);
  }

  lemma NamedState(name: string)
    requires StateNamed(name).Some?
    ensures StateName(StateNamed(name).value) == name
  {
  }

  lemma ErrorFields(codec: Codec, category: Value, retryable: Value, after: Value)
    requires ErrorOf(codec, category, retryable, after).Good?
    ensures var e := ErrorOf(codec, category, retryable, after).value;
            && category == (if e.Some? then Text(e.value.category) else Null)
            && retryable == (if e.Some? then Flag(e.value.retryable) else Null)
            && (after.Null? <==> e.None? || e.value.retryAfter.None?)
            && (!after.Null? ==> codec.readDelay(after) == e.value.retryAfter)
  {
  }

  // Stopping and resuming.

  /** A good page that is not the last can be checkpointed if and only if the two keys and the next cursor are
      well-formed; the checkpoint, stored and restored, resumes with the very next request of the chain. */
  lemma CheckpointResumesNext(codec: Codec, providerKey: string, request: Request, page: Page)
    requires codec.Faithful() && PageFault(page, request).None? && !page.Final()
    ensures CheckpointForPage(providerKey, request, page).Good?
       <==> KeyOk(providerKey) && KeyOk(request.sourceKey) && CursorOk(page.nextCursor.value)
    ensures CheckpointForPage(providerKey, request, page).Good? ==>
              var c := CheckpointForPage(providerKey, request, page).value;
              && c.state == InProgress && c.observedAt == page.retrievedAt && c.providerKey == providerKey
              && FromRecord(codec, ToRecord(codec, c)) == Good(c)
              && ResumeRequest(c, request.pageSize) == Good(Next(request, page))
  {
    var c := CheckpointForPage(providerKey, request, page);
    if c.Good? { StoredIsRestored(codec, c.value); }
  }

  /** Stopping after any non-final page, saving the checkpoint, and continuing with the same page size loses
      and repeats nothing: the rest of the run is exactly the remaining pages. */
  lemma StopAndResume(codec: Codec, adapter: Adapter, request: Request, maxPages: int, providerKey: string, k: nat,
                      room: int)
    requires codec.Faithful() && CollectedWithin(adapter, request, maxPages).Good?
    requires k + 1 < |CollectedWithin(adapter, request, maxPages).value| <= k + 1 + room
    ensures var pages := CollectedWithin(adapter, request, maxPages).value;
            var at := RequestAt(request, pages, k);
            var saved := CheckpointForPage(providerKey, at, pages[k]);
            && at.sourceKey == request.sourceKey && at.pageSize == request.pageSize && pages[k].nextCursor.Some?
            && (saved.Good? <==> KeyOk(providerKey) && KeyOk(request.sourceKey) && CursorOk(pages[k].nextCursor.value))
            && (saved.Good? ==>
                  var restored := FromRecord(codec, ToRecord(codec, saved.value));
                  && restored == saved
                  && ResumeRequest(restored.value, request.pageSize) == Good(RequestAt(request, pages, k + 1))
                  && CollectedWithin(adapter, RequestAt(request, pages, k + 1), room) == Good(pages[k + 1..]))
  {
    var pages := CollectedWithin(adapter, request, maxPages).value;
    var at := RequestAt(request, pages, k);
    CollectedSpec(adapter, request, {}, maxPages, k);
    SameStream(request, pages, k);
    CheckpointResumesNext(codec, providerKey, at, pages[k]);
    TailCollected(adapter, request, {}, maxPages, k + 1, room);
  }

  /** The loop follows a cursor of white space, which no checkpoint can hold: a two-page run that cannot be
      stopped after its first page. */
  lemma BlankCursorCannotBeSaved(request: Request, page: Page, last: Page, providerKey: string)
    returns (adapter: Adapter)
    requires request.cursor.None? && page.nextCursor == Some(" ") && last.nextCursor.None?
    requires PageFault(page, request).None? && PageFault(last, Next(request, page)).None? && page.error.None?
    requires KeyOk(providerKey) && KeyOk(request.sourceKey)
    ensures CollectedWithin(adapter, request, 2) == Good([page, last])
    ensures CheckpointForPage(providerKey, request, page) == Bad(BadCursor)
  {
    adapter := (r: Request) => Some(if r.cursor.None? then page else last);
    var next := Next(request, page);
    var seen := {} + {request.cursor};
    assert Collected(adapter, next, seen, 1) == Good([last]);
    assert Collected(adapter, request, {}, 2) == Prefixed([page], Collected(adapter, next, seen, 1));
    assert [page] + [last] == [page, last];
    assert Blank(" ");
  }

  lemma {:induction false} SameStream(request: Request, pages: seq<Page>, k: nat)
    requires k <= |pages|
    ensures RequestAt(request, pages, k) == request.(cursor := RequestAt(request, pages, k).cursor)
  {
    if k > 0 { SameStream(request, pages, k - 1); }
  }

  /** An error page resumes at the request that failed, whatever had been fetched before; it can be
      checkpointed if and only if the keys, the category and the cursor of that request are well-formed. */
  lemma ErrorResumesAtFailure(codec: Codec, providerKey: string, request: Request, page: Page, pageSize: int)
    requires codec.Faithful() && PageFault(page, request).None? && page.error.Some?
    ensures CheckpointForPage(providerKey, request, page).Good?
       <==> KeyOk(providerKey) && KeyOk(request.sourceKey) && KeyOk(page.error.value.category)
            && (request.cursor.Some? ==> CursorOk(request.cursor.value))
    ensures CheckpointForPage(providerKey, request, page).Good? ==>
              var c := CheckpointForPage(providerKey, request, page).value;
              && (c.state == Partial <==> page.partial) && (c.state == Failed <==> !page.partial)
              && c.observedAt == page.retrievedAt && c.providerKey == providerKey
              && c.error.value == CheckpointError(page.error.value.category, page.error.value.retryable,
                                                  page.error.value.retryAfter)
              && (c.retryNotBefore.Some? <==> page.error.value.retryable && page.error.value.retryAfter.Some?)
              && (c.retryNotBefore.Some?
                  ==> c.retryNotBefore.value - page.retrievedAt == page.error.value.retryAfter.value)
              && FromRecord(codec, ToRecord(codec, c)) == Good(c)
              && ResumeRequest(c, pageSize) == Good(request.(pageSize := pageSize))
  {
    var c := CheckpointForPage(providerKey, request, page);
    if c.Good? { StoredIsRestored(codec, c.value); }
  }

  /** A run that ended without an error cannot be resumed. */
  lemma CompletedRunIsOver(adapter: Adapter, request: Request, maxPages: int, providerKey: string, pageSize: int)
    requires CollectedWithin(adapter, request, maxPages).Good?
    requires KeyOk(providerKey) && KeyOk(request.sourceKey)
    ensures var pages := CollectedWithin(adapter, request, maxPages).value;
            var last := |pages| - 1;
            pages[last].error.None? ==>
              var saved := CheckpointForPage(providerKey, RequestAt(request, pages, last), pages[last]);
              saved.Good? && saved.value.state == Done && ResumeRequest(saved.value, pageSize) == Bad(NothingToResume)
  {
    var pages := CollectedWithin(adapter, request, maxPages).value;
    CollectedSpec(adapter, request, {}, maxPages, |pages| - 1);
    SameStream(request, pages, |pages| - 1);
  }
}
