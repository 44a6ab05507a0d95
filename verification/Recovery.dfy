/** Deterministic historical recovery: a planner that emits one chunk of a frozen range at a time. */
module Recovery {
  import opened Market
  import opened Ordering
  import opened SessionGrid
  import opened Checkpoint
  import opened Schedule

  datatype Request = Request(
    recoveryId: string, providerRevision: string, universeRevision: string, calendarRevision: string,
    instrument: Instrument, coverageKey: string, sessionScope: SessionScope, logicalDataVariant: string, mode: Mode,
    recoveryRange: TimeRange, checkpointBefore: StoredCheckpoint, maxBarsPerJob: int, createdAt: Instant)
  {
    function Grid(calendar: Calendar): SessionGrid.Grid { GridFor(instrument, sessionScope, calendar) }

    /** The same request after the chunk that ends at `end` has been committed. */
    function CommittedAt(end: Instant): Request {
      this.(checkpointBefore := checkpointBefore.(completeThrough := Some(end),
                                                  version := checkpointBefore.version + 1))
    }
  }

  /** A bar with the session it belongs to: the session's opening, or `None` for continuous trading. */
  datatype EligibleBar = EligibleBar(bar: Bar, sessionKey: Option<Instant>)

  // Session selection.

  function OfScope(sessions: seq<Session>, scope: SessionScope): seq<Session> {
    if sessions == [] then []
    else (if InScope(sessions[0].kind, scope) then [sessions[0]] else []) + OfScope(sessions[1..], scope)
  }

  predicate OpensNoLater(a: Session, b: Session) { a.opensAt <= b.opensAt }

  function SortByOpen(sessions: seq<Session>): seq<Session> { SortBy(OpensNoLater, sessions) }

  predicate SessionFits(sessions: seq<Session>, revision: string, i: nat)
    requires i < |sessions|
  {
    && sessions[i].calendarRevision == revision && sessions[i].opensAt < sessions[i].closesAt
    && (i > 0 ==> sessions[i - 1].closesAt <= sessions[i].opensAt)
  }

  predicate SessionsFit(sessions: seq<Session>, revision: string) {
    forall i :: 0 <= i < |sessions| ==> SessionFits(sessions, revision, i)
  }

  function SelectedSessions(request: Request, calendar: Calendar): seq<Session> {
    SortByOpen(OfScope(calendar.sessions, request.sessionScope))
  }

  function SessionsFor(request: Request, calendar: Calendar): Result<seq<Session>> {
    if calendar.revision != request.calendarRevision then Err(CalendarRevisionMismatch)
    else if request.sessionScope == AllTrading then Err(EquityNeedsScope)
    else if request.instrument.cadence == OneDay && request.sessionScope != RegularScope then
      Err(DailyNeedsRegular)
    else if !SessionsFit(SelectedSessions(request, calendar), request.calendarRevision) then
      Err(SessionsNotEligible)
    else Ok(SelectedSessions(request, calendar))
  }

  /** The validation loop over the sorted sessions. */
  method CheckSessions(request: Request, calendar: Calendar) returns (result: Result<seq<Session>>)
    ensures result == SessionsFor(request, calendar)
  {
    if calendar.revision != request.calendarRevision { return Err(CalendarRevisionMismatch); }
    if request.sessionScope == AllTrading { return Err(EquityNeedsScope); }
    if request.instrument.cadence == OneDay && request.sessionScope != RegularScope {
      return Err(DailyNeedsRegular);
    }
    var sessions := SelectedSessions(request, calendar);
    var previousClose: Option<Instant> := None;
    for i := 0 to |sessions|
      invariant forall k :: 0 <= k < i ==> SessionFits(sessions, request.calendarRevision, k)
      invariant previousClose == if i == 0 then None else Some(sessions[i - 1].closesAt)
    {
      var session := sessions[i];
      if session.calendarRevision != request.calendarRevision || session.opensAt >= session.closesAt
         || (previousClose.Some? && session.opensAt < previousClose.value) {
        assert !SessionFits(sessions, request.calendarRevision, i);
        return Err(SessionsNotEligible);
      }
      previousClose := Some(session.closesAt);
    }
    result := Ok(sessions);
  }

  // The eligible bars of the frozen range.

  function Within(bars: seq<Bar>, range: TimeRange): seq<Bar> {
    if bars == [] then []
    else (if range.start <= bars[0].start && bars[0].completes <= range.end then [bars[0]]
          else []) + Within(bars[1..], range)
  }

  function Tagged(bars: seq<Bar>, key: Option<Instant>): (r: seq<EligibleBar>)
    ensures |r| == |bars|
  {
    seq(|bars|, i requires 0 <= i < |bars| => EligibleBar(bars[i], key))
  }

  function SessionEligible(g: Grid, s: Session, range: TimeRange): seq<EligibleBar> {
    Tagged(Within(SessionBars(g, s), range), Some(s.opensAt))
  }

  function SessionsEligible(g: Grid, sessions: seq<Session>, range: TimeRange): seq<EligibleBar> {
    if sessions == [] then [] else SessionEligible(g, sessions[0], range) + SessionsEligible(g, sessions[1..], range)
  }

  function EligibleBars(request: Request, calendar: Calendar): Result<seq<EligibleBar>> {
    var range, g := request.recoveryRange, request.Grid(calendar);
    if g.route == CryptoBars then
      if range.start % g.Interval() != 0 || range.end % g.Interval() != 0 then
        Err(UnalignedCryptoBounds)
      else Ok(Tagged(Steps(range.start, range.end, g.Interval()), None))
    else
      var sessions := SessionsFor(request, calendar);
      if sessions.Err? then Err(sessions.error) else Ok(SessionsEligible(g, sessions.value, range))
  }

  /** On aligned bounds a bar that starts before the end also completes by it. */
  lemma AlignedFits(c: Cadence, at: Instant, end: Instant)
    requires at % IntervalMs(c) == 0 && end % IntervalMs(c) == 0 && at < end
    ensures at + IntervalMs(c) <= end && (at + IntervalMs(c)) % IntervalMs(c) == 0
  {
    AlignedDisjoint(c, 0, at, end);
    PlusStep(c, at);
  }

  lemma TaggedConcat(x: seq<Bar>, y: seq<Bar>, key: Option<Instant>)
    ensures Tagged(x + y, key) == Tagged(x, key) + Tagged(y, key)
  {
  }

  lemma WithinStep(at: Instant, stop: Instant, step: int, range: TimeRange, key: Option<Instant>)
    requires step > 0 && at + step <= stop
    ensures Tagged(Within(Steps(at, stop, step), range), key)
         == (if range.start <= at && at + step <= range.end then [EligibleBar(Bar(at, at + step), key)] else [])
            + Tagged(Within(Steps(at + step, stop, step), range), key)
  {
    var bars, rest := Steps(at, stop, step), Steps(at + step, stop, step);
    assert bars[0] == Bar(at, at + step) && bars[1..] == rest;
    TaggedConcat([Bar(at, at + step)], Within(rest, range), key);
  }

  /** The inner loop over the bars of one session. */
  method EligibleInSession(g: Grid, s: Session, range: TimeRange) returns (result: seq<EligibleBar>)
    requires g.route == StockBars && InScope(s.kind, g.scope)
    ensures result == SessionEligible(g, s, range)
  {
    result := [];
    if g.cadence == OneDay {
      var bar := Bar(s.opensAt, s.closesAt);
      assert [bar][1..] == [] && Within([], range) == [];
      assert Within([bar], range) == if s.opensAt >= range.start && s.closesAt <= range.end then [bar] else [];
      if s.opensAt >= range.start && s.closesAt <= range.end { result := [EligibleBar(bar, Some(s.opensAt))]; }
    } else {
      result := EligibleInSteps(s.opensAt, s.closesAt, g.Interval(), range);
    }
  }

  method EligibleInSteps(open: Instant, close: Instant, interval: int, range: TimeRange)
    returns (result: seq<EligibleBar>)
    requires interval > 0
    ensures result == Tagged(Within(Steps(open, close, interval), range), Some(open))
  {
    result := [];
    var at := open;
    ghost var rest := Tagged(Within(Steps(at, close, interval), range), Some(open));
    while at + interval <= close
      invariant rest == Tagged(Within(Steps(at, close, interval), range), Some(open))
      invariant result + rest == Tagged(Within(Steps(open, close, interval), range), Some(open))
      decreases close - at
    {
      WithinStep(at, close, interval, range, Some(open));
      rest := Tagged(Within(Steps(at + interval, close, interval), range), Some(open));
      if at >= range.start && at + interval <= range.end {
        result := result + [EligibleBar(Bar(at, at + interval), Some(open))];
      }
      at := at + interval;
    }
  }

  lemma TaggedStep(at: Instant, stop: Instant, step: int, key: Option<Instant>)
    requires step > 0 && at + step <= stop
    ensures Tagged(Steps(at, stop, step),
                   key) == [EligibleBar(Bar(at, at + step), key)] + Tagged(Steps(at + step, stop, step), key)
  {
    TaggedConcat([Bar(at, at + step)], Steps(at + step, stop, step), key);
  }

  /** Both ends lie on the grid of continuous trading. */
  predicate AlignedBounds(c: Cadence, at: Instant, end: Instant) {
    at % IntervalMs(c) == 0 && end % IntervalMs(c) == 0
  }

  lemma GridStep(c: Cadence, at: Instant, end: Instant)
    requires AlignedBounds(c, at, end) && at < end
    ensures at + IntervalMs(c) <= end && AlignedBounds(c, at + IntervalMs(c), end)
    ensures Tagged(Steps(at, end, IntervalMs(c)), None)
         == [EligibleBar(Bar(at, at + IntervalMs(c)), None)] + Tagged(Steps(at + IntervalMs(c), end, IntervalMs(c)),
                                                                      None)
  {
    AlignedFits(c, at, end);
    TaggedStep(at, end, IntervalMs(c), None);
  }

  /** The loop over continuous trading: on aligned bounds its guard `at < end` is the completion test. */
  method EligibleContinuous(c: Cadence, start: Instant, end: Instant) returns (bars: seq<EligibleBar>)
    requires AlignedBounds(c, start, end)
    ensures bars == Tagged(Steps(start, end, IntervalMs(c)), None)
  {
    bars := [];
    var at := start;
    ghost var rest := Tagged(Steps(at, end, IntervalMs(c)), None);
    while at < end
      invariant AlignedBounds(c, at, end)
      invariant rest == Tagged(Steps(at, end, IntervalMs(c)), None)
      invariant bars + rest == Tagged(Steps(start, end, IntervalMs(c)), None)
      decreases end - at
    {
      GridStep(c, at, end);
      bars := bars + [EligibleBar(Bar(at, at + IntervalMs(c)), None)];
      at := at + IntervalMs(c);
      rest := Tagged(Steps(at, end, IntervalMs(c)), None);
    }
  }

  lemma SessionsEligibleStep(g: Grid, sessions: seq<Session>, i: nat, range: TimeRange)
    requires i < |sessions|
    ensures SessionsEligible(g, sessions[i..], range)
         == SessionEligible(g, sessions[i], range) + SessionsEligible(g, sessions[i + 1..], range)
  {
    assert sessions[i..][0] == sessions[i] && sessions[i..][1..] == sessions[i + 1..];
  }

  lemma Regroup<T>(x: seq<T>, y: seq<T>, z: seq<T>)
    ensures x + (y + z) == x + y + z
  {
  }

  method EligibleOverSessions(g: Grid, sessions: seq<Session>, range: TimeRange) returns (bars: seq<EligibleBar>)
    requires g.route == StockBars && forall i :: 0 <= i < |sessions| ==> InScope(sessions[i].kind, g.scope)
    ensures bars == SessionsEligible(g, sessions, range)
  {
    bars := [];
    ghost var rest := SessionsEligible(g, sessions, range);
    for i := 0 to |sessions|
      invariant rest == SessionsEligible(g, sessions[i..], range)
      invariant bars + rest == SessionsEligible(g, sessions, range)
    {
      var more := EligibleInSession(g, sessions[i], range);
      SessionsEligibleStep(g, sessions, i, range);
      ghost var later := SessionsEligible(g, sessions[i + 1..], range);
      Regroup(bars, more, later);
      bars, rest := bars + more, later;
    }
  }

  /** The enumeration, independent of the executor's. */
  method EnumerateEligible(request: Request, calendar: Calendar) returns (result: Result<seq<EligibleBar>>)
    ensures result == EligibleBars(request, calendar)
  {
    var range, g := request.recoveryRange, request.Grid(calendar);
    var bars: seq<EligibleBar>;
    if g.route == CryptoBars {
      if range.start % g.Interval() != 0 || range.end % g.Interval() != 0 {
        return Err(UnalignedCryptoBounds);
      }
      bars := EligibleContinuous(g.cadence, range.start, range.end);
      return Ok(bars);
    }
    var checked := CheckSessions(request, calendar);
    if checked.Err? { return Err(checked.error); }
    SelectedInScope(request, calendar);
    assert forall i :: 0 <= i < |checked.value| ==> checked.value[i] in checked.value;
    bars := EligibleOverSessions(g, checked.value, range);
    result := Ok(bars);
  }

  lemma {:induction false} OfScopeSpec(sessions: seq<Session>, scope: SessionScope)
    ensures forall x :: x in OfScope(sessions, scope) <==> x in sessions && InScope(x.kind, scope)
  {
    if sessions != [] { OfScopeSpec(sessions[1..], scope); }
  }

  lemma SelectedInScope(request: Request, calendar: Calendar)
    ensures forall x :: x in SelectedSessions(request, calendar)
              <==> x in calendar.sessions && InScope(x.kind, request.sessionScope)
  {
    OfScopeSpec(calendar.sessions, request.sessionScope);
    SortKeeps(OpensNoLater, OfScope(calendar.sessions, request.sessionScope));
  }

  // The planner.

  function Pending(bars: seq<EligibleBar>, through: Instant): seq<EligibleBar> {
    if bars == [] then []
    else (if bars[0].bar.completes > through then [bars[0]] else []) + Pending(bars[1..], through)
  }

  function OfKey(bars: seq<EligibleBar>, key: Option<Instant>): seq<EligibleBar> {
    if bars == [] then []
    else OfKey(bars[..|bars| - 1], key) + (if bars[|bars| - 1].sessionKey == key then [bars[|bars| - 1]] else [])
  }

  /** The first `max` pending bars, cut to the session of the first one. */
  function Chunk(pending: seq<EligibleBar>, max: nat): seq<EligibleBar>
    requires pending != []
  {
    OfKey(pending[..Min(max, |pending|)], pending[0].sessionKey)
  }

  predicate IdentityMatches(request: Request) {
    && request.checkpointBefore.symbol == request.instrument.symbol
    && request.checkpointBefore.interval == request.instrument.cadence
    && request.checkpointBefore.sessionScope == request.sessionScope
    && request.checkpointBefore.logicalDataVariant == request.logicalDataVariant
  }

  /** The guards in front of the enumeration, in their order. */
  function Refusal(request: Request): Option<Fault> {
    var c := request.checkpointBefore;
    if request.recoveryId == "" || request.providerRevision == "" || request.universeRevision == ""
       || request.calendarRevision == "" || request.logicalDataVariant == "" || request.coverageKey == ""
    then Some(EmptyField)
    else if request.maxBarsPerJob < 1 then Some(InvalidMaxBars)
    else if request.recoveryRange.start >= request.recoveryRange.end then Some(EmptyRecoveryRange)
    else if c.coverageKey != request.coverageKey then Some(CheckpointKeyMismatch)
    else if c.state != Complete then Some(CheckpointNotComplete)
    else if c.missingRanges != [] then Some(CheckpointHasGaps)
    else if c.version < 0 then Some(InvalidCheckpointVersion)
    else if request.coverageKey != CoverageKeyFor(request.instrument, request.sessionScope,
                                                  request.logicalDataVariant) then
      Some(CoverageKeyMismatch)
    else if !IdentityMatches(request) then Some(CheckpointIdentityMismatch)
    else if c.completeThrough.None? then Some(NoCheckpointBoundary)
    else if c.completeThrough.value < request.recoveryRange.start
            || c.completeThrough.value > request.recoveryRange.end then
      Some(BoundaryOutsideRange)
    else None
  }

  predicate IsBoundary(request: Request, bars: seq<EligibleBar>, at: Instant) {
    at == request.recoveryRange.start || at == request.recoveryRange.end
    || exists i :: 0 <= i < |bars| && bars[i].bar.completes == at
  }

  function JobFor(request: Request, range: TimeRange): Job {
    Job(RecoveryJob(request.recoveryId, request.providerRevision, request.universeRevision, request.calendarRevision,
                    request.coverageKey, range, request.mode),
        request.createdAt, request.universeRevision, request.calendarRevision, request.instrument, range,
        request.sessionScope, request.mode, request.logicalDataVariant,
        Expectation(request.coverageKey, Some(request.checkpointBefore.version),
                    request.checkpointBefore.completeThrough),
        HistoricalRecovery)
  }

  /** A filter by a prefix of pending bars keeps the first of them. */
  lemma ChunkNonEmpty(pending: seq<EligibleBar>, max: nat)
    requires pending != [] && max >= 1
    ensures Chunk(pending, max) != []
  {
    FirstKept(pending[..Min(max, |pending|)], pending[0].sessionKey);
  }

  lemma {:induction false} FirstKept(bars: seq<EligibleBar>, key: Option<Instant>)
    requires bars != [] && bars[0].sessionKey == key
    ensures OfKey(bars, key) != []
  {
    if |bars| > 1 { FirstKept(bars[..|bars| - 1], key); }
  }

  /** The range of the next chunk, if anything is pending. */
  function NextRange(bars: seq<EligibleBar>, through: Instant, max: nat): Option<TimeRange>
    requires max >= 1
  {
    var pending := Pending(bars, through);
    if pending == [] then None
    else
      ChunkNonEmpty(pending, max);
      var chunk := Chunk(pending, max);
      Some(TimeRange(pending[0].bar.start, chunk[|chunk| - 1].bar.completes))
  }

  function PlanNext(request: Request, calendar: Calendar): Result<Option<Job>> {
    var refusal := Refusal(request);
    if refusal.Some? then Err(refusal.value)
    else
      var bars := EligibleBars(request, calendar);
      var through := request.checkpointBefore.completeThrough.value;
      if bars.Err? then Err(bars.error)
      else if !IsBoundary(request, bars.value, through) then Err(BoundaryNotEligible)
      else if through == request.recoveryRange.end then Ok(None)
      else
        var range := NextRange(bars.value, through, request.maxBarsPerJob);
        Ok(if range.Some? then Some(JobFor(request, range.value)) else None)
  }

  // What the enumeration yields, whatever the calendar looked like.

  /** Bars in order, inside the range, with the bars of one session next to each other. */
  ghost predicate Arranged(bars: seq<EligibleBar>, range: TimeRange) {
    && InOrder(bars) && Grouped(bars)
    && forall i :: 0 <= i < |bars| ==> range.start <= bars[i].bar.start && bars[i].bar.completes <= range.end
  }

  ghost predicate InOrder(bars: seq<EligibleBar>) {
    && (forall i :: 0 <= i < |bars| ==> bars[i].bar.start < bars[i].bar.completes)
    && (forall i, j :: 0 <= i < j < |bars| ==> bars[i].bar.completes <= bars[j].bar.start)
  }

  ghost predicate Grouped(bars: seq<EligibleBar>) {
    forall i, j, k :: 0 <= i < j < k < |bars| && bars[i].sessionKey == bars[k].sessionKey
      ==> bars[j].sessionKey == bars[k].sessionKey
  }

  lemma {:induction false} WithinSpec(bars: seq<Bar>, range: TimeRange)
    requires Ordered(bars)
    ensures Ordered(Within(bars, range))
    ensures forall b :: b in Within(bars, range) <==> b in bars && range.start <= b.start && b.completes <= range.end
  {
    if bars != [] {
      var b := bars[0];
      var rest := Within(bars[1..], range);
      var head := if range.start <= b.start && b.completes <= range.end then [b] else [];
      OrderedTail(bars);
      WithinSpec(bars[1..], range);
      assert bars == [b] + bars[1..] && Within(bars, range) == head + rest;
      OrderedConcat(head, rest);
    }
  }

  lemma TaggedSpec(bars: seq<Bar>, key: Option<Instant>)
    requires Ordered(bars)
    ensures InOrder(Tagged(bars, key))
    ensures forall e :: e in Tagged(bars, key) <==> e.bar in bars && e.sessionKey == key
  {
    forall e: EligibleBar | e.bar in bars && e.sessionKey == key ensures e in Tagged(bars, key) {
      var i :| 0 <= i < |bars| && bars[i] == e.bar;
      assert Tagged(bars, key)[i] == e;
    }
  }

  lemma SessionsFitTail(sessions: seq<Session>, revision: string)
    requires sessions != [] && SessionsFit(sessions, revision)
    ensures SessionsFit(sessions[1..], revision) && sessions[0].opensAt < sessions[0].closesAt
  {
    var rest := sessions[1..];
    assert SessionFits(sessions, revision, 0);
    forall i | 0 <= i < |rest| ensures SessionFits(rest, revision, i) { assert SessionFits(sessions, revision, i + 1); }
  }

  /** An eligible bar of one of the sessions, inside the range. */
  ghost predicate EligibleIn(g: Grid, sessions: seq<Session>, range: TimeRange, e: EligibleBar) {
    && range.start <= e.bar.start && e.bar.completes <= range.end
    && exists s :: s in sessions && g.InSession(s, e.bar) && e.sessionKey == Some(s.opensAt)
  }

  lemma EligibleInSplit(g: Grid, sessions: seq<Session>, range: TimeRange, e: EligibleBar)
    requires sessions != []
    ensures EligibleIn(g, sessions, range, e)
       <==> EligibleIn(g, [sessions[0]], range, e) || EligibleIn(g, sessions[1..], range, e)
  {
    assert sessions == [sessions[0]] + sessions[1..];
  }

  lemma OneSessionEligible(g: Grid, s: Session, range: TimeRange)
    requires g.route == StockBars && s.opensAt < s.closesAt
    ensures InOrder(SessionEligible(g, s, range))
    ensures forall e :: e in SessionEligible(g, s, range) <==> EligibleIn(g, [s], range, e)
    ensures forall e :: e in SessionEligible(g, s, range)
              ==> e.bar.completes <= s.closesAt && e.sessionKey == Some(s.opensAt)
  {
    SessionBarsSpec(g, s);
    WithinSpec(SessionBars(g, s), range);
    TaggedSpec(Within(SessionBars(g, s), range), Some(s.opensAt));
    forall e ensures EligibleIn(g, [s], range, e) <==>
                       && range.start <= e.bar.start && e.bar.completes <= range.end
                       && g.InSession(s, e.bar) && e.sessionKey == Some(s.opensAt)
    {
      if g.InSession(s, e.bar) && e.sessionKey == Some(s.opensAt) { assert s in [s]; }
    }
  }

  lemma {:induction false} SessionsEligibleHold(g: Grid, sessions: seq<Session>, revision: string, range: TimeRange)
    requires g.route == StockBars && SessionsFit(sessions, revision)
    ensures forall e :: e in SessionsEligible(g, sessions, range) <==> EligibleIn(g, sessions, range, e)
  {
    if sessions != [] {
      SessionsFitTail(sessions, revision);
      SessionsEligibleHold(g, sessions[1..], revision, range);
      OneSessionEligible(g, sessions[0], range);
      forall e ensures e in SessionsEligible(g, sessions, range) <==> EligibleIn(g, sessions, range, e) {
        EligibleInSplit(g, sessions, range, e);
      }
    }
  }

  lemma {:induction false} SessionsEligibleArranged(g: Grid, sessions: seq<Session>, revision: string, range: TimeRange)
    requires g.route == StockBars && SessionsFit(sessions, revision)
    ensures Arranged(SessionsEligible(g, sessions, range), range)
  {
    if sessions != [] {
      var s, rest := sessions[0], sessions[1..];
      SessionsFitTail(sessions, revision);
      SessionsEligibleArranged(g, rest, revision, range);
      SessionsEligibleHold(g, rest, revision, range);
      OneSessionEligible(g, s, range);
      forall e | e in SessionsEligible(g, rest, range)
        ensures s.closesAt <= e.bar.start && e.sessionKey != Some(s.opensAt)
      {
        LaterEligible(g, sessions, revision, range, e);
      }
      ArrangedConcat(SessionEligible(g, s, range), SessionsEligible(g, rest, range), range, Some(s.opensAt));
    }
  }

  lemma LaterEligible(g: Grid, sessions: seq<Session>, revision: string, range: TimeRange, e: EligibleBar)
    requires sessions != [] && SessionsFit(sessions, revision) && EligibleIn(g, sessions[1..], range, e)
    ensures sessions[0].closesAt <= e.bar.start && e.sessionKey != Some(sessions[0].opensAt)
  {
    var o :| o in sessions[1..] && g.InSession(o, e.bar) && e.sessionKey == Some(o.opensAt);
    SessionsFitTail(sessions, revision);
    LaterSession(sessions, revision, o);
  }

  lemma SessionsEligibleSpec(g: Grid, sessions: seq<Session>, revision: string, range: TimeRange)
    requires g.route == StockBars && SessionsFit(sessions, revision)
    ensures Arranged(SessionsEligible(g, sessions, range), range)
    ensures forall e :: e in SessionsEligible(g, sessions, range) <==> EligibleIn(g, sessions, range, e)
  {
    SessionsEligibleHold(g, sessions, revision, range);
    SessionsEligibleArranged(g, sessions, revision, range);
  }

  lemma {:induction false} LaterSession(sessions: seq<Session>, revision: string, o: Session)
    requires sessions != [] && SessionsFit(sessions, revision) && o in sessions[1..]
    ensures sessions[0].closesAt <= o.opensAt
  {
    assert SessionFits(sessions, revision, 0) && SessionFits(sessions, revision, 1);
    if o != sessions[1] {
      var rest := sessions[1..];
      forall i | 0 <= i < |rest|
        ensures SessionFits(rest, revision, i) { assert SessionFits(sessions, revision, i + 1); }
      LaterSession(rest, revision, o);
    }
  }

  lemma ArrangedConcat(x: seq<EligibleBar>, y: seq<EligibleBar>, range: TimeRange,
                       key: Option<Instant>)
    requires InOrder(x) && Arranged(y, range)
    requires forall e :: e in x ==> e.sessionKey == key && range.start <= e.bar.start && e.bar.completes <= range.end
    requires forall e :: e in y ==> e.sessionKey != key
    requires forall a, b :: a in x && b in y ==> a.bar.completes <= b.bar.start
    ensures Arranged(x + y, range)
  {
    assert forall i :: 0 <= i < |x| ==> x[i] in x;
    assert forall i :: 0 <= i < |y| ==> y[i] in y;
    assert forall i :: |x| <= i < |x + y| ==> (x + y)[i] == y[i - |x|];
  }

  /** The enumeration is arranged and holds exactly the eligible bars of the frozen range. */
  lemma EligibleBarsSpec(request: Request, calendar: Calendar)
    requires EligibleBars(request, calendar).Ok?
    ensures Arranged(EligibleBars(request, calendar).value, request.recoveryRange)
    ensures forall b :: Holds(EligibleBars(request, calendar).value, b) <==>
              request.Grid(calendar).Eligible(b) && request.recoveryRange.start <= b.start
              && b.completes <= request.recoveryRange.end
  {
    var range, g := request.recoveryRange, request.Grid(calendar);
    var bars := EligibleBars(request, calendar).value;
    if g.route == CryptoBars {
      StepsSpec(range.start, range.end, g.cadence);
      TaggedSpec(Steps(range.start, range.end, g.Interval()), None);
      forall b ensures Holds(bars, b) <==> g.Eligible(b) && range.start <= b.start && b.completes <= range.end {
        AlignedShift(g.cadence, 0, range.start, b.start);
        assert Holds(bars, b) <==> EligibleBar(b, None) in bars;
      }
    } else {
      var sessions := SessionsFor(request, calendar).value;
      SelectedInScope(request, calendar);
      SessionsEligibleSpec(g, sessions, request.calendarRevision, range);
      forall b ensures Holds(bars, b) <==> g.Eligible(b) && range.start <= b.start && b.completes <= range.end {
        SessionMembership(g, sessions, bars, range, b);
      }
    }
  }

  ghost predicate Holds(bars: seq<EligibleBar>, b: Bar) {
    exists e :: e in bars && e.bar == b
  }

  lemma SessionMembership(g: Grid, sessions: seq<Session>, bars: seq<EligibleBar>, range: TimeRange,
                          b: Bar)
    requires g.route == StockBars
    requires forall s :: s in sessions <==> s in g.sessions && InScope(s.kind, g.scope)
    requires forall e :: e in bars <==>
               range.start <= e.bar.start && e.bar.completes <= range.end
               && exists s :: s in sessions && g.InSession(s, e.bar) && e.sessionKey == Some(s.opensAt)
    ensures Holds(bars, b) <==> g.Eligible(b) && range.start <= b.start && b.completes <= range.end
  {
    if Holds(bars, b) {
      var e :| e in bars && e.bar == b;
      var s :| s in sessions && g.InSession(s, b);
      var k :| 0 <= k < |g.sessions| && g.sessions[k] == s;
      assert g.InSession(g.sessions[k], b);
    }
    if g.Eligible(b) && range.start <= b.start && b.completes <= range.end {
      var k :| 0 <= k < |g.sessions| && g.InSession(g.sessions[k], b);
      assert g.sessions[k] in sessions;
      assert EligibleBar(b, Some(g.sessions[k].opensAt)) in bars;
    }
  }
}
