/** Why historical recovery and its campaign refuse: the rules in their order, each told by what it asks. */
module RecoveryRules {
  import opened Market
  import opened Ordering
  import opened Rules
  import opened SessionGrid
  import opened Checkpoint
  import opened Schedule
  import opened Recovery
  import opened RecoveryChunks
  import opened Campaign

  // Requests.

  function RequestPlace(rule: Fault): int {
    match rule
    case EmptyField => 0
    case InvalidMaxBars => 1
    case EmptyRecoveryRange => 2
    case CheckpointKeyMismatch => 3
    case CheckpointNotComplete => 4
    case CheckpointHasGaps => 5
    case InvalidCheckpointVersion => 6
    case CoverageKeyMismatch => 7
    case CheckpointIdentityMismatch => 8
    case NoCheckpointBoundary => 9
    case _ => 10
  }

  /** The request breaks the rule. */
  predicate RequestBreaks(request: Request, rule: Fault) {
    var r, c := request, request.checkpointBefore;
    match rule
    case EmptyField => "" in {r.recoveryId, r.providerRevision, r.universeRevision, r.calendarRevision,
                              r.logicalDataVariant, r.coverageKey}
    case InvalidMaxBars => r.maxBarsPerJob < 1
    case EmptyRecoveryRange => r.recoveryRange.end <= r.recoveryRange.start
    case CheckpointKeyMismatch => c.coverageKey != r.coverageKey
    case CheckpointNotComplete => c.state in {Partial, Unknown, Blocked}
    case CheckpointHasGaps => |c.missingRanges| > 0
    case InvalidCheckpointVersion => c.version < 0
    case CoverageKeyMismatch => r.coverageKey != CoverageKeyFor(r.instrument, r.sessionScope, r.logicalDataVariant)
    case CheckpointIdentityMismatch =>
      (c.symbol, c.interval, c.sessionScope, c.logicalDataVariant)
      != (r.instrument.symbol, r.instrument.cadence, r.sessionScope, r.logicalDataVariant)
    case NoCheckpointBoundary => c.completeThrough == None
    case BoundaryOutsideRange =>
      c.completeThrough.Some? && !(r.recoveryRange.start <= c.completeThrough.value <= r.recoveryRange.end)
    case _ => false
  }

  /** A request is refused for the first rule it breaks. */
  lemma RefusalIsFirst(request: Request)
    ensures FirstBroken(RequestPlace, (rule: Fault) => RequestBreaks(request, rule), Refusal(request))
  {
  }

  // The calendar.

  /** The sessions of the scope, in opening order. */
  lemma SelectedInOrder(request: Request, calendar: Calendar)
    ensures SortedBy(OpensNoLater, SelectedSessions(request, calendar))
    ensures multiset(SelectedSessions(request, calendar)) == multiset(OfScope(calendar.sessions, request.sessionScope))
    ensures forall x :: x in SelectedSessions(request, calendar)
              <==> x in calendar.sessions && InScope(x.kind, request.sessionScope)
  {
    SelectedInScope(request, calendar);
    assert TotalPreorder(OpensNoLater);
    SortOrders(OpensNoLater, OfScope(calendar.sessions, request.sessionScope));
  }

  /** One of them is of another revision or empty, or one opens before an earlier one has closed. */
  ghost predicate Unfit(sessions: seq<Session>, revision: string) {
    || (exists x :: x in sessions && (x.calendarRevision != revision || x.closesAt <= x.opensAt))
    || exists i, j :: 0 <= i < j < |sessions| && sessions[j].opensAt < sessions[i].closesAt
  }

  lemma {:induction false} FitUpTo(sessions: seq<Session>, revision: string, i: nat, j: nat)
    requires SessionsFit(sessions, revision) && i < j < |sessions|
    ensures sessions[i].closesAt <= sessions[j].opensAt
    decreases j - i
  {
    assert SessionFits(sessions, revision, j) && SessionFits(sessions, revision, i + 1);
    if i + 1 < j { FitUpTo(sessions, revision, i + 1, j); }
  }

  lemma FitMeansNotUnfit(sessions: seq<Session>, revision: string)
    ensures SessionsFit(sessions, revision) <==> !Unfit(sessions, revision)
  {
    if SessionsFit(sessions, revision) {
      forall x | x in sessions ensures x.calendarRevision == revision && x.opensAt < x.closesAt {
        var i :| 0 <= i < |sessions| && sessions[i] == x;
        assert SessionFits(sessions, revision, i);
      }
      forall i, j | 0 <= i < j < |sessions| ensures sessions[i].closesAt <= sessions[j].opensAt {
        FitUpTo(sessions, revision, i, j);
      }
    } else {
      var i :| 0 <= i < |sessions| && !SessionFits(sessions, revision, i);
      assert sessions[i] in sessions;
    }
  }

  /** The stored boundary is neither an end of the range nor the completion of an eligible bar inside it. */
  ghost predicate OffBoundary(request: Request, calendar: Calendar, through: Instant) {
    && through != request.recoveryRange.start && through != request.recoveryRange.end
    && forall b :: request.Grid(calendar).Eligible(b) && request.recoveryRange.start <= b.start
         && b.completes <= request.recoveryRange.end
         ==> b.completes != through
  }

  ghost predicate CalendarBreaks(request: Request, calendar: Calendar, rule: Fault) {
    var r, crypto := request, request.instrument.route == CryptoBars;
    match rule
    case UnalignedCryptoBounds => crypto
    && !AlignedBounds(r.instrument.cadence, r.recoveryRange.start, r.recoveryRange.end)
    case CalendarRevisionMismatch => !crypto && calendar.revision != r.calendarRevision
    case EquityNeedsScope => !crypto && r.sessionScope == AllTrading
    case DailyNeedsRegular => !crypto && r.instrument.cadence == OneDay && r.sessionScope == PremarketScope
    case SessionsNotEligible => !crypto && Unfit(SelectedSessions(r, calendar), r.calendarRevision)
    case BoundaryNotEligible =>
      r.checkpointBefore.completeThrough.Some? && OffBoundary(r, calendar, r.checkpointBefore.completeThrough.value)
    case _ => false
  }

  function PlanPlace(rule: Fault): int {
    match rule
    case UnalignedCryptoBounds => 11
    case CalendarRevisionMismatch => 11
    case EquityNeedsScope => 12
    case DailyNeedsRegular => 13
    case SessionsNotEligible => 14
    case BoundaryNotEligible => 15
    case _ => RequestPlace(rule)
  }

  ghost predicate PlanBreaks(request: Request, calendar: Calendar, rule: Fault) {
    RequestBreaks(request, rule) || CalendarBreaks(request, calendar, rule)
  }

  lemma EnumerationFails(request: Request, calendar: Calendar)
    ensures EligibleBars(request, calendar).Err? ==>
              var found := EligibleBars(request, calendar).error;
              && CalendarBreaks(request, calendar, found) && 11 <= PlanPlace(found) <= 14
              && forall rule :: CalendarBreaks(request, calendar, rule) ==> PlanPlace(found) <= PlanPlace(rule)
    ensures EligibleBars(request, calendar).Ok? ==>
              forall rule :: CalendarBreaks(request, calendar, rule) ==> rule == BoundaryNotEligible
  {
    FitMeansNotUnfit(SelectedSessions(request, calendar), request.calendarRevision);
    SelectedInScope(request, calendar);
  }

  lemma BoundaryRule(request: Request, calendar: Calendar, through: Instant)
    requires EligibleBars(request, calendar).Ok?
    ensures OffBoundary(request, calendar, through)
       <==> !IsBoundary(request, EligibleBars(request, calendar).value, through)
  {
    var bars := EligibleBars(request, calendar).value;
    EligibleBarsSpec(request, calendar);
    if i :| 0 <= i < |bars| && bars[i].bar.completes == through {
      assert bars[i] in bars && Holds(bars, bars[i].bar);
    }
    if b :| request.Grid(calendar).Eligible(b) && request.recoveryRange.start <= b.start
            && b.completes <= request.recoveryRange.end && b.completes == through {
      assert Holds(bars, b);
      var e :| e in bars && e.bar == b;
    }
  }

  function FaultOf(planned: Result<Option<Job>>): Option<Fault> {
    if planned.Err? then Some(planned.error) else None
  }

  /** The rules of the request come before those of the calendar. */
  lemma PlacesInOrder(request: Request, calendar: Calendar, rule: Fault)
    ensures RequestBreaks(request, rule) ==> PlanPlace(rule) == RequestPlace(rule) <= 10
    ensures CalendarBreaks(request, calendar, rule) ==> PlanPlace(rule) >= 11
  {
  }

  lemma RefusedRequestFirst(request: Request, calendar: Calendar, found: Fault)
    requires Refusal(request) == Some(found)
    ensures PlanBreaks(request, calendar, found)
    ensures forall rule :: PlanBreaks(request, calendar, rule) ==> PlanPlace(found) <= PlanPlace(rule)
  {
    RefusalIsFirst(request);
    forall rule { PlacesInOrder(request, calendar, rule); }
  }

  lemma OnlyCalendarBreaks(request: Request, calendar: Calendar)
    requires Refusal(request).None?
    ensures forall rule :: PlanBreaks(request, calendar, rule) <==> CalendarBreaks(request, calendar, rule)
  {
    RefusalIsFirst(request);
  }

  /** Planning fails exactly when the request or the calendar breaks a rule, for the first rule that is broken. */
  lemma PlanningFailsFirst(request: Request, calendar: Calendar)
    ensures FirstBroken(PlanPlace, (rule: Fault) => PlanBreaks(request, calendar, rule),
                        FaultOf(PlanNext(request, calendar)))
  {
    if Refusal(request).Some? {
      RefusedRequestFirst(request, calendar, Refusal(request).value);
    } else {
      OnlyCalendarBreaks(request, calendar);
      EnumerationFails(request, calendar);
      if EligibleBars(request, calendar).Ok? {
        BoundaryRule(request, calendar, request.checkpointBefore.completeThrough.value);
      }
    }
  }

  /** Nothing is planned exactly when no eligible bar of the range completes after the boundary. */
  lemma NothingPlannedIff(request: Request, calendar: Calendar)
    requires PlanNext(request, calendar).Ok?
    ensures request.checkpointBefore.completeThrough.Some?
    ensures PlanNext(request, calendar).value.None?
       <==> forall b :: request.Grid(calendar).Eligible(b) && request.recoveryRange.start <= b.start
                        && b.completes <= request.recoveryRange.end
                        ==> b.completes <= request.checkpointBefore.completeThrough.value
  {
    EligibleBarsSpec(request, calendar);
    var bars, through := EligibleBars(request, calendar).value, request.checkpointBefore.completeThrough.value;
    var j := PendingIsSuffix(bars, through);
    if j < |bars| {
      assert bars[j] in bars && Holds(bars, bars[j].bar);
      assert Pending(bars, through)[0] == bars[j];
    } else {
      forall b | Holds(bars, b) ensures b.completes <= through {
        var e :| e in bars && e.bar == b;
        var i :| 0 <= i < |bars| && bars[i] == e;
      }
    }
  }

  /** The planned job names the request, expects the row it was given, and is for recovery. */
  lemma RecoveryJobIs(request: Request, calendar: Calendar, job: Job)
    requires PlanNext(request, calendar) == Ok(Some(job))
    ensures var c := request.checkpointBefore;
            && job.instrument == request.instrument && job.sessionScope == request.sessionScope
            && job.mode == request.mode && job.logicalDataVariant == request.logicalDataVariant
            && job.createdAt == request.createdAt && job.universeRevision == request.universeRevision
            && job.calendarRevision == request.calendarRevision && job.dueReason == HistoricalRecovery
            && job.expectation == Expectation(c.coverageKey, Some(c.version), c.completeThrough)
            && job.jobId == RecoveryJob(request.recoveryId, request.providerRevision, request.universeRevision,
                                        request.calendarRevision, request.coverageKey, job.requestedRange,
                                        request.mode)
  {
  }

  // Campaigns.

  function CampaignPlace(rule: Fault): int {
    match rule
    case EmptyCampaignId => 0
    case UncleanCheckpoint => 1
    case UnreviewedShape => 2
    case SessionIdentityMismatch => 3
    case InvalidMinuteRange => 4
    case NotAFullSession => 5
    case _ => 6
  }

  /** The frozen identity, or the frozen session, breaks the rule. */
  predicate CampaignBreaks(campaignId: string, request: Request, calendar: Calendar, session: Session, rule: Fault) {
    var c, length := request.checkpointBefore, session.closesAt - session.opensAt;
    match rule
    case EmptyCampaignId => campaignId == ""
    case UncleanCheckpoint => c.state in {Partial, Unknown, Blocked} || |c.missingRanges| > 0 || c.blocker != None
                              || c.completeThrough == None || c.version < 0
    case UnreviewedShape =>
      (request.instrument.cadence, request.sessionScope, request.maxBarsPerJob) != (OneMin, RegularScope, 100)
    case SessionIdentityMismatch =>
      !(calendar.revision == request.calendarRevision == session.calendarRevision) || session.kind != Regular
    case InvalidMinuteRange => length <= 0 || length % 60_000 != 0
    case NotAFullSession => length != 23_400_000
    case SessionOutsideRange =>
      (c.completeThrough.Some? && session.opensAt < c.completeThrough.value)
      || request.recoveryRange.end < session.closesAt
    case _ => false
  }

  lemma RefusedCampaignBreaks(campaignId: string, request: Request, calendar: Calendar, session: Session)
    ensures var found := Refused(campaignId, request, calendar, session);
            if found.Some? then CampaignBreaks(campaignId, request, calendar, session, found.value)
            else forall rule :: !CampaignBreaks(campaignId, request, calendar, session, rule)
  {
    WholeMinutesOf(TimeRange(session.opensAt, session.closesAt));
  }

  lemma NoEarlierRule(campaignId: string, request: Request, calendar: Calendar, session: Session, rule: Fault)
    requires Refused(campaignId, request, calendar, session).Some?
    requires CampaignBreaks(campaignId, request, calendar, session, rule)
    ensures CampaignPlace(Refused(campaignId, request, calendar, session).value) <= CampaignPlace(rule)
  {
    WholeMinutesOf(TimeRange(session.opensAt, session.closesAt));
  }

  /** A campaign is refused before anything is planned for the first rule it breaks. */
  lemma CampaignRefusedFirst(campaignId: string, request: Request, calendar: Calendar, session: Session)
    ensures FirstBroken(CampaignPlace, (rule: Fault) => CampaignBreaks(campaignId, request, calendar, session, rule),
                        Refused(campaignId, request, calendar, session))
  {
    RefusedCampaignBreaks(campaignId, request, calendar, session);
    if Refused(campaignId, request, calendar, session).Some? {
      forall rule | CampaignBreaks(campaignId, request, calendar, session, rule)
        ensures CampaignPlace(Refused(campaignId, request, calendar, session).value) <= CampaignPlace(rule)
      {
        NoEarlierRule(campaignId, request, calendar, session, rule);
      }
    }
  }

  lemma WholeMinutesOf(range: TimeRange)
    ensures BarCount(range).Some? <==> range.end - range.start > 0 && (range.end - range.start) % 60_000 == 0
    ensures BarCount(range) == Some(390) <==> range.end - range.start == 23_400_000
  {
  }

  /** A reading is exact when it is the identity's row moved to the mark: complete, without gaps or blocker, and with
      nothing else changed but its stamps. */
  lemma ExactMeans(actual: StoredCheckpoint, identity: StoredCheckpoint, mark: Mark)
    ensures Exact(actual, identity, mark)
       <==> mark.version >= 0
            && actual == identity.(completeThrough := Some(mark.completeThrough), version := mark.version,
                                   state := Complete, missingRanges := [], blocker := None,
                                   lastSuccessAt := actual.lastSuccessAt, lastAttemptAt := actual.lastAttemptAt,
                                   retryNotBefore := actual.retryNotBefore,
                                   sourceObservedThrough := actual.sourceObservedThrough)
  {
  }
}
