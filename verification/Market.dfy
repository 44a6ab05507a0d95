/** Vocabulary shared by the acquisition pipeline.  Instants are UTC milliseconds: a canonical
    ISO-8601 string orders exactly like the number it denotes. */
module Market {
  datatype Option<+T> = None | Some(value: T)

  /** Why an operation threw: one constructor for each message, and `ProviderFailed` for whatever a
      provider throws. */
  datatype Fault =
    | ProviderFailed(message: string)
    // schedule and execution
    | InvalidPolicy | InvalidScope | PageLimitExceeded | BarLimitExceeded | UnrequestedSymbol | RepeatedPageToken
    | InvalidAbsenceEvidence | AbsenceOffGrid | CompareAndSetConflict
    // checkpoint and bar store
    | InvalidProposal | InvalidExpectedVersion | TooManyKeys | InvalidProvenance | IdempotencyMismatch
    // historical recovery
    | EmptyField | InvalidMaxBars | EmptyRecoveryRange | CheckpointKeyMismatch | CheckpointNotComplete
    | CheckpointHasGaps | InvalidCheckpointVersion | CoverageKeyMismatch | CheckpointIdentityMismatch
    | NoCheckpointBoundary | BoundaryOutsideRange | BoundaryNotEligible | CalendarRevisionMismatch
    | EquityNeedsScope | DailyNeedsRegular | SessionsNotEligible | UnalignedCryptoBounds
    // recovery campaign
    | EmptyCampaignId | UncleanCheckpoint | UnreviewedShape | SessionIdentityMismatch | InvalidMinuteRange
    | NotAFullSession | SessionOutsideRange | PlannerEndedEarly | SessionCrossed | TooManyJobs | WrongTotal
    | CheckpointMissing | NotResumable | CheckpointMismatch | ResponseMismatch | PersistedMismatch
    // local evidence
    | InvalidEvidenceRange | BeyondFrozenSession | EvidenceKeyMismatch | ForeignIdentity

  /** The outcome of an operation that may throw. */
  datatype Result<+T> = Ok(value: T) | Err(error: Fault)

  type Instant = int

  datatype Cadence = OneMin | FifteenMin | OneDay

  datatype Route = StockBars | CryptoBars

  datatype SessionKind = Premarket | Regular | AfterHours

  datatype SessionScope = PremarketScope | RegularScope | AllTrading

  datatype Session = Session(marketDate: string, kind: SessionKind, opensAt: Instant, closesAt: Instant,
                             isShortened: bool, calendarRevision: string)

  datatype Calendar = Calendar(revision: string, sessions: seq<Session>)

  datatype Instrument = Instrument(symbol: string, cadence: Cadence, route: Route)

  /** Half-open range of instants. */
  datatype TimeRange = TimeRange(start: Instant, end: Instant)

  /** One bar of the grid: identity start and completion instant. */
  datatype Bar = Bar(start: Instant, completes: Instant)

  function IntervalMs(cadence: Cadence): (ms: int)
    ensures ms >= 60_000
  {
    match cadence
    case OneMin => 60_000
    case FifteenMin => 900_000
    case OneDay => 86_400_000
  }

  /** `session.sessionKind === scope` on the two string enumerations. */
  predicate InScope(kind: SessionKind, scope: SessionScope) {
    (kind == Premarket && scope == PremarketScope) || (kind == Regular && scope == RegularScope)
  }

  /** The calendar snapshots this model ranges over: sessions are non-empty, and those of one kind are
      disjoint and listed in opening order, as `getCalendar` sorts them. */
  ghost predicate WellFormedSessions(sessions: seq<Session>) {
    && (forall i :: 0 <= i < |sessions| ==> sessions[i].opensAt < sessions[i].closesAt)
    && (forall i, j :: 0 <= i < j < |sessions| && sessions[i].kind == sessions[j].kind
          ==> sessions[i].closesAt <= sessions[j].opensAt)
  }

  function Max(a: int, b: int): int { if a >= b then a else b }

  function Min(a: int, b: int): int { if a <= b then a else b }
}
