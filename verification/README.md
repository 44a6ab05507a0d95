# Market-bar coverage and recovery, verified

This project models the part of the repository that decides which market bars are acquired, stored and
certified as covered, and proves what the design relies on. `dafny verify dfyconfig.toml` checks all of it.

Instants are integer milliseconds, in the Python contracts microseconds (canonical ISO strings order like the
numbers they denote), D1 tables are maps, one SQL statement is one atomic step, and hashes (SHA-256 fingerprints, job
ids) are injective: they are modelled by the data they digest. A thrown error is the `Err` of a `Result`; its text is a
constructor of `Market.Fault`.

## How the model is laid out

- `Market`, `Ordering`, `Counting`, `Rules`, `SessionGrid`, `MissingRanges`: instants, sessions, sorting, counting,
  validation by ordered rules, the grid of bars a stream expects, and the ledger of missing ranges.
- `Checkpoint`: the checkpoint table as a class with versioned, monotone compare-and-set, single and bulk.
- `Schedule`, `PlannedWindows`, `Planner`, `Boundary`: demand and clamping, which window is planned told without those
  steps, the planning loop, and how the finalised boundary moves.
- `BarNormalization`, `BarStore`, `BarStoreSafety`: the grid test of one bar, the idempotent store as a class
  whose methods run statement by statement, and a state machine that interleaves and crashes those statements.
  `SoloWorker`: left alone, the machine does what the class does.
- `Execution`, `Tallies`, `Executor`, `PageRuns`: the proposal computed from what was served, the totals of a page, the
  page loop, acceptance and commit over an arbitrary provider, and exactly when the loop succeeds.
- `CoverageProtocol`: any number of workers, with plan, recover, accept, read, commit and crash as separate steps and
  no lease. `StoredCoverage`: the same protocol over the real tables, where accepting is the SQL statements of
  `BarStoreSafety`, interleaved one by one with everything else, and only the canonical table counts as stored.
  `CertifyingRuns`: runs of both machines that reach a certified row.
- `CatchUp`, `CatchUpRounds`, `CatchUpStretches`, `CatchUpDaily`, `CatchUpLimits`, `ServedPages`: the planner and
  executor iterated with the clock standing still, one round in closed form, for which configurations that ends, and
  why a round that is served in full is what the page loop commits.
- `Recovery`, `RecoveryChunks`, `RecoveryCrypto`, `RecoveryRules`, `Campaign`, `CampaignRun`: the one-chunk-at-a-time
  planner, what its iteration adds up to, its closed form for continuous trading, why it refuses, the frozen campaign,
  and the runner over ports that may answer anything.
- `LocalHistory`, `LocalEvidence`, `Pb04`, `Pb04Prediction`, `SimulatedStore`: the session validator, splitting
  evidence by chunk, the dry-run packet, the simulation over in-memory ports (a class holding `current` and
  `accepted`), the proof that the packet predicts the simulation, and that the ports do what the real executor does.
- `WallClock`: the two-pass offset resolution. `PageChain`, `PageCheckpoint`, `FactStore`: the Python contracts
  for cursor chains, their durable checkpoint, and the fact store.

## Hypotheses and findings

Calendars: the sessions of one kind are non-empty, disjoint and listed in opening order, as `getCalendar` sorts
them (`Market.WellFormedSessions`). Recovery planning does not assume this; it checks its own sessions. Symbols: over the
tables a coverage key must name one instrument, so `StoredCoverage` fixes which symbol each key names and plans no
other under it; symbols without the separator `|` are always named by their keys
(`StoredCoverage.PlainSymbolsAreNamed`), with it keys can collide (`StoredCoverage.KeysCollide`).

Where a promise needs more than the code checks, the project says exactly what:

- Catch-up does not end for every configuration `validateConfig` accepts. `CatchUpLimits.CatchUpEndsIff` says exactly
  when it does, from every reachable row. For crypto and intraday equities: every session ahead (for crypto, the one
  stretch from the floor to the boundary) is a whole number of bars long, holds a whole bar above the retention floor,
  and either the overlap plus one bar fits into a job or one job covers it (in closed form for crypto,
  `CatchUpLimits.CryptoEndsIff`). For daily equities: the first close ahead is within reach of a job from where the
  stream stands, and so is, from every close ahead, the next one, which long weekends can break. A round that does
  not move is repeated for ever (`CatchUpRounds.StuckForEver`). Inputs that stall: `CatchUpLimits.NarrowJobStalls`,
  `CutBarStalls`, `TailedStreamStalls` and, for daily bars, `WeekendStalls`.
- The finalised boundary of an intraday equity stream is not monotone in time: it drops back before the opening
  when the session closes and returns after the finalisation lag (`Boundary.BoundaryFallsBackAtClose`). It is
  monotone between two instants exactly when the later one is not blind for the session the earlier boundary lies in
  (`Boundary.BoundaryMonotoneIff`). While a session is open, blind means that it has not yet been open for an interval
  plus the lag, or is shorter than an interval; while none is open, that the own session closed less than the lag ago,
  or that the latest session closed for that long is shorter than an interval (`Boundary.Blind`).
- A proposal passes validation if and only if no expected bar that straddles the stored boundary went unserved
  (`Execution.ProposalAdmissible`; `Execution.StraddledProposalRefused` is refused). Reachable boundaries are never
  straddled.
- The calendar-revision and session-scope guards of historical recovery are never reached for crypto, although
  the messages say crypto recovery needs the `ALL_TRADING` scope: what is planned depends on neither
  (`RecoveryCrypto.CryptoPlanned`), it is refused exactly under `RecoveryCrypto.CryptoPlansIff`, and
  `RecoveryCrypto.ForeignScopeIsPlanned` is planned with the `REGULAR` scope and a calendar of another revision.
- A fully served frozen chunk passes the runner's check afterwards if and only if the executor's feed and
  universe revision are those of the frozen identity (`Campaign.ServedChunkPasses`). A campaign freezes without
  them: `Campaign.IdentityDecides` gives one for every variant and universe revision.
- A page can be checkpointed if and only if its keys and cursor are well-formed (`PageCheckpoint.StopAndResume`); a
  cursor of white space, which the loop itself follows, cannot be saved
  (`PageCheckpoint.BlankCursorCannotBeSaved`).
- A stored record that restores need not be the record that would be stored: it is exactly when its dates and its
  delay are written canonically (`PageCheckpoint.RestoredIsNormalised`), and other texts for the same instant are
  accepted (`PageCheckpoint.OtherTextIsAccepted`): `fromisoformat` reads "2026-01-01 00:00:00+00:00", with a space,
  which `isoformat` writes with a "T".
- A wall time that occurs twice resolves to its first occurrence exactly when, read as UTC, it comes before the
  change (`WallClock.RepeatedTime`): always in New York, not always east of Greenwich
  (`WallClock.SecondOccurrenceEast`). That the offset changes once is needed (`WallClock.TwoChangesCanMiss`), and
  holds of the one zone the repository resolves.
- An as-of view can show a derived metric without the metric it supersedes
  (`FactStore.DerivedHistoryCanBeHidden`); for every other record type it holds the whole history.

## Model

| member | source | states |
|---|---|---|
| SessionGrid.ExpectedBars | src/execution.ts:47-79 | the two nested loops return, in order and each once, exactly the calendar-eligible bars of the range |
| SessionGrid.ExpectedSpec | src/execution.ts:47-79 | membership in the enumeration is eligibility plus the range test, for crypto, intraday and daily streams |
| SessionGrid.EligibleDisjoint | src/execution.ts:54-76 | distinct bars of one grid never overlap |
| MissingRanges.MergeMissing | src/execution.ts:81-91 | the loop that extends the last range in place computes the merge of the ranges sorted by start |
| MissingRanges.MergeIsNormalForm | src/execution.ts:81-91 | the merge is sorted, non-touching, non-empty, and covers exactly the input |
| MissingRanges.NormalFormUnique | src/execution.ts:81-91 | there is only one such form, so the ledger is determined by which instants are missing |
| Checkpoint.D1CoverageCheckpointPort.CompareAndSet | src/checkpoint.ts:263-314 | when the expectation fits the row and the boundary does not fall back, the row becomes the whole proposal under version 0 or the next one, which is returned; otherwise, and on invalid input, nothing changes; no other row ever does |
| Checkpoint.D1CoverageCheckpointPort.CompareAndSetMany | src/checkpoint.ts:316-370 | on distinct keys: every key is settled like that on its own, rows not named stay, and the table is the one independent calls leave in any order |
| Checkpoint.OneByOnePointwise | src/checkpoint.ts:263-314 | after independent calls each row depends only on its own update |
| Checkpoint.OrderIrrelevant | src/checkpoint.ts:316-370 | any two orders of the same updates leave the same table |
| Checkpoint.BulkRowIsCompareAndSet | src/checkpoint.ts:331-362 | SELECT, conflict clause and version subquery together act on one payload row as a single compare-and-set |
| Checkpoint.ValidMeansAhead | src/checkpoint.ts:169-185 | a proposal is valid exactly when its names and ranges are not empty and no missing instant lies behind its boundary |
| Schedule.BoundaryIsFinal | src/schedule.ts:148-179 | the boundary is a bar completion at least the finalisation lag before now |
| Boundary.BoundaryIsLatest | src/schedule.ts:138-179 | every bar that completed a lag ago is below the boundary: always for crypto and daily streams, and for intraday equities exactly unless a session has just opened or the bar's session has just closed |
| Boundary.BoundaryFallsBackAtClose | src/schedule.ts:138-174 | a tick before the close the boundary is inside the session, at the close it is before the opening |
| Boundary.BoundaryMonotoneIff | src/schedule.ts:138-179 | the boundary of crypto and daily streams never goes back; that of an intraday equity stream does not exactly when the later instant is outside the blind spots of the session the earlier boundary lies in |
| Schedule.NextSessionSpec | src/schedule.ts:208-219 | the picked session is the first to open among those that close after the anchor and open before the boundary |
| Schedule.PlannedWindowIsBoundedAndFinal | src/schedule.ts:249-311 | a planned range is non-empty, inside retention, final, inside one session for intraday equities, and holds at most `maxBarsPerJob` intraday or crypto bars |
| Schedule.PlanLeavesNoHole | src/schedule.ts:263-305 | an eligible bar behind the planned range is claimed by the checkpoint or older than the retention floor |
| PlannedWindows.PlannedWindowIs | src/schedule.ts:263-311 | exactly which window is planned: for the earliest gap that can be filled, else from nothing, else forward, with mode and reason; it starts at the largest and ends at the least of the bounds that apply: floor, overlap, opening, and boundary, gap end, close, room of a job |
| Planner.Plan | src/schedule.ts:229-339 | fails exactly on an invalid configuration or an `ALL_TRADING` equity scope; otherwise exactly one job for each instrument that is due, for the window of the row under its key and expecting that row, each bounded and final, in the order of the job ids |
| StoredCoverage.KeysTell | src/schedule.ts:130-136 | for symbols without a separator, equal coverage keys mean equal symbol, cadence, scope and variant |
| BarNormalization.NormalizedIsEligible | src/bar.ts:91-159 | whatever normalises is a bar of the calendar-eligible grid |
| BarNormalization.NormalizesIffExpected | src/bar.ts:105-148 | an intraday or crypto bar with valid values normalises exactly when the executor's enumeration expects a bar starting there |
| BarNormalization.NormalizesIffNothingApplies | src/bar.ts:91-148 | a bar of any cadence normalises exactly when none of the messages has a reason, and a rejected bar is given a message that has one |
| BarNormalization.NormalizedBarSays | src/bar.ts:106-158 | numbers, variant and timestamp are kept; a crypto bar has the UTC date, an equity bar the date and shortening of its session |
| BarStore.D1NormalizedBarStore.Accept | src/bar-store.ts:221-318 | resumes a half-finished acceptance, returns a finished one unchanged, rejects a reused key for another observation; otherwise answers truly: INSERTED exactly for a new bar, MATCHED when the canonical bar has the observed content, CONFLICT when it differs, with a row naming the stored and the observed content |
| BarStore.D1NormalizedBarStore.AcceptBatch | src/bar-store.ts:91-219 | the same for a whole batch: each row is answered truly, canonical bars grow by the first row of each new bar, conflicts by the rows that contradict theirs, nothing else changes, and the tables and answers are those of settling the rows one after the other |
| BarStore.BatchRefinesOneByOne | src/bar-store.ts:91-219 | from any sound store a batch leaves the receipts, canonical bars, conflicts and results of one-by-one acceptance in input order, repeats of one identity included |
| BarStore.SettleIdempotent | src/bar-store.ts:248-262 | settling a finished receipt again changes nothing |
| BarStore.SettledSound | src/bar-store.ts:150-207 | settling keeps every completed receipt true of the tables and completes every row of the batch |
| BarStore.CanonicalStable | src/bar-store.ts:131-149 | first writer wins: a canonical bar is never replaced |
| BarStore.SettledTables | src/bar-store.ts:113-207 | what a batch leaves behind, told by the observations and the tables before it alone |
| BarStore.FingerprintsTell | src/bar-store.ts:53-71 | equal fingerprints mean equal values, end, market date, scope and variant, and nothing else |
| BarStore.ReusedKey | src/bar-store.ts:243-247 | a reserved key fits a later row exactly when it observes the same bar with the same content or was rejected for the same reason |
| BarStoreSafety.ReceiptsTellTheTruth | src/bar-store.ts:113-207 | in every interleaving with crashes each completed receipt answers an observation begun under its key, truly: INSERTED and MATCHED mean the canonical bar has its content, CONFLICT that it differs and the conflict row names both contents in order, REJECTED that it does not normalise; no bar is reported INSERTED twice, and each canonical bar was observed |
| BarStoreSafety.HistoryIsImmutable | src/bar-store.ts:113-207 | from any point of any run on, canonical bars, conflict rows and completed receipts never change |
| SoloWorker.AloneIsBatch | src/bar-store.ts:113-207 | a worker that nobody disturbs leaves, statement by statement, the tables of one batch |
| Execution.UnservedSpec | src/execution.ts:190-193 | the missing bars are the expected ones past the boundary that were neither accepted nor acknowledged |
| Execution.AdvanceSpec | src/execution.ts:194-199 | the advance never goes back, passes only served bars, and stops by the first unserved one |
| Execution.AdvanceReaches | src/execution.ts:194-199 | and it reaches every bar up to which all are behind the boundary or served |
| Execution.LedgerSpec | src/execution.ts:190-209 | the proposed ledger is the normal form covering exactly the missing bars, and the state is COMPLETE exactly when it is empty |
| Execution.ProposalRecordsGaps | src/execution.ts:190-209 | an expected bar is in the proposed ledger exactly when it is past the boundary and was neither accepted nor acknowledged |
| Execution.ProposalStamps | src/execution.ts:200-216 | the stream, version and stamps of a proposal: success and retry times follow its completeness, the source was observed to the end of the last expected bar |
| Execution.GapsAheadIff | src/checkpoint.ts:169-185 | no gap starts before the proposed boundary if and only if no straddling bar went unserved |
| Execution.ProposalAdmissible | src/checkpoint.ts:169-185 | for any page contents the proposal never lowers the boundary and passes validation exactly when no straddling bar went unserved |
| Execution.StraddledProposalRefused | src/checkpoint.ts:169-185 | a boundary inside an unserved bar is refused |
| Executor.AcceptPage | src/execution.ts:150-167 | one page: fails exactly on an idempotency mismatch; otherwise rejected grows by the bars that do not normalise, conflicts by those whose canonical bar has other content, inserted and matched by those whose canonical bar has theirs, inserted by the bars new to the table, and the starts are those of the bars held |
| Executor.CollectPages | src/execution.ts:124-171 | the page loop ends within its page and bar limits whatever the provider replies; totals and served starts are those of all bars it delivered, judged by the tables left behind, and on a first attempt inserted is the number of canonical bars added |
| PageRuns.CollectIff | src/execution.ts:124-171 | the loop succeeds with n pages exactly when the chain of tokens ends there within both limits, every page fetched, of the requested symbol, on keys no other observation took, and no token sent twice |
| PageRuns.CollectFailsIff | src/execution.ts:124-171 | and it fails with an error exactly when the pages go on to the first one with which that is wrong |
| Executor.ReceiptKeysUnique | src/execution.ts:146-149 | no two bars of an attempt share an idempotency key, on whatever pages they came |
| Executor.Propose | src/execution.ts:190-210 | the loops compute the specified proposal and the number of missing bars |
| Executor.ExecuteAcquisitionJob | src/execution.ts:93-240 | succeeds exactly when absences, pages, limits, validation and version all fit; then its totals are those of the delivered bars and one row changes, to the whole proposal under the next version with a ledger of exactly the unserved bars past the boundary; otherwise no checkpoint changes |
| CoverageProtocol.RunInvariant | src/execution.ts:173-218 | every step of any worker, historical recovery included, keeps the invariant that ties checkpoints, stored bars and jobs in flight |
| CoverageProtocol.CoverageIsSound | src/execution.ts:173-218 | in every interleaving `completeThrough` certifies only bars that were stored, acknowledged absent, or below the retention floor of a committed job |
| CoverageProtocol.GapLedgerIsComplete | src/execution.ts:190-209 | although every commit replaces the ledger, a bar before the end of the last gap and outside all gaps is never one that nobody obtained |
| CoverageProtocol.NothingObservedIsForgotten | src/execution.ts:190-216 | in every run an eligible bar up to `sourceObservedThrough` is stored, acknowledged, expired, or in the gap ledger |
| CoverageProtocol.CommitRecordsGaps | src/execution.ts:190-218 | a commit writes the whole proposal under the next version, its ledger exactly the bars past the boundary that the worker neither served nor acknowledged, and no other row |
| CoverageProtocol.CommitRefusedOnlyByVersion | src/checkpoint.ts:263-314 | in a reachable state a commit is refused exactly when the version or the existence of the row changed since planning |
| RecoveryChunks.RecoveryLeavesNoHole | src/historical-recovery.ts:154-165 | an eligible bar that a recovery job passes over is behind the checkpoint it was planned from |
| CertifyingRuns.CertifyingRun | src/execution.ts:173-218 | planning, accepting, reading and committing take the empty protocol to a certified row |
| StoredCoverage.RunInvariant | src/execution.ts:124-218 | any interleaving of planning, recovery, the single statements of page acceptance, reading back, commits and crashes keeps the store invariant and, seen through the canonical table, the invariant of the protocol |
| StoredCoverage.CertifiedIsStored | src/execution.ts:150-218 | end to end, a bar certified by `completeThrough`, or outside all gaps and before the end of the last one or of what was observed, is in the canonical table under a data variant its stream carries, acknowledged absent, or expired |
| StoredCoverage.CertifiedUnderVariant | src/execution.ts:150-218 | when the pages of each stream carry one data variant, as the provider adapter passes it through, the canonical bar has exactly that variant |
| StoredCoverage.StoredForEver | src/bar-store.ts:113-207 | along such a run canonical bars, conflicts and completed receipts never change, so what was certified stays stored |
| CertifyingRuns.StoredCertifyingRun | src/execution.ts:124-218 | planning, the six statements of a page, reading back, and committing take the empty tables to a certified row |
| CatchUp.PlannedRangeHoldsNewBar | src/schedule.ts:263-311 | every planned range holds an eligible bar the boundary has not passed |
| CatchUp.RoundAdvances | src/schedule.ts:229-339 | under the stated hypotheses a fully served round commits a clean, strictly later boundary and leaves strictly fewer bars |
| CatchUp.NoJobMeansNothingRemains | src/schedule.ts:263-305 | when nothing is planned, no bar inside retention and below the boundary is left |
| CatchUp.CatchUpEnds | src/schedule.ts:229-339 | for crypto and intraday equities under the stated hypotheses, from rows with or without gaps: catch-up ends after at most as many rounds as there are bars left, with nothing left and every round moving |
| CatchUpLimits.ForwardRoundNeedsRoom | src/schedule.ts:181-195 | away from the floor and without gaps a crypto round moves the boundary if and only if overlap plus one interval fits into a job |
| CatchUpLimits.PartialTailNeverEnds | src/schedule.ts:208-219 | at the partial tail of a session the planner emits jobs for ever and the boundary stays |
| CatchUpRounds.RoundTakes | src/execution.ts:190-209 | a fully served round of any stream leaves no gap and takes the boundary to the last completion of its range if that is later |
| CatchUpStretches.RoundReaches | src/schedule.ts:263-311 | for crypto and intraday equities and every valid configuration: a forward round takes the boundary to the last whole step of its range if the next bar still to come fits into it, and otherwise moves nothing |
| CatchUpDaily.DailyRound | src/schedule.ts:263-311 | for daily equities and every valid configuration: a forward round moves exactly when the first close ahead is within reach of the job, and then to the last close that is |
| CatchUpRounds.StuckForEver | src/schedule.ts:263-311 | for any stream, a round that moves nothing is planned again, unchanged, for ever |
| CatchUpLimits.CatchUpEndsIff | src/schedule.ts:229-339 | for every stream, daily equities included, every valid configuration and every reachable row: catch-up ends exactly when every stretch ahead is passable (crypto, intraday) or every close ahead is within reach of the one before (daily), judged from the row or, behind an actionable gap, from where its first round takes it |
| CatchUpLimits.ForwardEnds | src/schedule.ts:229-339 | then, from a row without actionable gaps, it ends within as many rounds as there are bars left, every round moves, and nothing is left |
| CatchUpLimits.IdleMeansNothingRemains | src/schedule.ts:263-305 | for every stream and configuration, a row without actionable gaps for which nothing is planned has no bar left |
| CatchUpLimits.CryptoEndsIff | src/schedule.ts:176-195 | from nothing a crypto stream catches up exactly when the boundary is not above the floor, or a whole bar lies between them and overlap plus one bar or everything fits into a job |
| CatchUpLimits.NarrowJobStalls | src/schedule.ts:181-195 | an overlap of two bars in jobs of two bars never catches up |
| CatchUpLimits.CutBarStalls | src/schedule.ts:252-261 | a floor inside the only final bar never catches up |
| CatchUpLimits.TailedStreamStalls | src/schedule.ts:208-219 | a session of a minute and a half before a later one never catches up |
| CatchUpLimits.WeekendStalls | src/schedule.ts:181-195 | a Friday and a Monday of daily bars, an overlap of one day and jobs of three days never catch up |
| ServedPages.CollectServes | src/execution.ts:124-171 | a page loop that meets no conflicting bar serves exactly the delivered bars that normalise |
| ServedPages.ServedRoundIsExecuted | src/execution.ts:173-218 | when the provider delivers the planned grid and no bar conflicts, the proposal passes validation and the row the executor commits is the row of a fully served round |
| ServedPages.GridPageIsServed | src/execution.ts:124-171 | one page holding the whole grid, within the limits and on unused receipt keys, is collected and serves the grid |
| Recovery.CheckSessions | src/historical-recovery.ts:54-80 | the validation loop accepts exactly sessions of the frozen revision that are non-empty and in order |
| Recovery.EnumerateEligible | src/historical-recovery.ts:82-110 | the loops enumerate the specified bars, continuous or session by session |
| Recovery.EligibleBarsSpec | src/historical-recovery.ts:82-110 | in order and grouped by session, exactly the eligible bars that lie inside the frozen range |
| RecoveryChunks.ChunkStep | src/historical-recovery.ts:159-165 | a chunk is the head of what is pending, in one session, as long as `maxBarsPerJob` or the session allows, and its commit leaves exactly the rest |
| RecoveryChunks.JobsFollowRanges | src/historical-recovery.ts:119-189 | planning and committing again and again never meets an error and stops |
| RecoveryChunks.ChunksPartition | src/historical-recovery.ts:119-189 | the chunks hold in order exactly the pending bars, each non-empty, in one session and bounded, and number the sum over sessions of ceil(pending / maxBarsPerJob) |
| RecoveryChunks.GridsAgree | src/historical-recovery.ts:82-110 | on every planned chunk the executor's enumeration equals the chunk's bars, daily and crypto included |
| RecoveryChunks.ServedChunkCommits | src/execution.ts:190-218 | a fully served chunk commits, on the frozen version, a complete gap-free row at exactly the chunk's end |
| RecoveryCrypto.CryptoPlanned | src/historical-recovery.ts:82-165 | for crypto the plan has a closed form that mentions neither the calendar nor the session scope beyond the coverage key |
| RecoveryCrypto.CryptoPlansIff | src/historical-recovery.ts:86-154 | a crypto recovery is accepted exactly when the request's own guards pass, the bounds are aligned, and so is the checkpoint |
| RecoveryCrypto.ForeignScopeIsPlanned | src/historical-recovery.ts:54-63 | a `REGULAR` scope and a calendar of another revision are planned, against the messages of the unreached guards |
| RecoveryRules.PlanningFailsFirst | src/historical-recovery.ts:54-157 | planning fails exactly when the request or the calendar breaks a rule, with the error of the first rule broken |
| RecoveryRules.NothingPlannedIff | src/historical-recovery.ts:158-160 | nothing is planned exactly when no eligible bar of the range completes after the boundary |
| RecoveryRules.CampaignRefusedFirst | src/historical-recovery-campaign.ts:173-192 | freezing is refused before planning exactly for the first rule the identity, checkpoint, shape or session breaks |
| RecoveryRules.ExactMeans | src/historical-recovery-campaign.ts:131-161 | an exact checkpoint is the frozen identity moved to the mark, complete, gap-free and unblocked, with nothing else changed but its stamps |
| Campaign.Freeze | src/historical-recovery-campaign.ts:173-220 | the freezing loop computes the specified campaign or the specified error |
| Campaign.FrozenTilesSession | src/historical-recovery-campaign.ts:194-219 | a campaign that freezes is four chunks that tile the session without gap or overlap, 390 minutes in all, linked checkpoint to checkpoint |
| Campaign.LinkedVersions | src/historical-recovery-campaign.ts:202-213 | chunk versions count up by one and each chunk ends where the next begins |
| Campaign.FullSessionFreezes | src/historical-recovery-campaign.ts:173-220 | an acceptable equity request standing before a listed 390-minute session freezes into 100, 100, 100 and 90 minutes |
| Campaign.FrozenJob | src/historical-recovery-campaign.ts:194-213 | each frozen chunk is the job the planner emits at its turn |
| Campaign.ServedChunkPasses | src/historical-recovery-campaign.ts:149-161 | executing a chunk from any row the runner accepts commits the frozen mark, and the runner accepts the result exactly when feed and universe revision are the frozen ones |
| Campaign.IdentityDecides | src/historical-recovery-campaign.ts:149-161 | a one-session campaign freezes for every variant and universe revision, and its first chunk, fully served, passes exactly for the executor's own |
| CampaignRun.RunChunk | src/historical-recovery-campaign.ts:267-307 | succeeds exactly when both readings are exact, the answer and the inspection are exactly those of the frozen chunk, and their record was persisted, and returns that record; it invokes exactly after an exact first reading |
| CampaignRun.ReadStart | src/historical-recovery-campaign.ts:254-264 | begins exactly on a clean checkpoint of the frozen identity at a frozen boundary |
| CampaignRun.Run | src/historical-recovery-campaign.ts:250-309 | for any ports: completes exactly when the run can begin and every remaining chunk can be performed; each record was persisted and tells of its chunk, answer and inspection; invocations are one run of consecutive frozen chunks from the resume point, at most one ahead of the persisted records; at completion the last reading is at the final mark |
| CampaignRun.ResponseFitsExactly | src/historical-recovery-campaign.ts:222-247 | only the answer that reports exactly the frozen chunk passes, whatever its split, its pages within the limit and its spending within the budget |
| CampaignRun.NoChunkInvokedTwice | src/historical-recovery-campaign.ts:267-276 | no two frozen chunks have the same invocation |
| CampaignRun.ResumePointIsUnique | src/historical-recovery-campaign.ts:257-261 | a checkpoint fits at most one resume point |
| CampaignRun.RecordsAccountForBars | src/historical-recovery-campaign.ts:288-306 | the records of a completed run account for exactly the remaining bars |
| LocalHistory.ValidateRegularSession | src/local-history-collector.ts:79-120 | the loop over seen texts, the filters and the sorted timestamps compute the specified report |
| LocalHistory.ReportSays | src/local-history-collector.ts:79-120 | how often each text is reported as repeated and as out of range, and which minutes, in order, are missing |
| LocalHistory.FirstAndLastBound | src/local-history-collector.ts:106-112 | the first and last timestamps reported are of the session and bound every other; the first is missing exactly when a text is empty |
| LocalHistory.CountsAreExact | src/local-history-collector.ts:99-119 | the counted equation holds exactly when all instants are on the grid and pairwise distinct |
| LocalHistory.StructurallyValidIff | src/local-history-collector.ts:117-119 | structurally valid exactly when the instants are distinct, on the minute grid and before the end, although duplicates are tested on texts |
| LocalHistory.BarsAndMissingPartition | src/local-history-collector.ts:99-104 | bars and missing minutes partition the grid |
| LocalHistory.DenseIff | src/local-history-collector.ts:115-119 | dense is structurally valid with nothing missing |
| LocalEvidence.PageCount | src/local-history-evidence.ts:132-137 | bars of a chunk's page and its missing minutes add up to its minutes |
| LocalEvidence.FetchPageIff | src/local-history-evidence.ts:114-139 | the evidence answers exactly for its symbol and a non-empty range inside the session, with exactly the bars that start there |
| LocalEvidence.MissingBetween | src/local-history-evidence.ts:142-156 | filtering the absences of the session by a chunk gives the absences of the chunk |
| Pb04.Execute | src/execution.ts:173-233 | the executor over the simulated ports: one page, acceptance, comparison, compare-and-set |
| Pb04.SimulatedPorts.AcceptBatch | src/local-history-pb04-simulation.ts:113-125 | a start seen before is matched, a new one inserted, a rejected bar neither |
| Pb04.SimulateSession | src/local-history-pb04-simulation.ts:58-162 | the loop over at most four rounds computes the specified simulation |
| Pb04Prediction.ChunkExecutes | src/local-history-pb04-simulation.ts:91-141 | executing a chunk inserts every local bar of it, misses nothing and commits at its end |
| Pb04Prediction.SimulationRuns | src/local-history-pb04-simulation.ts:64-162 | the simulation ends COMPLETE at the close, four versions on |
| Pb04Prediction.PacketPredictsSimulation | src/local-history-pb04.ts:121-161 | ranges, checkpoints and counts of the packet are those of the simulation, chunk by chunk, and the bars inserted are all the local bars |
| Pb04Prediction.PacketBuiltIff | src/local-history-pb04.ts:66-121 | a packet can be built exactly for the frozen identity, a clean checkpoint not past the opening, non-empty names and a 390-minute session |
| Pb04Prediction.PacketFailsFirst | src/local-history-pb04.ts:66-121 | and otherwise the error is that of the first thing wrong with the checkpoint, or that of freezing |
| SimulatedStore.PageIsSimulated | src/local-history-pb04-simulation.ts:113-125 | without conflicts the in-memory acceptance and the real store give a page the same counts and starts, and keep mirroring each other |
| SimulatedStore.ExecutedIsReal | src/local-history-pb04-simulation.ts:91-141 | a simulated execution is what the real page loop, absence check and compare-and-set do over a store that holds what the simulation remembers |
| WallClock.MarketLocalInstant | src/calendar.ts:87-100 | the loop of two passes computes the twice-corrected instant |
| WallClock.TwoPassesSuffice | src/calendar.ts:94-98 | with one offset change in the surrounding days the result shows the wall time if and only if any instant does |
| WallClock.UniqueInstantIsFound | src/local-history-collector.ts:57-65 | when exactly one instant shows the wall time, it is the result |
| WallClock.FirstOccurrence | src/calendar.ts:94-98 | with a non-positive offset before the change a repeated time resolves to its first occurrence |
| WallClock.RepeatedTime | src/calendar.ts:94-98 | a wall time shown on both sides of the change resolves to the first occurrence exactly when, read as UTC, it is before the change, otherwise to the second |
| PageChain.CollectPages | analysis/app/orderscope_local/contracts/provider.py:227-260 | the loop ends within `max_pages`, only its last page is final, and it computes the specified chain or error |
| PageChain.CollectedIff | analysis/app/orderscope_local/contracts/provider.py:236-260 | collection succeeds exactly on chains of contract-abiding pages that end within the limit without repeating a cursor, and returns that chain |
| PageChain.CollectionFailsIff | analysis/app/orderscope_local/contracts/provider.py:236-260 | and it fails with a violation exactly when the chain leads on to the first request at which that is wrong |
| PageChain.PageFaultIsFirst | analysis/app/orderscope_local/contracts/provider.py:81-119 | a page is refused exactly when it breaks a rule of the contract, for the first one |
| PageChain.TailCollected | analysis/app/orderscope_local/contracts/provider.py:240-260 | collecting again from the request behind page k gives exactly the pages from k on |
| PageCheckpoint.StoredIsRestored | analysis/app/orderscope_local/contracts/checkpoint.py:161-221 | a stored checkpoint is restored exactly |
| PageCheckpoint.RecordSays | analysis/app/orderscope_local/contracts/checkpoint.py:161-178 | each field of the stored record reads as the field of the checkpoint |
| PageCheckpoint.CheckpointValidIff | analysis/app/orderscope_local/contracts/checkpoint.py:42-142 | which checkpoints the constructors let through, state by state |
| PageCheckpoint.RestoredIsNormalised | analysis/app/orderscope_local/contracts/checkpoint.py:161-221 | storing a restored checkpoint again keeps all but dates and delay, restores to the same checkpoint, and gives the same record exactly when dates and delay were canonical, however they are read |
| PageCheckpoint.OtherTextIsAccepted | analysis/app/orderscope_local/contracts/checkpoint.py:188-221 | any other text that reads as the same instant is accepted |
| PageCheckpoint.CheckpointResumesNext | analysis/app/orderscope_local/contracts/provider.py:216-224 | a non-final page can be checkpointed exactly with well-formed keys and cursor, and resumes with the next request |
| PageCheckpoint.StopAndResume | analysis/app/orderscope_local/contracts/checkpoint.py:144-159 | stopping after any non-final page, saving and resuming gives exactly the remaining pages |
| PageCheckpoint.BlankCursorCannotBeSaved | analysis/app/orderscope_local/contracts/checkpoint.py:72-77 | a run whose next cursor is white space is collected, and its first page cannot be checkpointed |
| PageCheckpoint.ErrorResumesAtFailure | analysis/app/orderscope_local/contracts/provider.py:203-215 | an error page is kept as partial or failed with its error and retry time, and resumes at the request that failed |
| PageCheckpoint.CompletedRunIsOver | analysis/app/orderscope_local/contracts/checkpoint.py:147-148 | a run that ended without error cannot be resumed |
| FactStore.FollowChain | analysis/app/orderscope_local/contracts/fact_store.py:364-370 | the walk terminates and fails exactly when it meets a visited record |
| FactStore.ValidateFactStore | analysis/app/orderscope_local/contracts/fact_store.py:340-389 | accepts exactly the stores the rules accept |
| FactStore.AcceptedIffForest | analysis/app/orderscope_local/contracts/fact_store.py:340-389 | told by the records alone: acceptance means unique ids, safe contents, superseded records of the same kind that are not later, references that resolve and, for evidence, are reciprocal, and some depth that falls along every supersession link |
| FactStore.ChainsAreHistory | analysis/app/orderscope_local/contracts/fact_store.py:355-370 | every chain ends, keeps one record type, never goes forward in acceptance time and never returns to its start |
| FactStore.RecordsAvailableAsOf | analysis/app/orderscope_local/contracts/fact_store.py:392-409 | the view is defined exactly on accepted stores, holds exactly the visible records, and is sorted by acceptance time and id |
| FactStore.ViewsGrow | analysis/app/orderscope_local/contracts/fact_store.py:399-408 | views only grow with the cutoff |
| FactStore.AcceptanceDecides | analysis/app/orderscope_local/contracts/provenance.py:131-138 | the provenance test never removes a record that acceptance time lets through |
| FactStore.ViewHoldsHistory | analysis/app/orderscope_local/contracts/fact_store.py:400-408 | a view holds every ancestor of its records, for derived metrics exactly those not as of a later instant |
| FactStore.DerivedHistoryCanBeHidden | analysis/app/orderscope_local/contracts/fact_store.py:406-407 | a derived metric can be visible while the one it supersedes is not |

## Left out

- HTTP, retries, credentials, budgets, provider payload schemas and the Worker's routing: the provider is an
  arbitrary function and the ports are arbitrary answers.
- SQL text, JSON encoding, ISO and float conversions, time zones of datetimes, the digits of hashes, and
  `Intl` formatting: the zone offset is an arbitrary function, a text denotes an instant through an arbitrary
  parser, a stored record is read by arbitrary functions, and non-canonical date strings do not occur elsewhere.
- OHLC values: a bar carries its numbers as opaque content and the verdict of validating them.
- Multi-instrument jobs (`batchAcquisitionJobs` and the loop over instruments in the executor): the normal
  scheduler emits one instrument for each job.
- The attempt log (`recordAttempt`): it is written and never read back by the modelled code.
- The lease, job priority, gap-retry listing, news acquisition, retention purge and drain state machines: the
  soundness results hold without them.
- Checkpoint.D1CoverageCheckpointPort.CompareAndSetMany: batches that repeat a key are not modelled; there the
  result depends on which payload row the SQL subquery happens to return, and every caller passes one update for
  each key.
- BarStore.D1NormalizedBarStore.AcceptBatch: alone and on distinct idempotency keys, because on a repeated key the
  completing UPDATE may take either row; interleaving is the subject of `BarStoreSafety` and `StoredCoverage`.
- SessionGrid.ExpectedBars: the final sort by completion is not modelled; on well-formed calendars the result is
  ordered already.
- CatchUp.CatchUpEnds: crypto and intraday equities; `CatchUpLimits.ForwardEnds` is the bound for every stream, from
  rows without actionable gaps.
- CoverageProtocol.CoverageIsSound: over an abstract store; `StoredCoverage.CertifiedIsStored` states it over the
  tables.
- CoverageProtocol.GapLedgerIsComplete: over an abstract store, like CoverageIsSound.
- Executor.ExecuteAcquisitionJob: one instrument for each job, and no attempt log.
- The field-by-field validators of the Python records, and the content of the secret scan: a page or record
  carries its verdict.
